/** The record types shared by the conversation modules. */
module Types {

  /** An optional value, as Python's `None` versus a present value. */
  datatype Option<+T> = None | Some(value: T)

  /** One transcript entry: a role ("system", "user", "assistant", ...)
      and its text. */
  datatype Message = Message(role: string, content: string)

  const SystemRole := "system"
  const UserRole := "user"
  const AssistantRole := "assistant"
}
