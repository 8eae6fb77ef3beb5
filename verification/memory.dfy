/** The in-process message transcript: an append-only list of messages
    that can be rendered to role/content maps or emptied. */
module ChatMemory {
  import opened Types

  /** The role/content map the completion API expects for one message. */
  function Render(m: Message): (d: map<string, string>)
    ensures d.Keys == {"role", "content"}
    ensures d["role"] == m.role && d["content"] == m.content
  {
    map["role" := m.role, "content" := m.content]
  }

  /** The transcript rendered message by message. */
  function RenderAll(ms: seq<Message>): (ds: seq<map<string, string>>)
    ensures |ds| == |ms|
    ensures forall i :: 0 <= i < |ms| ==> ds[i] == Render(ms[i])
  {
    seq(|ms|, i requires 0 <= i < |ms| => Render(ms[i]))
  }

  /** Reads one rendered map back as a message (the inverse of Render). */
  function Parse(d: map<string, string>): Option<Message>
  {
    if "role" in d && "content" in d then Some(Message(d["role"], d["content"])) else None
  }

  /** Reads a rendered transcript back, message by message. */
  function ParseAll(ds: seq<map<string, string>>): Option<seq<Message>>
  {
    if ds == [] then Some([])
    else match (Parse(ds[0]), ParseAll(ds[1..]))
      case (Some(m), Some(rest)) => Some([m] + rest)
      case _ => None
  }

  /** Rendering loses nothing: role and content are copied verbatim, in
      order, so the transcript can be read back from what the API gets. */
  lemma {:induction false} RenderRoundTrip(ms: seq<Message>)
    ensures ParseAll(RenderAll(ms)) == Some(ms)
  {
    if ms != [] {
      assert RenderAll(ms)[1..] == RenderAll(ms[1..]);
      RenderRoundTrip(ms[1..]);
      assert [ms[0]] + ms[1..] == ms;
    }
  }

  class Memory {
    var messages: seq<Message>

    /** A new transcript is empty. */
    constructor ()
      ensures messages == []
    {
      messages := [];
    }

    /** Appends one message at the end; earlier messages are untouched. */
    method AddMessage(role: string, content: string)
      modifies this
      ensures messages == old(messages) + [Message(role, content)]
      ensures |messages| == |old(messages)| + 1
      ensures messages[|messages| - 1].role == role && messages[|messages| - 1].content == content
      ensures old(messages) <= messages
    {
      messages := messages + [Message(role, content)];
    }

    /** The transcript as role/content maps, one per message, in order.
        Being a function, it leaves the stored messages as they are. */
    function GetMessages(): (ds: seq<map<string, string>>)
      reads this
      ensures |ds| == |messages|
      ensures forall i :: 0 <= i < |ds| ==>
        ds[i].Keys == {"role", "content"} &&
        ds[i]["role"] == messages[i].role && ds[i]["content"] == messages[i].content
      ensures ParseAll(ds) == Some(messages)
    {
      RenderRoundTrip(messages);
      RenderAll(messages)
    }

    /** Empties the transcript. */
    method Clear()
      modifies this
      ensures messages == []
      ensures GetMessages() == []
    {
      messages := [];
    }
  }
}
