/** The system prompt of the tool-using assistant: a fixed text around
    the assistant's name. */
module Prompts {
  import opened Types
  import Text

  const PromptHead := "You are "
  const PromptOpening := ", an AI assistant with access to external tools. "
  const ToolsSentence := "Use the provided tools when appropriate to help users. "
  const ClosingSentence := "Keep responses concise (1-4 sentences)."
  const PromptTail := PromptOpening + (ToolsSentence + ClosingSentence)

  /** The prompt opens with the name in the first sentence, ends with the
      brevity instruction, and is the name's length plus a constant. */
  function GetSystemPrompt(aiName: string): (r: string)
    ensures PromptHead + aiName + PromptOpening <= r
    ensures |r| == |aiName| + |PromptHead| + |PromptTail|
    ensures r[|r| - |ClosingSentence|..] == ClosingSentence
  {
    Text.Bracketed(PromptHead, aiName, PromptOpening, ToolsSentence, ClosingSentence);
    PromptHead + aiName + PromptTail
  }

  /** Reads the assistant name back out of a prompt, if the text is one. */
  function NameOf(prompt: string): Option<string>
  {
    if |prompt| >= |PromptHead| + |PromptTail| && PromptHead <= prompt
       && prompt[|prompt| - |PromptTail|..] == PromptTail
    then Some(prompt[|PromptHead|..|prompt| - |PromptTail|])
    else None
  }

  /** The prompt determines the name it was made for. */
  lemma PromptRoundTrip(aiName: string)
    ensures NameOf(GetSystemPrompt(aiName)) == Some(aiName)
  {
    var r := GetSystemPrompt(aiName);
    assert r[|r| - |PromptTail|..] == PromptTail;
    assert r[|PromptHead|..|r| - |PromptTail|] == aiName;
  }

  /** Distinct names give distinct prompts. */
  lemma PromptInjective(a: string, b: string)
    requires a != b
    ensures GetSystemPrompt(a) != GetSystemPrompt(b)
  {
    PromptRoundTrip(a);
    PromptRoundTrip(b);
  }
}
