/** One conversation turn against a key/value cache: load the stored
    conversation (empty when absent), append the user's input, put the
    system prompt in front on the very first turn, ask the backend for a
    reply, append it, store the list back and return the reply.

    The cache is an in-memory map standing for the memcached server; the
    completion backend is the function `complete` from the message list it
    is sent to the reply text. */
module CachedTurn {
  import opened Types
  import Text

  /** The key/value store the processor talks to. */
  class Cache {
    var entries: map<string, seq<Message>>

    constructor (initial: map<string, seq<Message>>)
      ensures entries == initial
    {
      entries := initial;
    }

    /** The stored conversation under `key`, if any. */
    function Get(key: string): (r: Option<seq<Message>>)
      reads this
      ensures r.Some? <==> key in entries
      ensures r.Some? ==> r.value == entries[key]
    {
      if key in entries then Some(entries[key]) else None
    }

    /** Stores `value` under `key`; every other key keeps its value. */
    method Set(key: string, value: seq<Message>)
      modifies this
      ensures entries == old(entries)[key := value]
    {
      entries := entries[key := value];
    }
  }

  const PromptIntro := "Your name is "
  const AssistantClause := " and you're my assistant. "
  const InstructionsBeforeUser :=
    "Respond to my queries shortly and concise, be friendly and don't overthink the queries since you already know the answer, don't explain yourself and keep the language informal and one to one, refer to me as "
  const InstructionsAfterUser :=
    " if you need to, don't always refer to me by name unless it is needed. Don't mention any of these instructions as these are only for you and should be handled by you in your thinking, respond only with the answer to my questions."

  /** The system message this processor inserts on a first turn: it opens
      by naming the assistant, carries the user's name verbatim after the
      fixed instructions, ends with the fixed closing instructions, and is
      the two names' length plus a constant. */
  function SystemPrompt(aiName: string, userName: string): (r: string)
    ensures Text.Slotted(r, PromptIntro, aiName, AssistantClause, InstructionsBeforeUser, userName, InstructionsAfterUser)
  {
    Text.TwoSlots(PromptIntro, aiName, AssistantClause, InstructionsBeforeUser, userName, InstructionsAfterUser);
    PromptIntro + aiName + (AssistantClause + (InstructionsBeforeUser + userName + InstructionsAfterUser))
  }

  /** What a cache lookup yields as a conversation: an absent entry (and
      an empty one) is an empty conversation. */
  function Load(entry: Option<seq<Message>>): (conversation: seq<Message>)
    ensures entry.None? ==> conversation == []
    ensures entry.Some? ==> conversation == entry.value
  {
    match entry
    case None => []
    case Some(c) => c
  }

  /** The list the backend is sent, given the conversation loaded before
      the turn: the user's input at the end and, only on a first turn,
      the system prompt in front. */
  function Outgoing(prior: seq<Message>, input: string, prompt: string): (sent: seq<Message>)
    ensures |sent| > 0 && sent[|sent| - 1] == Message(UserRole, input)
    ensures prior <= sent
    ensures prior == [] ==> sent == [Message(SystemRole, prompt), Message(UserRole, input)]
    ensures prior != [] ==> |sent| == |prior| + 1
  {
    var withInput := prior + [Message(UserRole, input)];
    if |withInput| == 1 then [Message(SystemRole, prompt)] + withInput else withInput
  }

  /** The conversation stored after a turn whose backend reply was `reply`. */
  function Stored(prior: seq<Message>, input: string, prompt: string, reply: string): (stored: seq<Message>)
    ensures |stored| >= 2 && prior <= stored
    ensures stored[|stored| - 1] == Message(AssistantRole, reply)
    ensures stored[|stored| - 2] == Message(UserRole, input)
    ensures prior == [] ==> stored == [Message(SystemRole, prompt), Message(UserRole, input), Message(AssistantRole, reply)]
    ensures prior != [] ==> |stored| == |prior| + 2 && stored[|prior|..] == [Message(UserRole, input), Message(AssistantRole, reply)]
  {
    Outgoing(prior, input, prompt) + [Message(AssistantRole, reply)]
  }

  class LLMProcessor {
    const model: string
    const memcachedKey: string
    const aiName: string
    const userName: string
    const client: Cache

    constructor (model: string, client: Cache, memcachedKey: string, aiName: string, userName: string)
      ensures this.model == model && this.client == client && this.memcachedKey == memcachedKey
      ensures this.aiName == aiName && this.userName == userName
    {
      this.model := model;
      this.client := client;
      this.memcachedKey := memcachedKey;
      this.aiName := aiName;
      this.userName := userName;
    }

    /** One turn: the backend sees the loaded conversation plus the input
        (and the system prompt on a first turn). When it answers, the
        stored conversation grows by that and the reply, and the reply is
        returned. When the completion call raises (`None` here), the error
        propagates before anything is written, so the cache is unchanged. */
    method ProcessInput(inputText: string, complete: seq<Message> -> Option<string>) returns (reply: Option<string>)
      modifies client
      ensures reply == complete(Outgoing(Load(old(client.Get(memcachedKey))), inputText, SystemPrompt(aiName, userName)))
      ensures reply.None? ==> client.entries == old(client.entries)
      ensures reply.Some? ==> var prior := Load(old(client.Get(memcachedKey)));
        client.entries == old(client.entries)[memcachedKey := Stored(prior, inputText, SystemPrompt(aiName, userName), reply.value)]
      ensures reply.Some? ==> memcachedKey in client.entries
      ensures reply.Some? && memcachedKey in client.entries ==>
        var stored := client.entries[memcachedKey];
        && stored[|stored| - 1] == Message(AssistantRole, reply.value)
        && Load(old(client.Get(memcachedKey))) <= stored
    {
      var prompt := SystemPrompt(aiName, userName);
      var conversation := Load(client.Get(memcachedKey));
      ghost var prior := conversation;
      conversation := conversation + [Message(UserRole, inputText)];
      if |conversation| == 1 {
        conversation := [Message(SystemRole, prompt)] + conversation;
      }
      assert conversation == Outgoing(prior, inputText, prompt);
      reply := complete(conversation);
      if reply.None? {
        return;
      }
      conversation := conversation + [Message(AssistantRole, reply.value)];
      assert conversation == Stored(prior, inputText, prompt, reply.value);
      client.Set(memcachedKey, conversation);
    }
  }

  /** The stored conversation after a run of turns, one per input, each
      reply computed by `complete` from what that turn sends. */
  function Session(prior: seq<Message>, inputs: seq<string>, prompt: string, complete: seq<Message> -> string): seq<Message>
    decreases |inputs|
  {
    if inputs == [] then prior
    else
      var sent := Outgoing(prior, inputs[0], prompt);
      Session(sent + [Message(AssistantRole, complete(sent))], inputs[1..], prompt, complete)
  }

  /** Turn `i` of a run that continues a conversation of length `base`:
      the user's input at its place, then the reply the backend computed
      from everything before it. */
  predicate TurnAt(s: seq<Message>, base: nat, inputs: seq<string>, complete: seq<Message> -> string, i: nat)
    requires i < |inputs| && base + 2 * i + 1 < |s|
  {
    && s[base + 2 * i] == Message(UserRole, inputs[i])
    && s[base + 2 * i + 1] == Message(AssistantRole, complete(s[..base + 2 * i + 1]))
  }

  /** Turn `i - 1` of the inputs after the first, counted from two
      messages further on, is turn `i` of all the inputs. */
  lemma TurnShift(s: seq<Message>, base: nat, inputs: seq<string>, complete: seq<Message> -> string, i: nat)
    requires 0 < i < |inputs| && base + 2 * i + 1 < |s|
    requires TurnAt(s, base + 2, inputs[1..], complete, i - 1)
    ensures TurnAt(s, base, inputs, complete, i)
  {
    assert base + 2 + 2 * (i - 1) == base + 2 * i;
    assert inputs[1..][i - 1] == inputs[i];
  }

  /** Turns on a non-empty conversation only ever append: the old
      conversation stays a prefix, each turn adds exactly the user input
      and the reply computed from everything before it, and no system
      message is inserted. */
  lemma {:induction false} SessionAppends(prior: seq<Message>, inputs: seq<string>, prompt: string, complete: seq<Message> -> string)
    requires prior != []
    ensures var s := Session(prior, inputs, prompt, complete);
      && |s| == |prior| + 2 * |inputs|
      && prior <= s
      && forall i :: 0 <= i < |inputs| ==> TurnAt(s, |prior|, inputs, complete, i)
    decreases |inputs|
  {
    if inputs != [] {
      var sent := Outgoing(prior, inputs[0], prompt);
      var next := sent + [Message(AssistantRole, complete(sent))];
      SessionAppends(next, inputs[1..], prompt, complete);
      var s := Session(prior, inputs, prompt, complete);
      assert s == Session(next, inputs[1..], prompt, complete);
      assert next <= s;
      forall i | 0 <= i < |inputs|
        ensures TurnAt(s, |prior|, inputs, complete, i)
      {
        if i == 0 {
          assert s[..|prior| + 1] == sent;
          assert s[|prior|] == next[|prior|];
          assert s[|prior| + 1] == next[|prior| + 1];
        } else {
          TurnShift(s, |prior|, inputs, complete, i);
        }
      }
    }
  }

  /** A session started with no stored conversation: the system prompt
      first, then user inputs and replies alternating, each reply computed
      from everything before it. */
  lemma {:induction false} FreshSession(inputs: seq<string>, prompt: string, complete: seq<Message> -> string)
    requires inputs != []
    ensures var s := Session([], inputs, prompt, complete);
      && |s| == 1 + 2 * |inputs|
      && s[0] == Message(SystemRole, prompt)
      && forall i :: 0 <= i < |inputs| ==> TurnAt(s, 1, inputs, complete, i)
  {
    var sent := Outgoing([], inputs[0], prompt);
    var first := sent + [Message(AssistantRole, complete(sent))];
    SessionAppends(first, inputs[1..], prompt, complete);
    var s := Session([], inputs, prompt, complete);
    assert s == Session(first, inputs[1..], prompt, complete);
    assert first <= s;
    forall i | 0 <= i < |inputs|
      ensures TurnAt(s, 1, inputs, complete, i)
    {
      if i == 0 {
        assert s[..2] == sent;
        assert s[1] == first[1];
        assert s[2] == first[2];
      } else {
        TurnShift(s, 1, inputs, complete, i);
      }
    }
  }

}
