/** The web-search tool: decides, from the configured API token and what
    the HTTP request produced, between the setup instructions, a "no
    results" line, an error line and the joined result summary. The HTTP
    exchange itself is an input. */
module BraveSearch {
  import opened Types
  import Text

  const SetupInstructions :=
    "\n1. Visit https://brave.com/search/api/\n"
    + "2. Sign up for a free or paid Brave Search API subscription\n"
    + "3. Create a new API key in your dashboard\n"
    + "4. Copy your API key to .env file as: BRAVE_SEARCH_API_TOKEN=\"your-key-here\"\n"

  const MessageHead := "IMPORTANT: Do not provide information from your knowledge base. "
  const ReasonLead := "I cannot search the web because "
  const MessageBody :=
    "You must respond to the user with this message:\n\n"
    + "I apologize, but I cannot search the web for this information right now. "
    + "To enable web searching capabilities, you'll need to set up Brave Search first. "
    + "Here are the steps:\n"
  const MessageEnd :=
    "\nOnce you've completed these steps, I'll be able to search the web and provide you with accurate, up-to-date information."

  const NotConfiguredReason := "Brave Search is not yet configured on this system"
  const InvalidTokenReason := "the Brave Search API token is invalid"
  const NoResultsLead := "No results found for: "
  const ErrorLead := "Error performing search: "
  const EntrySeparator := "\n\n"

  /** The fixed text before and after the reason in a setup message. */
  const SetupLead := MessageHead + ReasonLead
  const SetupRest := MessageBody + SetupInstructions + MessageEnd
  const SetupTail := ". " + SetupRest

  /** The message telling the model to relay the setup steps, with the
      reason searching is impossible. */
  function SetupMessage(reason: string): (r: string)
    ensures SetupLead + reason + ". " <= r
    ensures Text.Contains(r, SetupInstructions)
    ensures |r| == |reason| + |SetupLead| + |SetupTail|
  {
    Text.Embedded(SetupLead, reason, ". ", MessageBody, SetupInstructions, MessageEnd);
    SetupLead + reason + SetupTail
  }

  /** Reads the reason back out of a setup message, if the text is one. */
  function ReasonOf(message: string): Option<string>
  {
    if |message| >= |SetupLead| + |SetupTail| && SetupLead <= message
       && message[|message| - |SetupTail|..] == SetupTail
    then Some(message[|SetupLead|..|message| - |SetupTail|])
    else None
  }

  /** The setup message determines its reason, so the two reasons the
      tool uses give two different messages. */
  lemma SetupMessageRoundTrip(reason: string)
    ensures ReasonOf(SetupMessage(reason)) == Some(reason)
  {
    Text.Framed(SetupLead, reason, SetupTail);
  }

  /** The "not configured" and "invalid token" messages differ. */
  lemma SetupReasonsDiffer()
    ensures SetupMessage(NotConfiguredReason) != SetupMessage(InvalidTokenReason)
  {
    SetupMessageRoundTrip(NotConfiguredReason);
    SetupMessageRoundTrip(InvalidTokenReason);
  }

  /** One search hit: its title and description. */
  datatype SearchHit = SearchHit(title: string, description: string)

  /** What the request produced: a response with its status code, the text
      of the error a failing status raises, and the `web.results` list
      (absent when the body has no such list); or the text of a
      request exception. */
  datatype HttpOutcome =
    | Response(status: int, errorText: string, results: Option<seq<SearchHit>>)
    | RequestFailed(text: string)

  /** A status the response's status check turns into a request error:
      a client error (4xx) or a server error (5xx). */
  predicate IsErrorStatus(status: int): (r: bool)
    ensures r <==> status / 100 == 4 || status / 100 == 5
  {
    400 <= status < 600
  }

  /** The summary entry for one hit. */
  function Entry(hit: SearchHit): (r: string)
    ensures "- " <= r
    ensures r[2..] == hit.title + ": " + hit.description
  {
    "- " + hit.title + ": " + hit.description
  }

  function Entries(hits: seq<SearchHit>): (rs: seq<string>)
    ensures |rs| == |hits|
    ensures forall i :: 0 <= i < |hits| ==> rs[i] == Entry(hits[i])
  {
    seq(|hits|, i requires 0 <= i < |hits| => Entry(hits[i]))
  }

  /** The text an exception with message `text` turns into. */
  function ExceptionText(text: string): (r: string)
    ensures Text.Contains(text, "401") ==> r == SetupMessage(InvalidTokenReason)
    ensures !Text.Contains(text, "401") ==> ErrorLead <= r && r[|ErrorLead|..] == text
  {
    if Text.Contains(text, "401") then SetupMessage(InvalidTokenReason) else ErrorLead + text
  }

  /** The search tool. A token that is absent or empty means "not
      configured"; a 401 status means an invalid token; an error status or
      a request exception becomes the setup message when its text mentions
      401 and an error line otherwise; no results give the "no results"
      line; otherwise one entry per hit, in order, joined by blank lines. */
  method Search(token: Option<string>, query: string, outcome: HttpOutcome) returns (r: string)
    ensures (token.None? || token.value == "") ==> r == SetupMessage(NotConfiguredReason)
    ensures token.Some? && token.value != "" ==>
      match outcome
      case RequestFailed(text) => r == ExceptionText(text)
      case Response(status, errorText, results) =>
        if status == 401 then r == SetupMessage(InvalidTokenReason)
        else if IsErrorStatus(status) then r == ExceptionText(errorText)
        else if results.None? || results.value == [] then r == NoResultsLead + query
        else r == Text.Join(Entries(results.value), EntrySeparator)
  {
    if token.None? || token.value == "" {
      return SetupMessage(NotConfiguredReason);
    }
    match outcome {
      case RequestFailed(text) =>
        r := ExceptionText(text);
      case Response(status, errorText, results) =>
        if status == 401 {
          return SetupMessage(InvalidTokenReason);
        }
        if IsErrorStatus(status) {
          return ExceptionText(errorText);
        }
        if results.None? || results.value == [] {
          return NoResultsLead + query;
        }
        var hits := results.value;
        var summary: seq<string> := [];
        var i := 0;
        while i < |hits|
          invariant 0 <= i <= |hits|
          invariant summary == Entries(hits[..i])
        {
          summary := summary + [Entry(hits[i])];
          i := i + 1;
        }
        assert hits[..i] == hits;
        r := Text.Join(summary, EntrySeparator);
    }
  }

  /** One more hit adds a blank line and its entry to the summary, so the
      entries come out in the order of the hits. */
  lemma SummarySnoc(hits: seq<SearchHit>, hit: SearchHit)
    requires hits != []
    ensures Text.Join(Entries(hits + [hit]), EntrySeparator)
         == Text.Join(Entries(hits), EntrySeparator) + EntrySeparator + Entry(hit)
  {
    assert Entries(hits + [hit]) == Entries(hits) + [Entry(hit)];
    Text.JoinSnoc(Entries(hits), Entry(hit), EntrySeparator);
  }
}
