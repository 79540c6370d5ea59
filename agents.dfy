/**
 * The backend's agent pipeline: reading the text out of the events an
 * agent run streams back, keeping the last non-empty one, making sure the
 * run's session exists, and composing the three runs of the wellness flow
 * (sentiment, safety, then the main reply).
 *
 * The language model and the agent runner are not modelled: a run is an
 * oracle `AgentCall -> seq<Event>` that, given the agent, the message and
 * the session id, yields the stream of events.
 */
module Agents {
  import opened Wrappers
  import opened Strings

  /** One part of an event's content; its text may be absent. */
  datatype Part = Part(text: Option<string>)

  /** An event's content; its list of parts may be absent. */
  datatype Content = Content(parts: Option<seq<Part>>)

  /** One event of an agent run; its content may be absent. */
  datatype Event = Event(content: Option<Content>)

  /** `event.content and event.content.parts`: present content with a non-empty list of parts. */
  predicate HasParts(e: Event) {
    e.content.Some? && e.content.value.parts.Some? && e.content.value.parts.value != []
  }

  /** The text of a part, with an absent text read as empty. */
  function PartText(p: Part): string {
    p.text.GetOr("")
  }

  /** The parts' texts joined in order, skipping parts whose text is absent or empty. */
  function JoinTexts(parts: seq<Part>): (r: string)
    ensures r == [] <==> forall i :: 0 <= i < |parts| ==> PartText(parts[i]) == []
  {
    if parts == [] then ""
    else if parts[0].text.Some? && parts[0].text.value != "" then parts[0].text.value + JoinTexts(parts[1..])
    else JoinTexts(parts[1..])
  }

  /** Joining distributes over concatenation of part lists. */
  lemma {:induction false} JoinTextsAppend(a: seq<Part>, b: seq<Part>)
    ensures JoinTexts(a + b) == JoinTexts(a) + JoinTexts(b)
  {
    if a != [] {
      assert (a + b)[1..] == a[1..] + b;
      JoinTextsAppend(a[1..], b);
    } else {
      assert a + b == b;
    }
  }

  /** Joining one part gives that part's text. */
  lemma JoinTextsSingle(p: Part)
    ensures JoinTexts([p]) == PartText(p)
  {
  }

  /** A part with absent or empty text can be dropped without changing the joined text. */
  lemma JoinTextsSkipsEmpty(a: seq<Part>, p: Part, b: seq<Part>)
    requires PartText(p) == []
    ensures JoinTexts(a + [p] + b) == JoinTexts(a + b)
  {
    JoinTextsAppend(a + [p], b);
    JoinTextsAppend(a, [p]);
    JoinTextsSingle(p);
    JoinTextsAppend(a, b);
  }

  /**
   * The text of an event: the joined texts of its parts, or empty when the
   * event, its content or its parts are absent, or the parts are empty.
   */
  function GetText(event: Option<Event>): (r: string)
    ensures event.None? || !HasParts(event.value) ==> r == []
    ensures event.Some? && HasParts(event.value) ==> r == JoinTexts(event.value.content.value.parts.value)
    ensures r != [] ==> exists i :: 0 <= i < |event.value.content.value.parts.value| && PartText(event.value.content.value.parts.value[i]) != []
  {
    if event.Some? && HasParts(event.value) then JoinTexts(event.value.content.value.parts.value) else ""
  }

  /** The text of one streamed event. */
  function EventText(e: Event): string {
    GetText(Some(e))
  }

  /**
   * The text the final-text loop ends with: that of the last event whose
   * text is non-empty, or empty if there is none.
   */
  function LastNonEmptyText(events: seq<Event>): (r: string)
    ensures r == [] <==> forall i :: 0 <= i < |events| ==> EventText(events[i]) == []
  {
    if events == [] then ""
    else if EventText(events[|events| - 1]) != "" then EventText(events[|events| - 1])
    else LastNonEmptyText(events[..|events| - 1])
  }

  /**
   * The result is the text of the last event with non-empty text: later
   * events with empty text never overwrite it.
   */
  lemma {:induction false} LastNonEmptyTextIsLast(events: seq<Event>, k: nat)
    requires k < |events| && EventText(events[k]) != []
    requires forall j :: k < j < |events| ==> EventText(events[j]) == []
    ensures LastNonEmptyText(events) == EventText(events[k])
    decreases |events|
  {
    if k < |events| - 1 {
      var init := events[..|events| - 1];
      assert init[k] == events[k];
      forall j | k < j < |init| ensures EventText(init[j]) == [] {
        assert init[j] == events[j];
      }
      LastNonEmptyTextIsLast(init, k);
    }
  }

  /** The final-text loop over a run's event stream. */
  method FinalText(events: seq<Event>) returns (finalText: string)
    ensures finalText == LastNonEmptyText(events)
  {
    finalText := "";
    for i := 0 to |events|
      invariant finalText == LastNonEmptyText(events[..i])
    {
      var event := events[i];
      if HasParts(event) {
        var text := GetText(Some(event));
        if text != "" {
          finalText := text;
        }
      }
      assert events[..i + 1][..i] == events[..i];
    }
    assert events[..|events|] == events;
  }

  // ---------------------------------------------------------------------
  // Sessions and agent runs
  // ---------------------------------------------------------------------

  const AppName: string := "MentalWellnessApp"
  const UserId: string := "user"

  datatype SessionKey = SessionKey(appName: string, userId: string, sessionId: string)

  /** The key under which a run with this session id keeps its session. */
  function KeyOf(sessionId: string): SessionKey {
    SessionKey(AppName, UserId, sessionId)
  }

  datatype AgentName = SentimentAgent | HitlAgent | MainWellnessAgent

  /** One request to run an agent on a message within a session. */
  datatype AgentCall = AgentCall(agent: AgentName, message: string, sessionId: string)

  /**
   * The process-wide in-memory session service: the set of sessions that
   * exist, and, as a ghost record, the runs made against it in order.
   */
  class SessionStore {
    var sessions: set<SessionKey>
    ghost var log: seq<AgentCall>

    constructor ()
      ensures sessions == {} && log == []
    {
      sessions := {};
      log := [];
    }

    /**
     * Looks the session up and creates it only if it is missing.
     * `created` reports whether it had to be created.
     */
    method EnsureSession(sessionId: string) returns (created: bool)
      modifies this
      ensures sessions == old(sessions) + {KeyOf(sessionId)} && log == old(log)
      ensures created <==> KeyOf(sessionId) !in old(sessions)
    {
      var key := KeyOf(sessionId);
      created := key !in sessions;
      if created {
        sessions := sessions + {key};
      }
    }
  }

  /**
   * Runs `agent` on `message` in session `sessionId` after making sure the
   * session exists, and returns the run's final text.
   */
  method GetAgentResponse(store: SessionStore, run: AgentCall -> seq<Event>, agent: AgentName, message: string,
                          sessionId: string := "default") returns (text: string)
    modifies store
    ensures store.sessions == old(store.sessions) + {KeyOf(sessionId)}
    ensures store.log == old(store.log) + [AgentCall(agent, message, sessionId)]
    ensures text == LastNonEmptyText(run(AgentCall(agent, message, sessionId)))
  {
    var _ := store.EnsureSession(sessionId);
    var call := AgentCall(agent, message, sessionId);
    var events := run(call);
    store.log := store.log + [call];
    text := FinalText(events);
  }

  // ---------------------------------------------------------------------
  // The wellness flow
  // ---------------------------------------------------------------------

  /** The record the flow returns. */
  datatype FlowResult = FlowResult(response: string, sentiment: string, safety: string)

  function SentimentSessionId(sessionId: string): (id: string)
    ensures sessionId < id
  {
    sessionId + "_sentiment"
  }

  function SafetySessionId(sessionId: string): (id: string)
    ensures sessionId < id
  {
    sessionId + "_safety"
  }

  /** The three runs use three different sessions, whatever the base id. */
  lemma SessionIdsDistinct(sessionId: string)
    ensures SentimentSessionId(sessionId) != SafetySessionId(sessionId)
    ensures SentimentSessionId(sessionId) != sessionId
    ensures SafetySessionId(sessionId) != sessionId
  {
  }

  /** The message the main agent receives. */
  function MainContext(userInput: string, sentimentText: string, safetyText: string): (context: string)
    ensures "User Message: " + userInput <= context
    ensures |context| == 51 + |userInput| + |sentimentText| + |safetyText|
    ensures context[14 + |userInput|..|context| - 16 - |safetyText|] == "\nSentiment Analysis: " + sentimentText
    ensures context[|context| - 16 - |safetyText|..|context| - |safetyText|] == "\nSafety Status: "
    ensures context[|context| - |safetyText|..] == safetyText
  {
    "User Message: " + userInput + "\nSentiment Analysis: " + sentimentText + "\nSafety Status: " + safetyText
  }

  /** When the user's message is one line, it is the context's whole first line. */
  lemma ContextFirstLine(userInput: string, sentimentText: string, safetyText: string)
    requires '\n' !in userInput
    ensures BeforeFirst(MainContext(userInput, sentimentText, safetyText), '\n') == "User Message: " + userInput
  {
    var rest := "Sentiment Analysis: " + sentimentText + "\nSafety Status: " + safetyText;
    assert MainContext(userInput, sentimentText, safetyText) == ("User Message: " + userInput) + ['\n'] + rest;
    BeforeFirstOfLine("User Message: " + userInput, '\n', rest);
  }

  /** When the safety verdict is one line, it is the context's whole last line. */
  lemma ContextLastLine(userInput: string, sentimentText: string, safetyText: string)
    requires '\n' !in safetyText
    ensures AfterLast(MainContext(userInput, sentimentText, safetyText), '\n') == "Safety Status: " + safetyText
  {
    var init := "User Message: " + userInput + "\nSentiment Analysis: " + sentimentText;
    assert MainContext(userInput, sentimentText, safetyText) == init + ['\n'] + ("Safety Status: " + safetyText);
    assert '\n' !in "Safety Status: ";
    AfterLastOfLine(init, '\n', "Safety Status: " + safetyText);
  }

  /** The runs the flow makes, in order, given what the first two answered. */
  function FlowCalls(userInput: string, sessionId: string, sentimentText: string, safetyText: string): (calls: seq<AgentCall>)
    ensures |calls| == 3
    ensures calls[0].agent == SentimentAgent && calls[1].agent == HitlAgent && calls[2].agent == MainWellnessAgent
    ensures calls[0].message == userInput && calls[1].message == userInput
    ensures calls[0].sessionId != calls[1].sessionId && calls[0].sessionId != calls[2].sessionId && calls[1].sessionId != calls[2].sessionId
  {
    SessionIdsDistinct(sessionId);
    [ AgentCall(SentimentAgent, userInput, SentimentSessionId(sessionId)),
      AgentCall(HitlAgent, userInput, SafetySessionId(sessionId)),
      AgentCall(MainWellnessAgent, MainContext(userInput, sentimentText, safetyText), sessionId) ]
  }

  /**
   * The flow: sentiment analysis and the safety check both on the raw
   * input, in that order, then the main agent on the composed context; the
   * record maps each field to the matching run's final text.
   */
  method RunWellnessFlow(store: SessionStore, run: AgentCall -> seq<Event>, userInput: string,
                         sessionId: string := "default") returns (result: FlowResult)
    modifies store
    ensures store.log == old(store.log) + FlowCalls(userInput, sessionId, result.sentiment, result.safety)
    ensures var calls := FlowCalls(userInput, sessionId, result.sentiment, result.safety);
      && result.sentiment == LastNonEmptyText(run(calls[0]))
      && result.safety == LastNonEmptyText(run(calls[1]))
      && result.response == LastNonEmptyText(run(calls[2]))
    ensures store.sessions == old(store.sessions) + {KeyOf(SentimentSessionId(sessionId)), KeyOf(SafetySessionId(sessionId)), KeyOf(sessionId)}
  {
    var sentimentText := GetAgentResponse(store, run, SentimentAgent, userInput, SentimentSessionId(sessionId));
    var safetyText := GetAgentResponse(store, run, HitlAgent, userInput, SafetySessionId(sessionId));
    var context := MainContext(userInput, sentimentText, safetyText);
    var finalResponseText := GetAgentResponse(store, run, MainWellnessAgent, context, sessionId);
    result := FlowResult(finalResponseText, sentimentText, safetyText);
  }
}
