/**
 * The chat component of the frontend: a session that holds the transcript,
 * the input buffer and the in-flight flag, changed by three events (typing,
 * submitting, and the request settling), and the pure rules that decide
 * what each message shows beside its text.
 *
 * The session is a two-state machine: Idle (`isLoading` false) and
 * Awaiting (`isLoading` true). The pure functions `Submitted`, `Settled`
 * and `Edited` are the specification of the transitions; the class
 * `ChatSession` performs them in place and is proved to follow them.
 */
module ChatInterface {
  import opened Wrappers
  import opened Strings

  datatype Role = User | Agent

  /** One transcript entry; `sentiment` and `safety` are only ever set on agent replies. */
  datatype ChatMessage = ChatMessage(role: Role, content: string, sentiment: Option<string>, safety: Option<string>)

  /** What the backend returns on success. */
  datatype ChatResponse = ChatResponse(response: string, sentiment: Option<string>, safety: Option<string>)

  /** How the one outstanding request settles: a response, or any error at all. */
  datatype Outcome = Success(result: ChatResponse) | Failure

  /** The only text a failed request ever produces. */
  const FallbackText: string :=
    "I'm sorry, I'm having trouble connecting right now. Please try again in a moment."

  /** The marker the safety classification carries when the alert must show. */
  const SafetyMarker: string := "TRUE"

  /** The prefix the sentiment analysis puts before the detected emotion. */
  const EmotionPrefix: string := "Emotion: "

  /** The message a submit appends: the buffer as typed, with no sentiment or safety. */
  function UserMessage(text: string): ChatMessage {
    ChatMessage(User, text, None, None)
  }

  /** The single agent message a settled request appends. */
  function AgentReply(outcome: Outcome): ChatMessage {
    match outcome
    case Success(r) => ChatMessage(Agent, r.response, r.sentiment, r.safety)
    case Failure => ChatMessage(Agent, FallbackText, None, None)
  }

  // ---------------------------------------------------------------------
  // The session state and its transitions, as values
  // ---------------------------------------------------------------------

  datatype State = State(messages: seq<ChatMessage>, input: string, isLoading: bool)

  /** The state when the component mounts. */
  const Initial: State := State([], "", false)

  /**
   * The submit guard: some non-whitespace input, and no request in flight.
   * `SubmitDisabled` and `ChatSession.Submit` show it is the handler's
   * `trim` check.
   */
  predicate Accepts(input: string, isLoading: bool) {
    !IsBlank(input) && !isLoading
  }

  /** The submit button's `disabled` rule, written with `trim` as the form writes it. */
  function SubmitDisabled(input: string, isLoading: bool): (disabled: bool)
    ensures disabled <==> !Accepts(input, isLoading)
  {
    TrimEmptyIffBlank(input);
    Trim(input) == [] || isLoading
  }

  /** The text handed to the backend by a submit, if the submit is accepted. */
  function Request(s: State): Option<string> {
    if Accepts(s.input, s.isLoading) then Some(s.input) else None
  }

  /** A submit: append the user's message, clear the buffer, go to Awaiting; or nothing. */
  function Submitted(s: State): (t: State)
    ensures s.messages <= t.messages && |t.messages| <= |s.messages| + 1
    ensures Request(s).Some? <==> |t.messages| == |s.messages| + 1
  {
    if Accepts(s.input, s.isLoading) then State(s.messages + [UserMessage(s.input)], "", true) else s
  }

  /** The in-flight request settles: append the one reply and go back to Idle. */
  function Settled(s: State, outcome: Outcome): (t: State)
    requires s.isLoading
    ensures s.messages <= t.messages && |t.messages| == |s.messages| + 1
    ensures t.messages[|s.messages|].role == Agent && !t.isLoading && t.input == s.input
  {
    State(s.messages + [AgentReply(outcome)], s.input, false)
  }

  /** Typing into the input field. */
  function Edited(s: State, text: string): State {
    s.(input := text)
  }

  /** Messages alternate user, agent, user, ... starting with a user message. */
  predicate Alternates(ms: seq<ChatMessage>) {
    forall i :: 0 <= i < |ms| ==> ms[i].role == (if i % 2 == 0 then User else Agent)
  }

  /**
   * The session invariant: the transcript alternates, a request is in
   * flight exactly when the last message is an unanswered user message,
   * and no user message is blank.
   */
  predicate Consistent(s: State) {
    && Alternates(s.messages)
    && (s.isLoading <==> |s.messages| % 2 == 1)
    && forall i :: 0 <= i < |s.messages| && s.messages[i].role == User ==> !IsBlank(s.messages[i].content)
  }

  /** The number of messages with the given role. */
  function CountRole(ms: seq<ChatMessage>, role: Role): nat {
    if ms == [] then 0
    else CountRole(ms[..|ms| - 1], role) + (if ms[|ms| - 1].role == role then 1 else 0)
  }

  lemma InitialIsConsistent()
    ensures Consistent(Initial) && !Initial.isLoading && Initial.messages == []
  {
  }

  /** A rejected submit is a no-op and sends nothing. */
  lemma RejectedSubmitIsNoOp(s: State)
    requires !Accepts(s.input, s.isLoading)
    ensures Submitted(s) == s && Request(s) == None
  {
  }

  /**
   * An accepted submit appends exactly the untrimmed input as a user
   * message, keeps every earlier message, clears the buffer, enters
   * Awaiting, and sends the buffer as it was before clearing.
   */
  lemma AcceptedSubmit(s: State)
    requires Accepts(s.input, s.isLoading)
    ensures var t := Submitted(s);
      && |t.messages| == |s.messages| + 1
      && t.messages[..|s.messages|] == s.messages
      && t.messages[|s.messages|] == ChatMessage(User, s.input, None, None)
      && t.input == [] && t.isLoading
      && Request(s) == Some(s.input)
  {
  }

  /** Settling appends one agent message carrying the outcome and returns to Idle. */
  lemma SettleAppendsOneReply(s: State, outcome: Outcome)
    requires s.isLoading
    ensures var t := Settled(s, outcome);
      && |t.messages| == |s.messages| + 1
      && t.messages[..|s.messages|] == s.messages
      && t.messages[|s.messages|].role == Agent
      && (outcome.Success? ==> t.messages[|s.messages|] == ChatMessage(Agent, outcome.result.response, outcome.result.sentiment, outcome.result.safety))
      && (outcome.Failure? ==> t.messages[|s.messages|] == ChatMessage(Agent, FallbackText, None, None))
      && !t.isLoading && t.input == s.input
  {
  }

  /**
   * A whole accepted cycle, submit then settle, grows the transcript by
   * exactly two messages, the user's and then the agent's, after the old
   * transcript, and leaves the session Idle with an empty buffer.
   */
  lemma FullCycle(s: State, outcome: Outcome)
    requires Accepts(s.input, s.isLoading)
    ensures Submitted(s).isLoading
    ensures var t := Settled(Submitted(s), outcome);
      && t.messages == s.messages + [UserMessage(s.input), AgentReply(outcome)]
      && s.messages <= t.messages
      && !t.isLoading && t.input == []
  {
  }

  lemma SubmittedKeepsConsistent(s: State)
    requires Consistent(s)
    ensures Consistent(Submitted(s))
  {
    if Accepts(s.input, s.isLoading) {
      var ms := s.messages + [UserMessage(s.input)];
      assert Submitted(s) == State(ms, "", true);
      forall i | 0 <= i < |ms| ensures ms[i].role == (if i % 2 == 0 then User else Agent) {
        if i < |s.messages| { assert ms[i] == s.messages[i]; }
      }
      forall i | 0 <= i < |ms| && ms[i].role == User ensures !IsBlank(ms[i].content) {
        if i < |s.messages| { assert ms[i] == s.messages[i]; }
      }
    } else {
      assert Submitted(s) == s;
    }
  }

  lemma SettledKeepsConsistent(s: State, outcome: Outcome)
    requires Consistent(s) && s.isLoading
    ensures Consistent(Settled(s, outcome))
  {
  }

  lemma EditedKeepsConsistent(s: State, text: string)
    requires Consistent(s)
    ensures Consistent(Edited(s, text)) && Edited(s, text).messages == s.messages
  {
  }

  /**
   * In an alternating transcript there is one more user message than agent
   * messages exactly when the length is odd, and as many otherwise.
   */
  lemma {:induction false} AlternatingCounts(ms: seq<ChatMessage>)
    requires Alternates(ms)
    ensures CountRole(ms, User) == CountRole(ms, Agent) + |ms| % 2
  {
    if ms != [] {
      var init := ms[..|ms| - 1];
      assert Alternates(init) by {
        forall i | 0 <= i < |init| ensures init[i].role == (if i % 2 == 0 then User else Agent) {
          assert init[i] == ms[i];
        }
      }
      AlternatingCounts(init);
    }
  }

  /**
   * Exactly one reply per accepted submit: every user message has its
   * agent reply, except the one whose request is still in flight.
   */
  lemma RepliesMatchRequests(s: State)
    requires Consistent(s)
    ensures CountRole(s.messages, User) == CountRole(s.messages, Agent) + (if s.isLoading then 1 else 0)
  {
    AlternatingCounts(s.messages);
  }

  /** In Idle, every user message is immediately followed by an agent message. */
  lemma IdleEveryUserMessageAnswered(s: State, i: nat)
    requires Consistent(s) && !s.isLoading
    requires i < |s.messages| && s.messages[i].role == User
    ensures i + 1 < |s.messages| && s.messages[i + 1].role == Agent
  {
  }

  // ---------------------------------------------------------------------
  // The session object
  // ---------------------------------------------------------------------

  class ChatSession {
    var messages: seq<ChatMessage>
    var input: string
    var isLoading: bool

    function Snapshot(): State
      reads this
    {
      State(messages, input, isLoading)
    }

    ghost predicate Valid()
      reads this
    {
      Consistent(Snapshot())
    }

    /** Mounting the component: empty transcript, empty buffer, Idle. */
    constructor ()
      ensures Valid() && Snapshot() == Initial
    {
      messages := [];
      input := "";
      isLoading := false;
    }

    /** The input field's change handler. */
    method SetInput(text: string)
      requires Valid()
      modifies this
      ensures Valid() && Snapshot() == Edited(old(Snapshot()), text)
      ensures messages == old(messages) && isLoading == old(isLoading) && input == text
    {
      input := text;
    }

    /**
     * The form's submit handler, up to the point where it awaits the
     * backend. Returns the text to send, or `None` when the guard drops
     * the submit.
     */
    method Submit() returns (request: Option<string>)
      requires Valid()
      modifies this
      ensures Valid()
      ensures Snapshot() == Submitted(old(Snapshot())) && request == Request(old(Snapshot()))
      ensures request.None? ==> messages == old(messages) && input == old(input) && isLoading == old(isLoading)
      ensures request.Some? ==>
        && request.value == old(input)
        && messages == old(messages) + [ChatMessage(User, old(input), None, None)]
        && input == [] && isLoading
    {
      if Trim(input) == [] || isLoading {
        TrimEmptyIffBlank(input);
        return None;
      }
      TrimEmptyIffBlank(input);
      var text := input;
      messages := messages + [UserMessage(text)];
      input := "";
      isLoading := true;
      request := Some(text);
      SubmittedKeepsConsistent(old(Snapshot()));
    }

    /**
     * The rest of the submit handler, once the request settles: append
     * the reply (or the fallback) and leave Awaiting. The input buffer is
     * whatever the user has typed meanwhile.
     */
    method Settle(outcome: Outcome)
      requires Valid() && isLoading
      modifies this
      ensures Valid() && Snapshot() == Settled(old(Snapshot()), outcome)
      ensures messages == old(messages) + [AgentReply(outcome)]
      ensures input == old(input) && !isLoading
    {
      SettledKeepsConsistent(Snapshot(), outcome);
      messages := messages + [AgentReply(outcome)];
      isLoading := false;
    }
  }

  // ---------------------------------------------------------------------
  // Display rules for one message
  // ---------------------------------------------------------------------

  /** The safety banner shows when the safety text contains the marker. */
  function ShowsSafetyAlert(m: ChatMessage): (shown: bool)
    ensures shown <==> m.safety.Some? && exists i :: 0 <= i <= |m.safety.value| && OccursAt(m.safety.value, SafetyMarker, i)
  {
    m.safety.Some? && Contains(m.safety.value, SafetyMarker)
  }

  /** The sentiment line shows when there is a non-empty sentiment and the safety banner does not show. */
  predicate ShowsSentimentLabel(m: ChatMessage) {
    m.sentiment.Some? && m.sentiment.value != [] && !ShowsSafetyAlert(m)
  }

  /** No message ever shows both the safety banner and the sentiment line. */
  lemma AlertAndLabelExclusive(m: ChatMessage)
    ensures !(ShowsSafetyAlert(m) && ShowsSentimentLabel(m))
  {
  }

  /**
   * The text of the sentiment line: the first `"Emotion: "` removed, then
   * cut before the first line break.
   */
  function SentimentLabel(sentiment: string): (line: string)
    ensures '\n' !in line
    ensures line <= ReplaceFirst(sentiment, EmotionPrefix, "")
    ensures |line| < |ReplaceFirst(sentiment, EmotionPrefix, "")| ==> ReplaceFirst(sentiment, EmotionPrefix, "")[|line|] == '\n'
  {
    BeforeFirst(ReplaceFirst(sentiment, EmotionPrefix, ""), '\n')
  }

  /**
   * For the analysis format `Emotion: <e>` followed by further lines, the
   * label is exactly `<e>`.
   */
  lemma SentimentLabelOfAnalysis(emotion: string, rest: string)
    requires '\n' !in emotion
    ensures SentimentLabel(EmotionPrefix + emotion + "\n" + rest) == emotion
  {
    ReplaceFirstOfPrefix(EmotionPrefix, emotion + "\n" + rest, "");
    assert EmotionPrefix + emotion + "\n" + rest == EmotionPrefix + (emotion + "\n" + rest);
    assert "" + (emotion + "\n" + rest) == emotion + ['\n'] + rest;
    BeforeFirstOfLine(emotion, '\n', rest);
  }

  /** A single-line analysis `Emotion: <e>` is labelled `<e>`. */
  lemma SentimentLabelOfSingleLine(emotion: string)
    requires '\n' !in emotion
    ensures SentimentLabel(EmotionPrefix + emotion) == emotion
  {
  }

  /** User messages and the fallback reply show neither banner nor sentiment line. */
  lemma PlainMessagesShowNothing(text: string)
    ensures !ShowsSafetyAlert(UserMessage(text)) && !ShowsSentimentLabel(UserMessage(text))
    ensures !ShowsSafetyAlert(AgentReply(Failure)) && !ShowsSentimentLabel(AgentReply(Failure))
  {
  }

  // ---------------------------------------------------------------------
  // Worked exchanges
  // ---------------------------------------------------------------------

  /**
   * From a fresh session, "I feel anxious today" answered with sentiment
   * "Emotion: anxious" and safety "FALSE": the transcript is the user's
   * message then the reply, no banner shows, and the sentiment line reads
   * "anxious".
   */
  lemma AnxiousExchange()
    ensures var s1 := Submitted(Edited(Initial, "I feel anxious today"));
      && s1.isLoading
      && var r := ChatResponse("That sounds hard.", Some("Emotion: anxious"), Some("FALSE"));
      && var s2 := Settled(s1, Success(r));
      && s2.messages == [UserMessage("I feel anxious today"), ChatMessage(Agent, "That sounds hard.", Some("Emotion: anxious"), Some("FALSE"))]
      && !ShowsSafetyAlert(s2.messages[1])
      && ShowsSentimentLabel(s2.messages[1])
      && SentimentLabel(s2.messages[1].sentiment.value) == "anxious"
  {
    assert !IsWhitespace("I feel anxious today"[0]);
    var safety: string := "FALSE";
    forall i | 0 <= i <= |safety| ensures !OccursAt(safety, SafetyMarker, i) {
      if i + 4 <= |safety| { assert safety[i..i + 4][0] == safety[i] != 'T'; }
    }
    assert "Emotion: anxious" == EmotionPrefix + "anxious";
    SentimentLabelOfSingleLine("anxious");
  }

  /** A reply whose safety verdict carries the marker shows the banner and hides the sentiment line. */
  lemma EscalatedReplyShowsAlertOnly(response: string, sentiment: Option<string>)
    ensures var m := AgentReply(Success(ChatResponse(response, sentiment, Some("ESCALATE: TRUE"))));
      ShowsSafetyAlert(m) && !ShowsSentimentLabel(m)
  {
    assert OccursAt("ESCALATE: TRUE", SafetyMarker, 10);
  }

  /** Whitespace-only input is dropped even in Idle. */
  lemma BlankInputIsDropped(s: State)
    requires IsBlank(s.input)
    ensures Submitted(s) == s && Request(s) == None
  {
  }
}
