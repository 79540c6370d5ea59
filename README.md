# True Companion: chat session and agent pipeline, modelled in Dafny

True Companion is a wellness chat assistant. A React page
(`ChatInterface`) keeps a transcript, an input buffer and an in-flight flag.
It sends one message at a time to a backend. The backend runs three language
model agents in turn: a sentiment analyser, a safety monitor, and the main
wellness agent. The main agent receives the user's message together with the
other two verdicts.

This project models the two pieces of logic in that system.

- **The chat session** (`chat_interface.dfy`, module `ChatInterface`). It is
  a two-state machine, Idle or Awaiting, driven by typing, submitting and
  the request settling. The pure functions `Submitted`, `Settled` and `Edited`
  specify the transitions. The class `ChatSession` performs them in place
  and is proved to follow them. It keeps the invariant `Consistent`: the
  transcript alternates user, agent, user, and so on; a request is in flight
  exactly when the last message is unanswered; no user message is blank.
  The display rules decide, for each message, whether the safety banner or
  the sentiment line shows and what the line says.
- **The agent pipeline** (`agents.dfy`, module `Agents`). It covers the text
  extraction from one event, the loop that keeps the last non-empty text of
  a run, the session check before a run, and the wellness flow. The flow
  derives the session ids, composes the main agent's context and assembles
  the result record. A run of an agent is an oracle: a function from the
  call (agent, message, session id) to the stream of events.
- `strings.dfy` (module `Strings`) defines the string operations the
  frontend uses: JavaScript's `trim`, `includes`, `replace` with a string
  pattern and a literal replacement, and `split(...)[0]`. It also defines "text after the last
  separator". Neither side computes that; it exists only to state
  `Agents.ContextLastLine`, the read-back of the context's last line.
- `wrappers.dfy` (module `Wrappers`) holds the `Option` type for optional
  fields.

## Model

| member | source | states |
|---|---|---|
| `Strings.TrimStart` | frontend/src/components/ChatInterface.tsx:30 | the result is a suffix of the input; everything dropped is whitespace; the result does not start with whitespace |
| `Strings.TrimEnd` | frontend/src/components/ChatInterface.tsx:30 | the result is a prefix of the input; everything dropped is whitespace; the result does not end with whitespace |
| `Strings.Trim` | frontend/src/components/ChatInterface.tsx:30 | the result is a slice of the input with only whitespace before and after it, and a non-empty result neither starts nor ends with whitespace |
| `Strings.TrimEmptyIffBlank` | frontend/src/components/ChatInterface.tsx:175 | `trim()` gives the empty string exactly when every character is whitespace |
| `Strings.IndexOfFrom` | frontend/src/components/ChatInterface.tsx:140 | the index found is an occurrence with none before it; `None` means there is no occurrence at all |
| `Strings.Contains` | frontend/src/components/ChatInterface.tsx:127 | `includes` holds exactly when the pattern occurs at some index |
| `Strings.ReplaceFirst` | frontend/src/components/ChatInterface.tsx:140 | for a replacement with no `$` patterns: without an occurrence the string is unchanged; with one, the result is the input with its first occurrence, and only that one, replaced |
| `Strings.ReplaceFirstOfPrefix` | frontend/src/components/ChatInterface.tsx:140 | a string that starts with the pattern has exactly that leading occurrence replaced |
| `Strings.BeforeFirst` | frontend/src/components/ChatInterface.tsx:140 | `split(c)[0]` is a prefix free of `c`, and is followed in the input by `c` whenever it is shorter than the input |
| `Strings.AfterLast` | backend/agents.py:89 | the text after the last `c` is a suffix free of `c`, preceded by `c` whenever it is shorter than the input |
| `Strings.BeforeFirstOfLine` | frontend/src/components/ChatInterface.tsx:140 | a line without the separator, followed by the separator, is cut back to exactly that line |
| `Strings.AfterLastOfLine` | backend/agents.py:89 | a final line without the separator is read back exactly |
| `ChatInterface.UserMessage` | frontend/src/components/ChatInterface.tsx:32 | the user message is the buffer as typed, with the user role and no sentiment or safety; `AcceptedSubmit` proves a submit appends exactly this message |
| `ChatInterface.AgentReply` | frontend/src/components/ChatInterface.tsx:39-51 | the reply copies the response's text, sentiment and safety on success, and is the fixed fallback text with neither on failure; `SettleAppendsOneReply` proves a settle appends exactly this message |
| `ChatInterface.Accepts` | frontend/src/components/ChatInterface.tsx:30 | the guard passes when some character of the buffer is not whitespace and no request is in flight; `SubmitDisabled` and `ChatSession.Submit` prove it is the source's `trim` test |
| `ChatInterface.Request` | frontend/src/components/ChatInterface.tsx:38 | the text sent is the buffer before clearing, and only when the guard passes; `AcceptedSubmit`, `RejectedSubmitIsNoOp` and `ChatSession.Submit` prove it |
| `ChatInterface.Edited` | frontend/src/components/ChatInterface.tsx:169 | typing replaces the buffer and nothing else; `ChatSession.SetInput` and `EditedKeepsConsistent` prove it |
| `ChatInterface.Submitted` | frontend/src/components/ChatInterface.tsx:30-35 | the old transcript is a prefix of the new one, which is longer by one exactly when a request is sent |
| `ChatInterface.Settled` | frontend/src/components/ChatInterface.tsx:39-54 | the old transcript is a prefix, one agent message is added, the flag is cleared and the buffer kept |
| `ChatInterface.SubmitDisabled` | frontend/src/components/ChatInterface.tsx:175 | the button's `trim`-based rule disables it exactly when the submit guard `Accepts` (some non-whitespace character, nothing in flight) rejects |
| `ChatInterface.InitialIsConsistent` | frontend/src/components/ChatInterface.tsx:15-17 | the mounted session is Idle with an empty transcript and satisfies the session invariant |
| `ChatInterface.RejectedSubmitIsNoOp` | frontend/src/components/ChatInterface.tsx:30 | a submit with blank input or while a request is in flight changes neither transcript, buffer nor flag, and sends nothing |
| `ChatInterface.AcceptedSubmit` | frontend/src/components/ChatInterface.tsx:32-38 | an accepted submit appends one user message with the untrimmed input, keeps the earlier messages, clears the buffer, sets the flag, and sends the buffer as it was before clearing |
| `ChatInterface.SettleAppendsOneReply` | frontend/src/components/ChatInterface.tsx:39-54 | settling appends exactly one agent message, copied from the response on success or the fixed fallback without sentiment or safety on failure, keeps the earlier messages and the buffer, and clears the flag |
| `ChatInterface.FullCycle` | frontend/src/components/ChatInterface.tsx:28-55 | submit then settle grows the transcript by exactly the user message then the agent reply; the old transcript is a prefix; the session ends Idle with an empty buffer |
| `ChatInterface.SubmittedKeepsConsistent` | frontend/src/components/ChatInterface.tsx:30-35 | a submit, accepted or not, preserves the session invariant |
| `ChatInterface.SettledKeepsConsistent` | frontend/src/components/ChatInterface.tsx:37-54 | settling the in-flight request preserves the session invariant |
| `ChatInterface.EditedKeepsConsistent` | frontend/src/components/ChatInterface.tsx:169 | typing changes only the buffer and preserves the session invariant |
| `ChatInterface.AlternatingCounts` | frontend/src/components/ChatInterface.tsx:33-51 | an alternating transcript has as many user as agent messages, plus one when its length is odd |
| `ChatInterface.RepliesMatchRequests` | frontend/src/components/ChatInterface.tsx:28-55 | in a consistent session every user message has exactly one reply, except the one whose request is in flight |
| `ChatInterface.IdleEveryUserMessageAnswered` | frontend/src/components/ChatInterface.tsx:28-55 | in Idle, every user message is immediately followed by an agent message |
| `ChatInterface.ChatSession.constructor` | frontend/src/components/ChatInterface.tsx:15-17 | the new session is the initial state and satisfies the invariant |
| `ChatInterface.ChatSession.SetInput` | frontend/src/components/ChatInterface.tsx:169 | only the buffer changes, to the typed text; the invariant is kept |
| `ChatInterface.ChatSession.Submit` | frontend/src/components/ChatInterface.tsx:28-38 | follows `Submitted`; a rejected submit changes nothing and sends nothing; an accepted one appends the user message, clears the buffer, sets the flag and returns the original input as the request text |
| `ChatInterface.ChatSession.Settle` | frontend/src/components/ChatInterface.tsx:37-54 | follows `Settled`: appends the one reply for the outcome, leaves the buffer as typed meanwhile, clears the flag, keeps the invariant |
| `ChatInterface.ShowsSafetyAlert` | frontend/src/components/ChatInterface.tsx:127 | the banner shows exactly when there is a safety text and `"TRUE"` occurs in it |
| `ChatInterface.ShowsSentimentLabel` | frontend/src/components/ChatInterface.tsx:138 | the line shows when the sentiment is present and non-empty and the banner does not; `AlertAndLabelExclusive` proves they never both show |
| `ChatInterface.AlertAndLabelExclusive` | frontend/src/components/ChatInterface.tsx:127-138 | no message ever shows both the safety banner and the sentiment line |
| `ChatInterface.SentimentLabel` | frontend/src/components/ChatInterface.tsx:140 | the label is the sentiment with its first `"Emotion: "` removed, cut before the first line break: a prefix free of line breaks, followed by a line break whenever it is shorter |
| `ChatInterface.SentimentLabelOfAnalysis` | frontend/src/components/ChatInterface.tsx:140 | for an analysis `Emotion: <e>` followed by more lines, the label is exactly `<e>` |
| `ChatInterface.SentimentLabelOfSingleLine` | frontend/src/components/ChatInterface.tsx:140 | a one-line `Emotion: <e>` is labelled exactly `<e>` |
| `ChatInterface.PlainMessagesShowNothing` | frontend/src/components/ChatInterface.tsx:138 | user messages and the fallback reply show neither the banner nor the sentiment line |
| `ChatInterface.AnxiousExchange` | frontend/src/components/ChatInterface.tsx:28-55 | a worked exchange from a fresh session: the transcript is the user message then the reply, no banner, sentiment line "anxious" |
| `ChatInterface.EscalatedReplyShowsAlertOnly` | frontend/src/components/ChatInterface.tsx:127-140 | a reply whose safety is `"ESCALATE: TRUE"` shows the banner and not the sentiment line |
| `ChatInterface.BlankInputIsDropped` | frontend/src/components/ChatInterface.tsx:30 | a whitespace-only buffer is dropped even in Idle |
| `Agents.JoinTexts` | backend/agents.py:20 | the joined text is empty exactly when every part's text is absent or empty |
| `Agents.JoinTextsAppend` | backend/agents.py:20 | joining is in order: the join of two part lists is the concatenation of their joins |
| `Agents.JoinTextsSingle` | backend/agents.py:20 | one part joins to its own text, absent text reading as empty |
| `Agents.JoinTextsSkipsEmpty` | backend/agents.py:20 | a part with absent or empty text anywhere in the list does not change the result |
| `Agents.HasParts` | backend/agents.py:40 | an event counts as having parts when its content is present and its list of parts is present and non-empty |
| `Agents.GetText` | backend/agents.py:17-21 | an absent event, absent content, or absent or empty parts give the empty string; otherwise the result is the in-order join of the parts' texts (`JoinTexts`) |
| `Agents.LastNonEmptyText` | backend/agents.py:34-44 | the final text is empty exactly when every event's text is empty |
| `Agents.LastNonEmptyTextIsLast` | backend/agents.py:34-44 | the final text is the text of the last event with non-empty text; later empty events never overwrite it |
| `Agents.FinalText` | backend/agents.py:34-44 | the loop over the event stream ends with the last non-empty event text |
| `Agents.SessionStore.constructor` | backend/agents.py:15 | the service starts with no sessions and no runs |
| `Agents.SessionStore.EnsureSession` | backend/agents.py:29-31 | afterwards the session exists and no other session was added; it is created only if it was missing; no run is recorded |
| `Agents.GetAgentResponse` | backend/agents.py:23-44 | with the session id defaulting to `"default"`, the run's session exists afterwards, exactly this one run is recorded against the service, and the result is the last non-empty text of the run's events |
| `Agents.SentimentSessionId` | backend/agents.py:83 | the sentiment session id strictly extends the base id |
| `Agents.SafetySessionId` | backend/agents.py:86 | the safety session id strictly extends the base id |
| `Agents.MainContext` | backend/agents.py:89 | the context is `User Message: ` and the input, then a line break, `Sentiment Analysis: ` and the sentiment text, then a line break, `Safety Status: ` and the safety text; its length is the three texts plus the 51 characters of fixed labels |
| `Agents.FlowCalls` | backend/agents.py:83-90 | three runs: the sentiment and safety agents on the raw input, then the main agent; their three session ids are pairwise distinct |
| `Agents.SessionIdsDistinct` | backend/agents.py:83-90 | the sentiment, safety and main sessions are pairwise distinct for every base id |
| `Agents.ContextFirstLine` | backend/agents.py:89 | when the user's message is one line, the context's first line is exactly `User Message: ` and that message |
| `Agents.ContextLastLine` | backend/agents.py:89 | when the safety verdict is one line, the context's last line is exactly `Safety Status: ` and that verdict |
| `Agents.RunWellnessFlow` | backend/agents.py:81-96 | with the session id defaulting to `"default"`, the runs recorded against the service are exactly `FlowCalls`, in order: sentiment then safety on the raw input in their derived sessions, then the main agent on the composed context in the base session; the record holds each run's final text under `response`, `sentiment` and `safety`; the three sessions exist afterwards |

## Left out

- Rendering, layout, styling, animation, icons and the empty-state copy of `ChatInterface.tsx`: no behaviour to state.
- Auto-scroll to the newest message (`scrollToBottom` and its effect): a DOM side effect.
- The network call `sendChatMessage`: `@/lib/api` is not part of this model. Its outcome is the `Outcome` argument of `Settle`, either a response or a failure.
- The error logging in the catch branch: diagnostic output only.
- React's asynchronous semantics. Awaits, batched state updates and the stale closure over `input` and `isLoading` could let two rapid submits both pass the guard. The model reads the guard against the current state and splits the handler into a `Submit` event and a `Settle` event.
- `ChatInterface.ChatSession.Settle`: requires a request to be in flight, since the settling half of the handler only runs after an accepted submit.
- The agent definitions and their prompts, the model name, the agent runner and environment loading: foreign libraries and a non-deterministic model. A run is an oracle from (agent, message, session id) to events.
- `Agents.GetAgentResponse`: the runner's output does not depend on the session's earlier history, and the events the runner appends to the session are not modelled. The session store is a set of (app, user, session id) keys plus a ghost record of the runs made against it, in order.
- `Agents.GetAgentResponse`, `Agents.RunWellnessFlow`: an agent run never fails. In `agents.py` nothing catches an exception from the runner or the model, so a failing run aborts the flow after zero, one or two runs and reaches the HTTP handler (`backend/main.py:48`) as status 500; if `sendChatMessage` rejects on a 500, the frontend then shows its fallback reply. The oracle `run` is total, so the contracts describe a flow that returns normally and always records all three runs.
- `Strings.ReplaceFirst`: the replacement is inserted as literal text. JavaScript expands `$&`, `$$`, `` $` `` and `$'` in a string replacement; the only use passes `""` (`frontend/src/components/ChatInterface.tsx:140`), where the two agree.
- Strings are sequences of Unicode scalar values. JavaScript's `trim`, `includes`, `replace` and `split` work on UTF-16 code units; the results agree except on lone surrogates, which `char` cannot represent.
- `backend/main.py` (HTTP routing, CORS, tracing setup, mapping exceptions to status 500) and `api/index.py` (deployment path setup): plumbing outside the core.
