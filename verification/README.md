# Step-by-step tutorial session, modelled in Dafny

The guide works through a programming problem one step at a time. The
user types a problem and presses "Start Tutorial" or "Help! I am stuck".
Each step is then requested from a generation service and streamed back
as text fragments. The user can move to the next step, ask for a hint,
ask for help with the step's instructions, restart the tutorial, or drop
the problem.

All of this state lives in one shared record, `store.tutorial`. It holds
the problem, the conversation identity, the last response identity, the
step index and bound, the step text, two hint texts and the last-step
flag. `fetchStep` guards on the problem, resets the step and builds the
six query parameters. It then opens a stream. The stream's `message`,
`responseId` and error handlers write into that same record from a
closure that keeps its own accumulator; its `done` handler only closes
the stream.

The project has five modules:

- `Wrappers` (text.dfy) declares the `Option` type, which stands for a
  JavaScript `null`/`undefined` next to a present value.
- `JsText` (text.dfy) covers the JavaScript string operations the guide
  uses: `trim` with the ECMAScript whitespace set, `includes`, and
  integer `toString`. Each comes with a reference definition or an
  inverse, and a lemma connecting the two.
- `TutorialSpec` (spec.dfy) holds the record as a value. It gives each
  transition's effect as a function and says which stream each
  transition opens. `Handle` applies one stream event and `Feed` applies
  a sequence of them. The lemmas cover accumulation, errors, `done` and
  the sentinel.
- `TutorialSession` (session.dfy) has the imperative model. `Tutorial` is
  the store record as an object with those nine fields. `Fetch` is one
  opened stream, with `stepNum`, `mode`, the query, its `content`
  accumulator and `closed`; its handler methods assign the shared record.
  `Guide` is the component, with the `problemInput` draft and one method
  per transition. The postcondition of each transition and handler method
  equates the new state with the `TutorialSpec` function of the old state.
- `TutorialRuns` (runs.dfy) models whole runs: user actions plus events
  arriving on any open stream, in any order. Its lemmas cover the
  invariants of a session and a few worked scenarios.

Behaviour of the code worth knowing:

- **Stale chunks are not discarded.** Each stream writes `step` and
  `stepIndex` whenever it receives a fragment, even after a newer fetch
  has started (`LateChunkOverwritesNewerStep`).
- **Hints do not go to the hint fields.** `getHint` and
  `getInstructionHint` stream into `step`. No path writes non-empty text
  into `stepHint` or `stepInstructionHint` (`HintsNeverFilled`,
  `HintLandsInStep`).
- **The sentinel is checked per fragment.** Each fragment is checked for
  the sentinel on its own, so a sentinel split across two fragments is
  missed (`SplitSentinelMissed`).
- **`stuck` clears the response identity.** It sets `latestResponseId`
  to null, just as `start` does.
- **Six query parameters.** Each request carries `step`, `mode`,
  `conversationId`, `previousResponseId`, `currentCode` and `problem`.
- **A blank problem passes the fetch guard.** `fetchStep` only tests
  that the problem is non-empty. A whitespace-only draft is stored as the
  problem without starting a conversation. So, while no conversation id
  is stored yet, a later `next` or hint fetch sends an empty one
  (`BlankProblemFetchesWithoutId`); after a `reset` it sends the id
  `reset` installed, which no `start` has used
  (`BlankProblemAfterResetKeepsId`).
  What does hold in every run is that a problem that is non-blank after
  `trim` comes with a conversation id (`IdentityWithNonBlankProblem`).
- **Intake uses `trim`.** The intake buttons start a session only when
  the draft is non-blank after `trim`. The draft is stored as the
  problem either way.

Absent values are modelled as follows:

- `conversationId` and `latestResponseId` are `Option<string>` (`null` is
  `None`).
- `stepIndex` is `Option<int>`, where `None` stands for JavaScript's
  `undefined`. `undefined >= maxSteps` is false, so `next` on an absent
  index always advances, to 2.
- `getHint` with an absent index still passes the guard and resets the
  record. `stepNum.toString()` then throws, so no stream opens
  (`TutorialSpec.Opened`).

The new conversation identity (from `crypto.randomUUID`) and the open
file's content (`store.activeFile.content`) are parameters.

## Model

| member | source | states |
|---|---|---|
| `JsText.TrimEmptyIffBlank` | src/components/Tutor.jsx:202 | `trim()` yields the empty (falsy) string exactly when every character is ECMAScript whitespace or a line terminator |
| `JsText.TrimStart` | src/components/Tutor.jsx:213 | the leading cut of `trim` is a whitespace prefix, and what remains is a suffix starting with a non-space |
| `JsText.TrimEnd` | src/components/Tutor.jsx:213 | the trailing cut of `trim` is a whitespace suffix, and what remains is a prefix ending with a non-space |
| `JsText.IncludesIff` | src/components/Tutor.jsx:43 | `includes` holds exactly when the pattern occurs at some index of the string |
| `JsText.IncludesConcat` | src/components/Tutor.jsx:39 | an occurrence inside a fragment or inside the earlier text is an occurrence inside the accumulated text |
| `JsText.NatToDecimal` | src/components/Tutor.jsx:26 | the rendering of a step number is one or more decimal digits, with no leading zero except for 0 |
| `JsText.IntToStringRoundTrip` | src/components/Tutor.jsx:26 | the `step` query value reads back as exactly the requested step number |
| `TutorialSpec.BuildParams` | src/components/Tutor.jsx:25-32 | exactly the six keys in order; `step` is the decimal rendering of the step number, with no leading zero, and reads back as the step number, `mode` is the mode's name; `conversationId`, `previousResponseId` and `currentCode` are the stored value, or "" when absent; `problem` is the problem |
| `TutorialSpec.FetchReset` | src/components/Tutor.jsx:14-23 | with an empty problem nothing changes; otherwise `stepIndex` becomes the requested step and `step` becomes ""; every other field is unchanged |
| `TutorialSpec.Opened` | src/components/Tutor.jsx:13-36 | a stream opens exactly when the problem is non-empty and the step number is present; it carries that step number and mode, with an empty accumulator, and starts open |
| `TutorialSpec.Initiate` | src/components/Tutor.jsx:108-136 | `start`/`stuck` install the given conversation identity, clear the response identity and set step 1; `isLastStep`, the problem, the bound and both hints are unchanged; `step` is reset when there is a problem |
| `TutorialSpec.Restart` | src/components/Tutor.jsx:92-106 | as `start`, and `isLastStep` becomes false |
| `TutorialSpec.Reset` | src/components/Tutor.jsx:138-150 | new identity, no response identity, step 1, not last step, empty problem; the step text and hints are untouched |
| `TutorialSpec.Next` | src/components/Tutor.jsx:76-90 | at `stepIndex >= maxSteps` only `isLastStep` becomes true; otherwise the index rises by one (an absent index gives 2), both hints are cleared, `isLastStep` and the identities are kept, and `step` is reset when there is a problem |
| `TutorialSpec.NextOpened` | src/components/Tutor.jsx:77-89 | `next` opens no stream at the bound; below it, a stream opens exactly when there is a problem, and it is a fresh `generate` stream for the index `Next` has just stored (line 89 reads it back) |
| `TutorialSpec.Refetch` | src/components/Tutor.jsx:152-158 | `getHint`/`getInstructionHint` keep the step index, the identities, the hints and `isLastStep`, and reset only `step` |
| `TutorialSpec.Submit` | src/components/Tutor.jsx:200-216 | the draft always becomes the problem; a blank draft changes nothing else, and a non-blank one starts the session as `start`/`stuck` |
| `TutorialSpec.SubmitOpensUnlessBlank` | src/components/Tutor.jsx:200-216 | an intake button opens a stream exactly when the draft has a character that is not whitespace; that stream is a fresh step-1 stream in the button's mode |
| `TutorialSpec.Handle` | src/components/Tutor.jsx:38-73 | no stream event changes the problem, the conversation identity, the bound or the hints; none clears `isLastStep`; the stream keeps its step number and mode |
| `TutorialSpec.FeedStreaming` | src/components/Tutor.jsx:36-57 | after fragments f1..fk and response identities with no error, the accumulator has grown by f1+...+fk; once a fragment has arrived, `step` is the accumulator and `stepIndex` is the stream's step; `latestResponseId` is the last identity received; `isLastStep` is set exactly when a single fragment holds the sentinel |
| `TutorialSpec.FeedClosed` | src/components/Tutor.jsx:59-61 | by construction: the model delivers nothing to a closed stream, as an `EventSource` dispatches nothing after `close()`, so whatever arrives changes nothing |
| `TutorialSpec.FeedAppend` | src/components/Tutor.jsx:38-73 | delivering two batches of events one after the other is the same as delivering their concatenation |
| `TutorialSpec.ErrorEndsStream` | src/components/Tutor.jsx:63-73 | an error closes the stream and sets `step` to exactly the fallback text, dropping partial content; `stepIndex` becomes the stream's step; later events have no effect |
| `TutorialSpec.DoneEndsStream` | src/components/Tutor.jsx:59-61 | `done` closes the stream, leaves the record as it was, and nothing later has an effect |
| `TutorialSpec.FreshStreamThenDone` | src/components/Tutor.jsx:36-61 | a freshly reset fetch that receives fragments then `done` ends with `step` equal to the concatenated fragments, at the stream's step, the stream closed, the last-step flag set only by a fragment holding the sentinel, and the session identity untouched |
| `TutorialSpec.LastStepOnlyWithSentinel` | src/components/Tutor.jsx:43-52 | a stream sets `isLastStep` only if its accumulated text contains the sentinel |
| `TutorialSpec.SplitSentinelMissed` | src/components/Tutor.jsx:43-45 | fragments "Tutorial " then "complete" put the sentinel into `step` and leave `isLastStep` false |
| `TutorialSession.Fetch.OnMessage` | src/components/Tutor.jsx:38-53 | the accumulator grows by the fragment and becomes `step`; `stepIndex` becomes the stream's step; `isLastStep` becomes true if the fragment holds the sentinel and is never cleared |
| `TutorialSession.Fetch.OnResponseId` | src/components/Tutor.jsx:55-57 | only `latestResponseId` changes, to the payload |
| `TutorialSession.Fetch.OnDone` | src/components/Tutor.jsx:59-61 | the stream is closed and the record is unchanged |
| `TutorialSession.Fetch.OnError` | src/components/Tutor.jsx:63-73 | the stream is closed; `step` is the fallback text and `stepIndex` the stream's step |
| `TutorialSession.Guide.OnInput` | src/components/Tutor.jsx:195 | the draft becomes the typed text |
| `TutorialSession.Guide.FetchStep` | src/components/Tutor.jsx:13-36 | the record becomes `FetchReset` of the old one; a fresh stream is returned exactly when `Opened` gives one, with query `BuildParams` of the reset record |
| `TutorialSession.Guide.Next` | src/components/Tutor.jsx:76-90 | the record becomes `Next` of the old one, and the stream returned is the one `NextOpened` describes |
| `TutorialSession.Guide.Restart` | src/components/Tutor.jsx:92-106 | the record becomes `Restart` of the old one; a `generate` stream for step 1 is opened if there is a problem |
| `TutorialSession.Guide.Start` | src/components/Tutor.jsx:108-121 | the record becomes `Initiate` of the old one; a `generate` stream for step 1 is opened if there is a problem |
| `TutorialSession.Guide.Stuck` | src/components/Tutor.jsx:123-136 | the record becomes `Initiate` of the old one; a `stuck` stream for step 1 is opened if there is a problem |
| `TutorialSession.Guide.Reset` | src/components/Tutor.jsx:138-150 | the record becomes `Reset` of the old one and the draft is emptied; nothing is fetched |
| `TutorialSession.Guide.GetHint` | src/components/Tutor.jsx:152-154 | the record becomes `Refetch` of the old one; a `stuck` stream for the current index is opened under the guard |
| `TutorialSession.Guide.GetInstructionHint` | src/components/Tutor.jsx:156-158 | the record becomes `Refetch` of the old one; an `instructionHint` stream for the current index is opened under the guard |
| `TutorialSession.Guide.Submit` | src/components/Tutor.jsx:200-216 | the record becomes `Submit` of the old one with the draft; a stream opens exactly when the draft is not blank |
| `TutorialRuns.IdentityWithNonBlankProblem` | src/components/Tutor.jsx:108-136 | over any run, a problem that is non-blank after `trim` always comes with a conversation id, since only a non-blank submission (lines 200-216) stores one and it runs `start`/`stuck` |
| `TutorialRuns.BlankProblemFetchesWithoutId` | src/components/Tutor.jsx:14 | a whitespace-only draft is stored as the problem without an identity, passes the non-empty guard, and `next` then opens a stream whose `conversationId` parameter is empty |
| `TutorialRuns.BlankProblemAfterResetKeepsId` | src/components/Tutor.jsx:141-147 | after `reset` installs an id, a blank submission keeps it, and `next` sends that id rather than an empty one |
| `TutorialRuns.HintsNeverFilled` | src/components/Tutor.jsx:83-87 | starting from empty hints, no sequence of actions and stream events makes `stepHint` or `stepInstructionHint` non-empty |
| `TutorialRuns.LastStepSticks` | src/components/Tutor.jsx:76-79 | once `isLastStep` is true, it stays true through any run without `restart` or `reset` |
| `TutorialRuns.IdentityStable` | src/components/Tutor.jsx:92-150 | without an intake submission, `restart` or `reset`, the conversation identity and the bound never change |
| `TutorialRuns.RenewalChangesIdentity` | src/components/Tutor.jsx:138-148 | `restart`, `reset` and a non-blank submission install the identity they are given, so a fresh identity differs from the previous one |
| `TutorialRuns.StreamsKeepTheirTags` | src/components/Tutor.jsx:34-36 | every opened stream stays in the world and keeps the step number and mode it was opened with |
| `TutorialRuns.ClosedStreamInert` | src/components/Tutor.jsx:59-64 | a closed stream never changes again |
| `TutorialRuns.NextAtBound` | src/components/Tutor.jsx:76-90 | at the bound, `next` only sets `isLastStep` and opens nothing; below it, with a problem, it opens one `generate` stream for the next index |
| `TutorialRuns.StartScenario` | src/components/Tutor.jsx:200-205 | typing a problem and pressing Start, then receiving "Step ", "1: create ", "a pointer." and `done`, leaves "Step 1: create a pointer." at step 1, not last, with a closed stream |
| `TutorialRuns.LateChunkOverwritesNewerStep` | src/components/Tutor.jsx:46-52 | a chunk of the step-1 stream that arrives after `next` opened step 2 overwrites `step` and moves `stepIndex` back to 1 |
| `TutorialRuns.HintLandsInStep` | src/components/Tutor.jsx:152-154 | a hint's streamed text replaces `step`; `stepHint` stays empty; the index and identity do not move |

## Left out

- Rendering and the `Show` conditions are not modelled. This includes the Next button being disabled while `isLastStep` holds; the model lets `next` be called at any time.
- The tier lookup in `onMount` and the build-time feature flag are not modelled. They only decide whether the guide is shown at all.
- The `EventSource` transport is represented by method calls on a `Fetch` object and by `Arrive` actions. URL building, the percent-encoding done by `URLSearchParams` and `console.log` are left out.
- A closed stream receives nothing more. This is an `EventSource` guarantee, so the handler methods require an open stream.
- `crypto.randomUUID` is a parameter. Identities are distinct only where a lemma assumes it.
- The open file's content is a parameter. The store's other fields and its initial values live in `src/store/store.js`, which is not part of this model; the `Tutorial` constructor takes any initial record.
- The "Learn More" plus-dialog event is not modelled.
- Timing is represented only as explicit orderings of actions and events. The code gives no ordering guarantee between overlapping streams.
- A rejected `fetchStep` promise (an absent step number) is represented only as "no stream opens". The unhandled rejection itself is not.
- `IntToString` gives the decimal form of an integer. It does not cover JavaScript's exponent form at magnitudes of 10^21 and above, or non-integer step numbers.
- `stepIndex` is absent only as JavaScript `undefined` (`None`). A `null` index, which `src/store/store.js` could supply initially, is not modelled: `null >= maxSteps` compares `0 >= maxSteps` at src/components/Tutor.jsx:77, so `next` would stop at the bound when `maxSteps <= 0`, whereas `None` never reaches the bound.
- `maxSteps` is always a number. The guide never writes it, and a bound that `src/store/store.js` left `undefined` (so `next` would never stop, since `x >= undefined` is false) or `null` (so `next` would stop at `x >= 0`) is not modelled.
- JavaScript strings are UTF-16; the model's strings are sequences of Unicode scalar values.
