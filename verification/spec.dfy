/**
 * The tutorial session of the step-by-step guide, as values: the
 * `tutorial` record of the store, the effect of each transition on it,
 * the stream each transition opens, and how the events of one stream fold
 * into the record. The classes in module TutorialSession are specified by
 * these functions.
 */
module TutorialSpec {
  import opened Wrappers
  import opened JsText

  /** The substring of a message fragment that marks the last step. */
  const Sentinel: string := "Tutorial complete"

  /** What a failed stream leaves in `step`. */
  const Fallback: string := "Unable to load step instructions."

  /** The `mode` query parameter of a step request. */
  datatype Mode = Generate | Stuck | InstructionHint {
    function Name(): string {
      match this
      case Generate => "generate"
      case Stuck => "stuck"
      case InstructionHint => "instructionHint"
    }
  }

  /** The two buttons of the intake form: "Start Tutorial" and "Help! I am stuck". */
  datatype Intake = StartButton | StuckButton {
    function FetchMode(): Mode {
      if StartButton? then Generate else Stuck
    }
  }

  /**
   * `store.tutorial`. An absent `stepIndex` is JavaScript's `undefined`;
   * absent identities are `null`.
   */
  datatype Record = Record(
    problem: string,
    conversationId: Option<string>,
    latestResponseId: Option<string>,
    stepIndex: Option<int>,
    maxSteps: int,
    step: string,
    stepHint: string,
    stepInstructionHint: string,
    isLastStep: bool)

  /** What one `fetchStep` call keeps in its closure: the step it asked for, its mode, its accumulator, and whether its stream is closed. */
  datatype Stream = Stream(stepNum: int, mode: Mode, content: string, closed: bool)

  /** The events an open stream delivers: an unnamed message, `responseId`, `done`, and a transport error. */
  datatype Event = Message(data: string) | ResponseId(id: string) | Done | Error

  /** JavaScript `x || ""` on a string that may be null: absent or empty gives "". */
  function OrEmpty(x: Option<string>): string {
    if x.Some? then x.value else ""
  }

  /** The fields a fetch never writes agree. */
  predicate SameBesidesStep(a: Record, b: Record) {
    a.problem == b.problem && a.conversationId == b.conversationId
    && a.latestResponseId == b.latestResponseId && a.maxSteps == b.maxSteps
    && a.stepHint == b.stepHint && a.stepInstructionHint == b.stepInstructionHint
    && a.isLastStep == b.isLastStep
  }

  /** The record fields no stream event writes. */
  predicate SameSession(a: Record, b: Record) {
    a.problem == b.problem && a.conversationId == b.conversationId && a.maxSteps == b.maxSteps
    && a.stepHint == b.stepHint && a.stepInstructionHint == b.stepInstructionHint
  }

  predicate HintsClear(r: Record) {
    r.stepHint == "" && r.stepInstructionHint == ""
  }

  const ParamKeys: seq<string> := ["step", "mode", "conversationId", "previousResponseId", "currentCode", "problem"]

  /** The query parameters of a step request, built from the record after the fetch's reset. */
  function BuildParams(stepNum: int, mode: Mode, r: Record, currentCode: Option<string>): (p: seq<(string, string)>)
    ensures |p| == |ParamKeys| && forall i :: 0 <= i < |p| ==> p[i].0 == ParamKeys[i]
    ensures p[0].1 == IntToString(stepNum) && ParseInt(p[0].1) == Some(stepNum)
    ensures p[1].1 == mode.Name()
    ensures p[2].1 == (if r.conversationId.Some? then r.conversationId.value else "")
    ensures p[3].1 == (if r.latestResponseId.Some? then r.latestResponseId.value else "")
    ensures p[4].1 == (if currentCode.Some? then currentCode.value else "")
    ensures p[5].1 == r.problem
  {
    IntToStringRoundTrip(stepNum);
    [ ("step", IntToString(stepNum)),
      ("mode", mode.Name()),
      ("conversationId", OrEmpty(r.conversationId)),
      ("previousResponseId", OrEmpty(r.latestResponseId)),
      ("currentCode", OrEmpty(currentCode)),
      ("problem", r.problem) ]
  }

  /**
   * The guard and reset of `fetchStep(stepNum, …)`: with no problem nothing
   * changes; otherwise `stepIndex` becomes the requested step and `step` is emptied.
   */
  function FetchReset(r: Record, stepNum: Option<int>): (r': Record)
    ensures r.problem == "" ==> r' == r
    ensures r.problem != "" ==> r'.stepIndex == stepNum && r'.step == ""
    ensures SameBesidesStep(r, r')
  {
    if r.problem == "" then r else r.(stepIndex := stepNum, step := "")
  }

  /**
   * The stream `fetchStep(stepNum, mode)` opens, if any: none when the guard
   * returns early, and none when the step number is absent, because
   * converting it to a string throws before the stream is created.
   */
  function Opened(r: Record, stepNum: Option<int>, mode: Mode): (s: Option<Stream>)
    ensures s.Some? <==> r.problem != "" && stepNum.Some?
    ensures s.Some? ==> s.value.stepNum == stepNum.value && s.value.mode == mode
    ensures s.Some? ==> s.value.content == "" && !s.value.closed
  {
    if r.problem != "" && stepNum.Some? then Some(Stream(stepNum.value, mode, "", false)) else None
  }

  /** The update `start`, `stuck` and `restart` share before their fetch, and that `reset` makes too. */
  function Renew(r: Record, newId: string): Record {
    r.(conversationId := Some(newId), latestResponseId := None, stepIndex := Some(1))
  }

  /** `start()` and `stuck()`: a new conversation at step 1; they differ only in the mode of the stream they open. */
  function Initiate(r: Record, newId: string): (r': Record)
    ensures r'.conversationId == Some(newId) && r'.latestResponseId == None && r'.stepIndex == Some(1)
    ensures r'.isLastStep == r.isLastStep && r'.problem == r.problem && r'.maxSteps == r.maxSteps
    ensures r'.stepHint == r.stepHint && r'.stepInstructionHint == r.stepInstructionHint
    ensures r'.step == (if r.problem == "" then r.step else "")
  {
    FetchReset(Renew(r, newId), Some(1))
  }

  /** `restart()`: as `start()`, and the session is no longer at its last step. */
  function Restart(r: Record, newId: string): (r': Record)
    ensures r'.conversationId == Some(newId) && r'.latestResponseId == None && r'.stepIndex == Some(1)
    ensures !r'.isLastStep && r'.problem == r.problem && r'.maxSteps == r.maxSteps
    ensures r'.stepHint == r.stepHint && r'.stepInstructionHint == r.stepInstructionHint
    ensures r'.step == (if r.problem == "" then r.step else "")
  {
    FetchReset(Renew(r, newId).(isLastStep := false), Some(1))
  }

  /** `reset()`: a new conversation with no problem; it opens no stream and leaves the step text alone. */
  function Reset(r: Record, newId: string): (r': Record)
    ensures r'.conversationId == Some(newId) && r'.latestResponseId == None && r'.stepIndex == Some(1)
    ensures !r'.isLastStep && r'.problem == ""
    ensures r'.maxSteps == r.maxSteps && r'.step == r.step
    ensures r'.stepHint == r.stepHint && r'.stepInstructionHint == r.stepInstructionHint
  {
    Renew(r, newId).(isLastStep := false, problem := "")
  }

  /** `stepIndex >= maxSteps`; an undefined index compares false. */
  predicate AtBound(r: Record) {
    r.stepIndex.Some? && r.stepIndex.value >= r.maxSteps
  }

  /** `(stepIndex ?? 1) + 1` */
  function NextIndex(r: Record): int {
    (if r.stepIndex.Some? then r.stepIndex.value else 1) + 1
  }

  /** `next()`: at the bound it only marks the last step; otherwise it moves one step on, clears both hints and fetches. */
  function Next(r: Record): (r': Record)
    ensures AtBound(r) ==> r' == r.(isLastStep := true)
    ensures !AtBound(r) && r.stepIndex.Some? ==> r'.stepIndex == Some(r.stepIndex.value + 1)
    ensures !AtBound(r) && r.stepIndex.None? ==> r'.stepIndex == Some(2)
    ensures !AtBound(r) ==> HintsClear(r') && r'.isLastStep == r.isLastStep
    ensures !AtBound(r) ==> r'.step == (if r.problem == "" then r.step else "")
    ensures r'.problem == r.problem && r'.conversationId == r.conversationId
    ensures r'.latestResponseId == r.latestResponseId && r'.maxSteps == r.maxSteps
  {
    if AtBound(r) then r.(isLastStep := true)
    else
      var advanced := r.(stepIndex := Some(NextIndex(r)), stepHint := "", stepInstructionHint := "");
      FetchReset(advanced, advanced.stepIndex)
  }

  /**
   * The stream `next()` opens: none at the bound; below it, one exactly when
   * there is a problem, asking for the index `next` has just stored, in
   * `generate` mode.
   */
  function NextOpened(r: Record): (s: Option<Stream>)
    ensures AtBound(r) ==> s == None
    ensures !AtBound(r) ==> (s.Some? <==> r.problem != "")
    ensures s.Some? ==> Next(r).stepIndex.Some? && s.value == Stream(Next(r).stepIndex.value, Generate, "", false)
  {
    if AtBound(r) then None else Opened(r, Some(NextIndex(r)), Generate)
  }

  /** `getHint()` and `getInstructionHint()`: refetch the current index, in mode `stuck` or `instructionHint`. */
  function Refetch(r: Record): (r': Record)
    ensures SameBesidesStep(r, r') && r'.stepIndex == r.stepIndex
    ensures r'.step == (if r.problem == "" then r.step else "")
  {
    FetchReset(r, r.stepIndex)
  }

  /** The intake buttons: the draft becomes the problem, and only a draft with a non-whitespace character starts the session. */
  function Submit(r: Record, input: string, newId: string): (r': Record)
    ensures r'.problem == input && r'.maxSteps == r.maxSteps && r'.isLastStep == r.isLastStep
    ensures Trim(input) == "" ==> r' == r.(problem := input)
    ensures Trim(input) != "" ==> r' == Initiate(r.(problem := input), newId)
  {
    var r1 := r.(problem := input);
    if Trim(input) == "" then r1 else Initiate(r1, newId)
  }

  /** The stream an intake button opens. */
  function SubmitOpened(input: string, button: Intake): Option<Stream> {
    if Trim(input) == "" then None else Some(Stream(1, button.FetchMode(), "", false))
  }

  /** Submitting opens a stream exactly when the draft holds a character other than whitespace. */
  lemma SubmitOpensUnlessBlank(input: string, button: Intake)
    ensures SubmitOpened(input, button).Some? <==> exists i :: 0 <= i < |input| && !IsJsSpace(input[i])
    ensures SubmitOpened(input, button).Some? ==> SubmitOpened(input, button) == Some(Stream(1, button.FetchMode(), "", false))
  {
    TrimEmptyIffBlank(input);
  }

  /**
   * The handlers of one open stream (`onmessage`, the `responseId` and
   * `done` listeners, `onerror`). A message extends the stream's own
   * accumulator and writes it into `step` unconditionally: nothing checks
   * whether a newer fetch has started since.
   */
  function Handle(r: Record, s: Stream, e: Event): (res: (Record, Stream))
    requires !s.closed
    ensures SameSession(r, res.0)
    ensures r.isLastStep ==> res.0.isLastStep
    ensures res.1.stepNum == s.stepNum && res.1.mode == s.mode
  {
    match e
    case Message(d) =>
      var content := s.content + d;
      (r.(isLastStep := r.isLastStep || Includes(d, Sentinel), stepIndex := Some(s.stepNum), step := content),
       s.(content := content))
    case ResponseId(id) => (r.(latestResponseId := Some(id)), s)
    case Done => (r, s.(closed := true))
    case Error => (r.(stepIndex := Some(s.stepNum), step := Fallback), s.(closed := true))
  }

  /** Delivers the events one stream receives, in order; a closed stream receives nothing more. */
  function Feed(r: Record, s: Stream, evs: seq<Event>): (Record, Stream)
    decreases |evs|
  {
    if evs == [] || s.closed then (r, s)
    else
      var (r1, s1) := Handle(r, s, evs[0]);
      Feed(r1, s1, evs[1..])
  }

  /** The message fragments, concatenated. */
  function Fragments(evs: seq<Event>): string
    decreases |evs|
  {
    if evs == [] then "" else (if evs[0].Message? then evs[0].data else "") + Fragments(evs[1..])
  }

  /** The last `responseId` payload, or `prior` when there is none. */
  function LatestId(evs: seq<Event>, prior: Option<string>): Option<string>
    decreases |evs|
  {
    if evs == [] then prior else LatestId(evs[1..], if evs[0].ResponseId? then Some(evs[0].id) else prior)
  }

  /** Only messages and response identities: no `done`, no error. */
  predicate Streaming(evs: seq<Event>) {
    forall i :: 0 <= i < |evs| ==> evs[i].Message? || evs[i].ResponseId?
  }

  predicate HasMessage(evs: seq<Event>) {
    exists i :: 0 <= i < |evs| && evs[i].Message?
  }

  lemma {:induction false} FragmentsWithoutMessages(evs: seq<Event>)
    requires !HasMessage(evs)
    ensures Fragments(evs) == ""
    decreases |evs|
  {
    if evs != [] {
      assert !evs[0].Message?;
      FragmentsWithoutMessages(evs[1..]);
    }
  }

  /** Some single fragment contains the sentinel. */
  predicate SignalsEnd(evs: seq<Event>) {
    exists i :: 0 <= i < |evs| && evs[i].Message? && Includes(evs[i].data, Sentinel)
  }

  /**
   * A stream that receives fragments f1..fk and response identities, with no
   * error: its accumulator grows by f1 + ... + fk, and once a fragment has
   * arrived `step` is that accumulator and `stepIndex` the stream's step;
   * `latestResponseId` is the last identity received; `isLastStep` is set
   * exactly when some single fragment holds the sentinel; the rest of the
   * session is untouched.
   */
  lemma {:induction false} FeedStreaming(r: Record, s: Stream, evs: seq<Event>)
    requires !s.closed && Streaming(evs)
    ensures var (r', s') := Feed(r, s, evs);
      && !s'.closed && s'.stepNum == s.stepNum && s'.mode == s.mode
      && s'.content == s.content + Fragments(evs)
      && (HasMessage(evs) ==> r'.step == s'.content && r'.stepIndex == Some(s.stepNum))
      && (!HasMessage(evs) ==> r'.step == r.step && r'.stepIndex == r.stepIndex)
      && r'.latestResponseId == LatestId(evs, r.latestResponseId)
      && r'.isLastStep == (r.isLastStep || SignalsEnd(evs))
      && SameSession(r, r')
    decreases |evs|
  {
    if evs != [] {
      var (r1, s1) := Handle(r, s, evs[0]);
      var rest := evs[1..];
      StreamingCons(evs);
      assert Feed(r, s, evs) == Feed(r1, s1, rest);
      assert Fragments(evs) == (if evs[0].Message? then evs[0].data else "") + Fragments(rest);
      FeedStreaming(r1, s1, rest);
      if !HasMessage(rest) {
        FragmentsWithoutMessages(rest);
      }
      if evs[0].Message? {
        assert s1.content == s.content + evs[0].data && r1.step == s1.content;
      } else {
        assert s1 == s && r1 == r.(latestResponseId := Some(evs[0].id));
      }
    }
  }

  /** How the predicates over an event sequence split into its first event and the rest. */
  lemma StreamingCons(evs: seq<Event>)
    requires evs != []
    ensures Streaming(evs) ==> Streaming(evs[1..])
    ensures HasMessage(evs) <==> evs[0].Message? || HasMessage(evs[1..])
    ensures SignalsEnd(evs) <==> (evs[0].Message? && Includes(evs[0].data, Sentinel)) || SignalsEnd(evs[1..])
  {
    var rest := evs[1..];
    assert forall i :: 0 <= i < |rest| ==> rest[i] == evs[i + 1];
    if HasMessage(evs) && !evs[0].Message? {
      var i :| 0 <= i < |evs| && evs[i].Message?;
      assert rest[i - 1] == evs[i];
    }
    if SignalsEnd(evs) && !(evs[0].Message? && Includes(evs[0].data, Sentinel)) {
      var i :| 0 <= i < |evs| && evs[i].Message? && Includes(evs[i].data, Sentinel);
      assert rest[i - 1] == evs[i];
    }
  }

  /**
   * A closed stream changes nothing, whatever arrives. This holds by
   * construction: `Feed` delivers nothing to a closed stream, as an
   * `EventSource` dispatches no events after `close()`.
   */
  lemma {:induction false} FeedClosed(r: Record, s: Stream, evs: seq<Event>)
    requires s.closed
    ensures Feed(r, s, evs) == (r, s)
  {
  }

  /** Feeding two batches is feeding their concatenation. */
  lemma {:induction false} FeedAppend(r: Record, s: Stream, a: seq<Event>, b: seq<Event>)
    ensures Feed(r, s, a + b) == (var (r1, s1) := Feed(r, s, a); Feed(r1, s1, b))
    decreases |a|
  {
    if a == [] {
      assert a + b == b;
    } else if !s.closed {
      var (r1, s1) := Handle(r, s, a[0]);
      assert (a + b)[0] == a[0] && (a + b)[1..] == a[1..] + b;
      FeedAppend(r1, s1, a[1..], b);
    }
  }

  /** An error closes the stream and replaces whatever was accumulated with the fallback text, at the stream's step; nothing that arrives later has any effect. */
  lemma ErrorEndsStream(r: Record, s: Stream, later: seq<Event>)
    requires !s.closed
    ensures var (r', s') := Feed(r, s, [Error] + later);
      && s'.closed && r'.step == Fallback && r'.stepIndex == Some(s.stepNum)
      && SameBesidesStep(r, r')
  {
    var (r1, s1) := Handle(r, s, Error);
    assert ([Error] + later)[1..] == later;
    FeedClosed(r1, s1, later);
  }

  /** `done` closes the stream and changes nothing else; nothing that arrives later has any effect. */
  lemma DoneEndsStream(r: Record, s: Stream, later: seq<Event>)
    requires !s.closed
    ensures Feed(r, s, [Done] + later) == (r, s.(closed := true))
  {
    assert ([Done] + later)[1..] == later;
    FeedClosed(r, s.(closed := true), later);
  }

  /** A stream freshly opened after its fetch's reset: fragments f1..fk then `done` leave exactly f1 + ... + fk in `step`. */
  lemma FreshStreamThenDone(r: Record, s: Stream, evs: seq<Event>, later: seq<Event>)
    requires !s.closed && s.content == "" && Streaming(evs)
    requires r.step == "" && r.stepIndex == Some(s.stepNum)
    ensures var (r', s') := Feed(r, s, evs + [Done] + later);
      && s'.closed && r'.step == Fragments(evs) && r'.stepIndex == Some(s.stepNum)
      && r'.isLastStep == (r.isLastStep || SignalsEnd(evs)) && SameSession(r, r')
  {
    FeedStreaming(r, s, evs);
    if !HasMessage(evs) {
      FragmentsWithoutMessages(evs);
    }
    var (r1, s1) := Feed(r, s, evs);
    assert evs + [Done] + later == evs + ([Done] + later);
    FeedAppend(r, s, evs, [Done] + later);
    DoneEndsStream(r1, s1, later);
  }

  /** A fragment that holds the sentinel also puts it into the accumulated text. */
  lemma {:induction false} SignalInFragments(evs: seq<Event>, i: int)
    requires 0 <= i < |evs| && evs[i].Message? && Includes(evs[i].data, Sentinel)
    ensures Includes(Fragments(evs), Sentinel)
    decreases |evs|
  {
    var head := if evs[0].Message? then evs[0].data else "";
    assert Fragments(evs) == head + Fragments(evs[1..]);
    if i == 0 {
      IncludesConcat(head, Fragments(evs[1..]), Sentinel);
    } else {
      SignalInFragments(evs[1..], i - 1);
      IncludesConcat(head, Fragments(evs[1..]), Sentinel);
    }
  }

  /** The per-fragment check is sound: when a stream sets `isLastStep`, its accumulated text holds the sentinel. */
  lemma LastStepOnlyWithSentinel(r: Record, s: Stream, evs: seq<Event>)
    requires !s.closed && Streaming(evs) && !r.isLastStep
    ensures var (r', s') := Feed(r, s, evs);
      r'.isLastStep ==> Includes(s'.content, Sentinel)
  {
    FeedStreaming(r, s, evs);
    if SignalsEnd(evs) {
      var i :| 0 <= i < |evs| && evs[i].Message? && Includes(evs[i].data, Sentinel);
      SignalInFragments(evs, i);
      IncludesConcat(s.content, Fragments(evs), Sentinel);
    }
  }

  /** ... but it is not complete: a sentinel split across two fragments reaches `step` and does not set `isLastStep`. */
  lemma SplitSentinelMissed(r: Record, s: Stream)
    requires !s.closed && !r.isLastStep
    ensures var (r', s') := Feed(r, s, [Message("Tutorial "), Message("complete")]);
      !r'.isLastStep && Includes(r'.step, Sentinel)
  {
    var evs := [Message("Tutorial "), Message("complete")];
    FeedStreaming(r, s, evs);
    assert !SignalsEnd(evs) by {
      assert !Includes(evs[0].data, Sentinel) && !Includes(evs[1].data, Sentinel);
    }
    assert HasMessage(evs) by { assert evs[0].Message?; }
    assert Fragments(evs) == Sentinel;
    assert Includes(Sentinel, Sentinel);
    IncludesConcat(s.content, Sentinel, Sentinel);
  }
}
