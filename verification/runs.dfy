/**
 * Whole runs of the guide: the shared record, the intake draft and every
 * stream opened so far, driven by user actions and by events arriving on
 * any stream that is still open, in any order. Properties that hold across
 * many actions are proved here.
 */
module TutorialRuns {
  import opened Wrappers
  import opened JsText
  import S = TutorialSpec

  /** The record, the intake draft, and the streams in the order they were opened. */
  datatype World = World(rec: S.Record, draft: string, streams: seq<S.Stream>)

  datatype Action =
    | TypeDraft(text: string)
    | ClickSubmit(button: S.Intake, newId: string)
    | ClickNext
    | ClickRestart(newId: string)
    | ClickReset(newId: string)
    | ClickHint
    | ClickInstructionHint
    | Arrive(k: nat, e: S.Event)

  function Append(streams: seq<S.Stream>, added: Option<S.Stream>): seq<S.Stream> {
    if added.Some? then streams + [added.value] else streams
  }

  /** One action; an event for a stream that does not exist or is closed is not delivered. */
  function Step(w: World, a: Action): World {
    match a
    case TypeDraft(text) => w.(draft := text)
    case ClickSubmit(b, id) => World(S.Submit(w.rec, w.draft, id), w.draft, Append(w.streams, S.SubmitOpened(w.draft, b)))
    case ClickNext => World(S.Next(w.rec), w.draft, Append(w.streams, S.NextOpened(w.rec)))
    case ClickRestart(id) => World(S.Restart(w.rec, id), w.draft, Append(w.streams, S.Opened(w.rec, Some(1), S.Generate)))
    case ClickReset(id) => World(S.Reset(w.rec, id), "", w.streams)
    case ClickHint => World(S.Refetch(w.rec), w.draft, Append(w.streams, S.Opened(w.rec, w.rec.stepIndex, S.Mode.Stuck)))
    case ClickInstructionHint =>
      World(S.Refetch(w.rec), w.draft, Append(w.streams, S.Opened(w.rec, w.rec.stepIndex, S.InstructionHint)))
    case Arrive(k, e) =>
      if k < |w.streams| && !w.streams[k].closed then
        var (r, s) := S.Handle(w.rec, w.streams[k], e);
        World(r, w.draft, w.streams[k := s])
      else w
  }

  function Run(w: World, acts: seq<Action>): World
    decreases |acts|
  {
    if acts == [] then w else Run(Step(w, acts[0]), acts[1..])
  }

  /** Nothing ever writes a non-empty hint: `next` clears both, and every stream writes `step` only. */
  lemma {:induction false} HintsNeverFilled(w: World, acts: seq<Action>)
    requires S.HintsClear(w.rec)
    ensures S.HintsClear(Run(w, acts).rec)
    decreases |acts|
  {
    if acts != [] {
      var w1 := Step(w, acts[0]);
      assert S.HintsClear(w1.rec);
      HintsNeverFilled(w1, acts[1..]);
    }
  }

  /** A problem that is non-blank after `trim` always comes with a conversation identity. */
  predicate IdWhenNotBlank(r: S.Record) {
    Trim(r.problem) != "" ==> r.conversationId.Some?
  }

  /** Every action keeps `IdWhenNotBlank`: only a non-blank submission sets a non-blank problem, and it installs an identity. */
  lemma {:induction false} IdentityWithNonBlankProblem(w: World, acts: seq<Action>)
    requires IdWhenNotBlank(w.rec)
    ensures IdWhenNotBlank(Run(w, acts).rec)
    decreases |acts|
  {
    if acts != [] {
      var w1 := Step(w, acts[0]);
      IdWhenNotBlankStep(w, acts[0]);
      IdentityWithNonBlankProblem(w1, acts[1..]);
    }
  }

  /** One action keeps `IdWhenNotBlank`. */
  lemma IdWhenNotBlankStep(w: World, a: Action)
    requires IdWhenNotBlank(w.rec)
    ensures IdWhenNotBlank(Step(w, a).rec)
  {
    match a
    case ClickSubmit(b, id) =>
      var r' := S.Submit(w.rec, w.draft, id);
      assert r'.problem == w.draft;
      if Trim(w.draft) != "" {
        assert r'.conversationId == Some(id);
      }
    case ClickReset(id) =>
      assert Step(w, a).rec.conversationId == Some(id);
    case ClickRestart(id) =>
      assert Step(w, a).rec.conversationId == Some(id);
    case Arrive(k, e) =>
      if k < |w.streams| && !w.streams[k].closed {
        assert S.SameSession(w.rec, Step(w, a).rec);
      }
    case _ =>
      assert Step(w, a).rec.problem == w.rec.problem && Step(w, a).rec.conversationId == w.rec.conversationId;
  }

  /**
   * The guard tests the problem for emptiness, not for blankness: a
   * whitespace-only draft is stored as the problem without starting a
   * conversation, and `next` then fetches with an empty conversation id.
   */
  lemma BlankProblemFetchesWithoutId(r: S.Record, b: S.Intake, code: Option<string>)
    requires r.conversationId.None? && !S.AtBound(r)
    ensures var r1 := S.Submit(r, " ", "c1");
      && S.SubmitOpened(" ", b) == None
      && r1.conversationId == None
      && S.NextOpened(r1).Some?
      && S.BuildParams(S.NextOpened(r1).value.stepNum, S.Generate, S.Next(r1), code)[2].1 == ""
  {
    var r1 := S.Submit(r, " ", "c1");
    assert Trim(" ") == "" by {
      TrimEmptyIffBlank(" ");
    }
    assert r1 == r.(problem := " ");
  }

  /** After `reset`, a blank submission keeps the identity `reset` installed, and `next` sends it. */
  lemma BlankProblemAfterResetKeepsId(r: S.Record, b: S.Intake, code: Option<string>)
    requires r.maxSteps > 1
    ensures var r1 := S.Submit(S.Reset(r, "c0"), " ", "c1");
      && S.SubmitOpened(" ", b) == None
      && r1.conversationId == Some("c0")
      && S.NextOpened(r1).Some?
      && S.BuildParams(S.NextOpened(r1).value.stepNum, S.Generate, S.Next(r1), code)[2].1 == "c0"
  {
    var r0 := S.Reset(r, "c0");
    assert Trim(" ") == "" by {
      TrimEmptyIffBlank(" ");
    }
    assert S.Submit(r0, " ", "c1") == r0.(problem := " ");
  }

  predicate ClearsLastStep(a: Action) {
    a.ClickRestart? || a.ClickReset?
  }

  /** Once the last step is reached, only `restart` and `reset` leave it. */
  lemma {:induction false} LastStepSticks(w: World, acts: seq<Action>)
    requires w.rec.isLastStep
    requires forall i :: 0 <= i < |acts| ==> !ClearsLastStep(acts[i])
    ensures Run(w, acts).rec.isLastStep
    decreases |acts|
  {
    if acts != [] {
      var w1 := Step(w, acts[0]);
      assert !ClearsLastStep(acts[0]);
      assert w1.rec.isLastStep;
      assert forall i :: 0 <= i < |acts[1..]| ==> !ClearsLastStep(acts[1..][i]) by {
        forall i | 0 <= i < |acts[1..]| ensures !ClearsLastStep(acts[1..][i]) {
          assert acts[1..][i] == acts[i + 1];
        }
      }
      LastStepSticks(w1, acts[1..]);
    }
  }

  predicate Renews(a: Action) {
    a.ClickSubmit? || a.ClickRestart? || a.ClickReset?
  }

  /** The conversation identity changes only on the intake buttons, `restart` and `reset`: never mid-step, on `next`, on a hint or on a stream event. The bound never changes. */
  lemma {:induction false} IdentityStable(w: World, acts: seq<Action>)
    requires forall i :: 0 <= i < |acts| ==> !Renews(acts[i])
    ensures Run(w, acts).rec.conversationId == w.rec.conversationId
    ensures Run(w, acts).rec.maxSteps == w.rec.maxSteps
    decreases |acts|
  {
    if acts != [] {
      var w1 := Step(w, acts[0]);
      assert !Renews(acts[0]);
      assert w1.rec.conversationId == w.rec.conversationId && w1.rec.maxSteps == w.rec.maxSteps;
      assert forall i :: 0 <= i < |acts[1..]| ==> !Renews(acts[1..][i]) by {
        forall i | 0 <= i < |acts[1..]| ensures !Renews(acts[1..][i]) {
          assert acts[1..][i] == acts[i + 1];
        }
      }
      IdentityStable(w1, acts[1..]);
    }
  }

  /** `restart`, `reset` and a non-blank submission install the identity they are given, so a fresh one differs from the one before. */
  lemma RenewalChangesIdentity(w: World, a: Action, newId: string)
    requires a == ClickRestart(newId) || a == ClickReset(newId)
      || (a.ClickSubmit? && a.newId == newId && Trim(w.draft) != "")
    requires w.rec.conversationId != Some(newId)
    ensures Step(w, a).rec.conversationId == Some(newId)
    ensures Step(w, a).rec.conversationId != w.rec.conversationId
  {
  }

  /** Streams are only ever added, and each keeps the step number and mode it was opened with. */
  lemma {:induction false} StreamsKeepTheirTags(w: World, acts: seq<Action>, k: int)
    requires 0 <= k < |w.streams|
    ensures var w' := Run(w, acts);
      k < |w'.streams| && w'.streams[k].stepNum == w.streams[k].stepNum && w'.streams[k].mode == w.streams[k].mode
    decreases |acts|
  {
    if acts != [] {
      var w1 := Step(w, acts[0]);
      assert k < |w1.streams| && w1.streams[k].stepNum == w.streams[k].stepNum && w1.streams[k].mode == w.streams[k].mode;
      StreamsKeepTheirTags(w1, acts[1..], k);
    }
  }

  /** A closed stream stays closed and its accumulator stays as it was, whatever happens afterwards. */
  lemma {:induction false} ClosedStreamInert(w: World, acts: seq<Action>, k: int)
    requires 0 <= k < |w.streams| && w.streams[k].closed
    ensures var w' := Run(w, acts);
      k < |w'.streams| && w'.streams[k] == w.streams[k]
    decreases |acts|
  {
    if acts != [] {
      var w1 := Step(w, acts[0]);
      assert k < |w1.streams| && w1.streams[k] == w.streams[k];
      ClosedStreamInert(w1, acts[1..], k);
    }
  }

  /** At the bound, `next` marks the last step and opens nothing; otherwise it opens a `generate` stream for the next index exactly when there is a problem. */
  lemma NextAtBound(w: World)
    ensures S.AtBound(w.rec) ==> Step(w, ClickNext) == w.(rec := w.rec.(isLastStep := true))
    ensures !S.AtBound(w.rec) && w.rec.problem != "" ==>
      Step(w, ClickNext).streams == w.streams + [S.Stream(S.NextIndex(w.rec), S.Generate, "", false)]
  {
  }

  /**
   * Starting from the intake form: submitting "reverse a linked list" with
   * "Start Tutorial", then receiving "Step ", "1: create ", "a pointer."
   * and `done` on the stream it opens, leaves the concatenated fragments as
   * step 1, not the last step, with the stream closed.
   */
  lemma StartScenario(r: S.Record)
    requires !r.isLastStep
    ensures var r1 := S.Submit(r, "reverse a linked list", "c1");
      var first := S.SubmitOpened("reverse a linked list", S.StartButton);
      && first == Some(S.Stream(1, S.Generate, "", false))
      && var (r', s') := S.Feed(r1, first.value, [S.Message("Step "), S.Message("1: create "), S.Message("a pointer."), S.Done]);
      && r'.step == "Step 1: create a pointer." && r'.stepIndex == Some(1)
      && !r'.isLastStep && r'.conversationId == Some("c1") && s'.closed
  {
    DraftNotBlank();
    var r1 := S.Submit(r, "reverse a linked list", "c1");
    assert r1.step == "" && r1.stepIndex == Some(1) && !r1.isLastStep && r1.conversationId == Some("c1");
    ThreeFragmentsThenDone(r1);
  }

  lemma DraftNotBlank()
    ensures Trim("reverse a linked list") != ""
  {
    var draft := "reverse a linked list";
    TrimEmptyIffBlank(draft);
    assert !IsJsSpace(draft[0]);
  }

  /** The stream part of the scenario above. */
  lemma ThreeFragmentsThenDone(r: S.Record)
    requires r.step == "" && r.stepIndex == Some(1) && !r.isLastStep
    ensures var (r', s') := S.Feed(r, S.Stream(1, S.Generate, "", false), [S.Message("Step "), S.Message("1: create "), S.Message("a pointer."), S.Done]);
      && r'.step == "Step 1: create a pointer." && r'.stepIndex == Some(1)
      && !r'.isLastStep && r'.conversationId == r.conversationId && s'.closed
  {
    var s1 := S.Stream(1, S.Generate, "", false);
    var evs := ThreeFragments;
    ThreeFragmentsFacts();
    S.FreshStreamThenDone(r, s1, evs, []);
    assert evs + [S.Done] + [] == [S.Message("Step "), S.Message("1: create "), S.Message("a pointer."), S.Done];
  }

  /** The three fragments of the start scenario. */
  const ThreeFragments: seq<S.Event> := [S.Message("Step "), S.Message("1: create "), S.Message("a pointer.")]

  /** They are plain messages, none holds the sentinel, and together they read "Step 1: create a pointer.". */
  lemma ThreeFragmentsFacts()
    ensures S.Streaming(ThreeFragments) && !S.SignalsEnd(ThreeFragments)
    ensures S.Fragments(ThreeFragments) == "Step 1: create a pointer."
  {
    var evs := ThreeFragments;
    assert S.Fragments(evs) == "Step " + S.Fragments(evs[1..]);
    assert S.Fragments(evs[1..]) == "1: create " + S.Fragments(evs[2..]);
    assert S.Fragments(evs[2..]) == "a pointer." + S.Fragments(evs[3..]);
    ShortFragmentsNoSentinel(evs);
  }

  /** Fragments each shorter than the sentinel cannot signal the end. */
  lemma ShortFragmentsNoSentinel(evs: seq<S.Event>)
    requires forall i :: 0 <= i < |evs| ==> evs[i].Message? && |evs[i].data| < |S.Sentinel|
    ensures !S.SignalsEnd(evs)
  {
  }

  /**
   * Chunks are not tagged: after `restart` opens stream A for step 1 and
   * `next` opens stream B for step 2, a late chunk of A overwrites the step
   * text that B wrote and moves `stepIndex` back to 1.
   */
  lemma LateChunkOverwritesNewerStep(r: S.Record)
    requires r.problem != "" && r.maxSteps >= 2
    ensures var a := S.Opened(r, Some(1), S.Generate).value;
      var (r1, a1) := S.Handle(S.Restart(r, "c2"), a, S.Message("A1"));
      var b := S.NextOpened(r1);
      && b == Some(S.Stream(2, S.Generate, "", false))
      && var (r2, b1) := S.Handle(S.Next(r1), b.value, S.Message("B"));
      && r2.step == "B" && r2.stepIndex == Some(2)
      && var (r3, a2) := S.Handle(r2, a1, S.Message("A2"));
      && r3.step == "A1A2" && r3.stepIndex == Some(1)
  {
  }

  /** A hint's text replaces the step text; `stepHint` stays empty and the step index does not move. */
  lemma HintLandsInStep(w: World, text: string)
    requires w.rec.problem != "" && w.rec.stepIndex.Some? && S.HintsClear(w.rec)
    ensures var w' := Run(w, [ClickHint, Arrive(|w.streams|, S.Message(text))]);
      && w'.rec.step == text && w'.rec.stepHint == ""
      && w'.rec.stepIndex == w.rec.stepIndex && w'.rec.conversationId == w.rec.conversationId
  {
    var w1 := Step(w, ClickHint);
    assert w1.streams == w.streams + [S.Stream(w.rec.stepIndex.value, S.Mode.Stuck, "", false)];
    var w2 := Step(w1, Arrive(|w.streams|, S.Message(text)));
    var acts := [ClickHint, Arrive(|w.streams|, S.Message(text))];
    assert Run(w, acts) == Run(w1, acts[1..]);
    assert Run(w1, acts[1..]) == Run(w2, []);
  }
}
