/**
 * The step-by-step guide as it runs: `store.tutorial` is an object whose
 * fields the guide's functions and the stream handlers assign, each opened
 * stream is an object holding its closure state, and the guide component
 * itself holds the intake draft. Every method is specified by the value
 * functions of module TutorialSpec.
 */
module TutorialSession {
  import opened Wrappers
  import opened JsText
  import opened TutorialSpec

  /** `store.tutorial`: the one shared record every transition and every stream handler writes. */
  class Tutorial {
    var problem: string
    var conversationId: Option<string>
    var latestResponseId: Option<string>
    var stepIndex: Option<int>
    var maxSteps: int
    var step: string
    var stepHint: string
    var stepInstructionHint: string
    var isLastStep: bool

    function Value(): Record
      reads this
    {
      Record(problem, conversationId, latestResponseId, stepIndex, maxSteps,
             step, stepHint, stepInstructionHint, isLastStep)
    }

    /** The store's initial record is configured outside the guide; it is taken as given. */
    constructor (init: Record)
      ensures Value() == init
    {
      problem := init.problem;
      conversationId := init.conversationId;
      latestResponseId := init.latestResponseId;
      stepIndex := init.stepIndex;
      maxSteps := init.maxSteps;
      step := init.step;
      stepHint := init.stepHint;
      stepInstructionHint := init.stepInstructionHint;
      isLastStep := init.isLastStep;
    }
  }

  /**
   * One stream opened by `fetchStep`: the step number and mode it was called
   * with, the query it sent, its own accumulator `content`, and whether the
   * stream has been closed. Its handlers write the shared record directly.
   */
  class Fetch {
    const tutorial: Tutorial
    const stepNum: int
    const mode: Mode
    const params: seq<(string, string)>
    var content: string
    var closed: bool

    function State(): Stream
      reads this
    {
      Stream(stepNum, mode, content, closed)
    }

    constructor (tutorial: Tutorial, stepNum: int, mode: Mode, params: seq<(string, string)>)
      ensures this.tutorial == tutorial && this.params == params
      ensures State() == Stream(stepNum, mode, "", false)
    {
      this.tutorial := tutorial;
      this.stepNum := stepNum;
      this.mode := mode;
      this.params := params;
      content := "";
      closed := false;
    }

    /** `onmessage`: extend this stream's accumulator, test the fragment alone for the sentinel, and publish the accumulator as the step. */
    method OnMessage(data: string)
      requires !closed
      modifies this, tutorial
      ensures (tutorial.Value(), State()) == Handle(old(tutorial.Value()), old(State()), Message(data))
      ensures content == old(content) + data && tutorial.step == content
      ensures tutorial.isLastStep == (old(tutorial.isLastStep) || Includes(data, Sentinel))
    {
      content := content + data;
      if Includes(data, Sentinel) {
        tutorial.isLastStep := true;
      }
      tutorial.stepIndex := Some(stepNum);
      tutorial.step := content;
    }

    /** The `responseId` listener: record the service's response identity. */
    method OnResponseId(id: string)
      requires !closed
      modifies tutorial
      ensures (tutorial.Value(), State()) == Handle(old(tutorial.Value()), old(State()), ResponseId(id))
      ensures tutorial.latestResponseId == Some(id)
    {
      tutorial.latestResponseId := Some(id);
    }

    /** The `done` listener: close the stream. */
    method OnDone()
      requires !closed
      modifies this
      ensures (tutorial.Value(), State()) == Handle(old(tutorial.Value()), old(State()), Done)
      ensures closed && unchanged(tutorial)
    {
      closed := true;
    }

    /** `onerror`: close the stream and replace the step with the fallback text. */
    method OnError()
      requires !closed
      modifies this, tutorial
      ensures (tutorial.Value(), State()) == Handle(old(tutorial.Value()), old(State()), Error)
      ensures closed && tutorial.step == Fallback && tutorial.stepIndex == Some(stepNum)
    {
      closed := true;
      tutorial.stepIndex := Some(stepNum);
      tutorial.step := Fallback;
    }
  }

  /** The guide component: the shared record it drives and its own intake draft `problemInput`. */
  class Guide {
    const tutorial: Tutorial
    var problemInput: string

    constructor (tutorial: Tutorial)
      ensures this.tutorial == tutorial && problemInput == ""
    {
      this.tutorial := tutorial;
      problemInput := "";
    }

    /** The intake text area's input handler. */
    method OnInput(text: string)
      modifies this
      ensures problemInput == text
    {
      problemInput := text;
    }

    /**
     * `fetchStep(stepNum, mode)`: past the guard, reset the record for the
     * requested step, build the query from the record as it now is, and open
     * a stream for it. An absent step number throws when converted, after
     * the reset and before the stream opens.
     */
    method FetchStep(stepNum: Option<int>, mode: Mode, currentCode: Option<string>) returns (f: Fetch?)
      modifies tutorial
      ensures tutorial.Value() == FetchReset(old(tutorial.Value()), stepNum)
      ensures f == null <==> Opened(old(tutorial.Value()), stepNum, mode).None?
      ensures f != null ==> fresh(f) && f.tutorial == tutorial
      ensures f != null ==> Some(f.State()) == Opened(old(tutorial.Value()), stepNum, mode)
      ensures f != null ==> f.params == BuildParams(f.stepNum, mode, tutorial.Value(), currentCode)
    {
      if tutorial.problem == "" {
        return null;
      }
      tutorial.stepIndex := stepNum;
      tutorial.step := "";
      if stepNum.None? {
        return null;
      }
      var params := BuildParams(stepNum.value, mode, tutorial.Value(), currentCode);
      f := new Fetch(tutorial, stepNum.value, mode, params);
    }

    /** `next()` */
    method Next(currentCode: Option<string>) returns (f: Fetch?)
      modifies tutorial
      ensures tutorial.Value() == TutorialSpec.Next(old(tutorial.Value()))
      ensures f == null <==> NextOpened(old(tutorial.Value())).None?
      ensures f != null ==> fresh(f) && f.tutorial == tutorial
      ensures f != null ==> Some(f.State()) == NextOpened(old(tutorial.Value()))
      ensures f != null ==> f.params == BuildParams(f.stepNum, Generate, tutorial.Value(), currentCode)
    {
      if tutorial.stepIndex.Some? && tutorial.stepIndex.value >= tutorial.maxSteps {
        tutorial.isLastStep := true;
        return null;
      }
      tutorial.stepIndex := Some((if tutorial.stepIndex.Some? then tutorial.stepIndex.value else 1) + 1);
      tutorial.stepHint := "";
      tutorial.stepInstructionHint := "";
      f := FetchStep(tutorial.stepIndex, Generate, currentCode);
    }

    /** `restart()`, with the new conversation identity passed in. */
    method Restart(newId: string, currentCode: Option<string>) returns (f: Fetch?)
      modifies tutorial
      ensures tutorial.Value() == TutorialSpec.Restart(old(tutorial.Value()), newId)
      ensures f == null <==> Opened(old(tutorial.Value()), Some(1), Generate).None?
      ensures f != null ==> fresh(f) && f.tutorial == tutorial
      ensures f != null ==> Some(f.State()) == Opened(old(tutorial.Value()), Some(1), Generate)
      ensures f != null ==> f.params == BuildParams(1, Generate, tutorial.Value(), currentCode)
    {
      tutorial.conversationId := Some(newId);
      tutorial.latestResponseId := None;
      tutorial.stepIndex := Some(1);
      tutorial.isLastStep := false;
      f := FetchStep(Some(1), Generate, currentCode);
    }

    /** `start()`, with the new conversation identity passed in. */
    method Start(newId: string, currentCode: Option<string>) returns (f: Fetch?)
      modifies tutorial
      ensures tutorial.Value() == TutorialSpec.Initiate(old(tutorial.Value()), newId)
      ensures f == null <==> Opened(old(tutorial.Value()), Some(1), Generate).None?
      ensures f != null ==> fresh(f) && f.tutorial == tutorial
      ensures f != null ==> Some(f.State()) == Opened(old(tutorial.Value()), Some(1), Generate)
      ensures f != null ==> f.params == BuildParams(1, Generate, tutorial.Value(), currentCode)
    {
      tutorial.conversationId := Some(newId);
      tutorial.latestResponseId := None;
      tutorial.stepIndex := Some(1);
      f := FetchStep(Some(1), Generate, currentCode);
    }

    /** `stuck()`: as `start()`, with the first step requested in mode `stuck`. */
    method Stuck(newId: string, currentCode: Option<string>) returns (f: Fetch?)
      modifies tutorial
      ensures tutorial.Value() == TutorialSpec.Initiate(old(tutorial.Value()), newId)
      ensures f == null <==> Opened(old(tutorial.Value()), Some(1), Mode.Stuck).None?
      ensures f != null ==> fresh(f) && f.tutorial == tutorial
      ensures f != null ==> Some(f.State()) == Opened(old(tutorial.Value()), Some(1), Mode.Stuck)
      ensures f != null ==> f.params == BuildParams(1, Mode.Stuck, tutorial.Value(), currentCode)
    {
      tutorial.conversationId := Some(newId);
      tutorial.latestResponseId := None;
      tutorial.stepIndex := Some(1);
      f := FetchStep(Some(1), Mode.Stuck, currentCode);
    }

    /** `reset()`: a new conversation, no problem, and an empty intake draft. */
    method Reset(newId: string)
      modifies this, tutorial
      ensures tutorial.Value() == TutorialSpec.Reset(old(tutorial.Value()), newId)
      ensures problemInput == ""
    {
      tutorial.conversationId := Some(newId);
      tutorial.latestResponseId := None;
      tutorial.stepIndex := Some(1);
      tutorial.isLastStep := false;
      tutorial.problem := "";
      problemInput := "";
    }

    /** `getHint()` */
    method GetHint(currentCode: Option<string>) returns (f: Fetch?)
      modifies tutorial
      ensures tutorial.Value() == Refetch(old(tutorial.Value()))
      ensures f == null <==> Opened(old(tutorial.Value()), old(tutorial.stepIndex), Mode.Stuck).None?
      ensures f != null ==> fresh(f) && f.tutorial == tutorial
      ensures f != null ==> Some(f.State()) == Opened(old(tutorial.Value()), old(tutorial.stepIndex), Mode.Stuck)
      ensures f != null ==> f.params == BuildParams(f.stepNum, Mode.Stuck, tutorial.Value(), currentCode)
    {
      f := FetchStep(tutorial.stepIndex, Mode.Stuck, currentCode);
    }

    /** `getInstructionHint()` */
    method GetInstructionHint(currentCode: Option<string>) returns (f: Fetch?)
      modifies tutorial
      ensures tutorial.Value() == Refetch(old(tutorial.Value()))
      ensures f == null <==> Opened(old(tutorial.Value()), old(tutorial.stepIndex), InstructionHint).None?
      ensures f != null ==> fresh(f) && f.tutorial == tutorial
      ensures f != null ==> Some(f.State()) == Opened(old(tutorial.Value()), old(tutorial.stepIndex), InstructionHint)
      ensures f != null ==> f.params == BuildParams(f.stepNum, InstructionHint, tutorial.Value(), currentCode)
    {
      f := FetchStep(tutorial.stepIndex, InstructionHint, currentCode);
    }

    /** The click handlers of the two intake buttons: store the draft as the problem, then start or get unstuck if it is not blank. */
    method Submit(button: Intake, newId: string, currentCode: Option<string>) returns (f: Fetch?)
      modifies tutorial
      ensures tutorial.Value() == TutorialSpec.Submit(old(tutorial.Value()), problemInput, newId)
      ensures f == null <==> SubmitOpened(problemInput, button).None?
      ensures f != null ==> fresh(f) && f.tutorial == tutorial
      ensures f != null ==> Some(f.State()) == SubmitOpened(problemInput, button)
      ensures f != null ==> f.params == BuildParams(1, button.FetchMode(), tutorial.Value(), currentCode)
    {
      ghost var r1 := old(tutorial.Value()).(problem := problemInput);
      tutorial.problem := problemInput;
      assert tutorial.Value() == r1;
      if Trim(tutorial.problem) != "" {
        assert r1.problem != "" && SubmitOpened(problemInput, button) == Opened(r1, Some(1), button.FetchMode());
        if button.StartButton? {
          f := Start(newId, currentCode);
        } else {
          f := Stuck(newId, currentCode);
        }
      } else {
        f := null;
      }
    }
  }
}
