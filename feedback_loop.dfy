/**
  The feedback-driven control loop of the RMJT flow.

  The crew is an oracle outside the model: its answers are supplied up front
  as a Script, and the calls the flow makes to it are recorded, in order, as
  CrewCall values. The flow's decorators become an explicit Stage enum:
  `code_gen` starts, its router emits an event label, the Listener table says
  which step handles that label, and a label nobody listens to ends the run.
*/
module FeedbackLoop {
  import opened Wrappers
  import opened FlowState
  import Gate
  import opened Resolver
  import opened PyStr

  /** The inputs given to a crew call. */
  datatype Inputs = NoInputs | FeedbackInput(feedback: string)

  /** One call to the crew: a full kickoff, or a replay of one task by its identifier. */
  datatype CrewCall = Kickoff(inputs: Inputs) | Replay(taskId: string, inputs: Inputs)

  /** The first kickoff is given a feedback of one space. */
  const FirstInputs: Inputs := FeedbackInput(" ")

  /**
    The crew's answers for one run: the kickoff's evaluation, the raw output
    of the test-case generation task after the kickoff, the lines the task
    log command prints, and the evaluations the successive Task-5 replays
    return.
  */
  datatype Script = Script(
    first: Evaluation,
    testCode: string,
    log: seq<string>,
    replies: seq<Evaluation>)

  /** How a run ends. */
  datatype Outcome =
    | Unheard(event: string)                  // a router emitted a label no step listens to
    | Shown(coverage: int, verdict: string)   // `show` ran and printed these two fields
    | ScriptExhausted                         // the gate still asked for a retry when the replies ran out

  /** The state, the crew calls made and the outcome at the end of a run. */
  datatype Trace = Trace(state: StateValue, calls: seq<CrewCall>, outcome: Outcome)

  /** Puts `calls` in front of the calls of `t`. */
  function Prepend(calls: seq<CrewCall>, t: Trace): (r: Trace)
    ensures r.state == t.state && r.outcome == t.outcome && |r.calls| == |calls| + |t.calls|
  {
    Trace(t.state, calls + t.calls, t.outcome)
  }

  /** `code_gen`: the kickoff's artifact and evaluation overwrite four fields. */
  function AfterCodeGen(s: StateValue, testCode: string, response: Evaluation): (r: StateValue)
    ensures r.taskId4 == s.taskId4 && r.taskId5 == s.taskId5
  {
    s.(testCode := testCode,
       feedback := response.feedback,
       passFail := response.passFail,
       expectedCoverage := response.expectedCoverage)
  }

  /** `task_ids`: each identifier found in the log replaces the stored one. */
  function AfterTaskIds(s: StateValue, log: seq<string>): (r: StateValue)
    ensures r.testCode == s.testCode && r.expectedCoverage == s.expectedCoverage
    ensures r.feedback == s.feedback && r.passFail == s.passFail
  {
    s.(taskId4 := LastId(log, Task4Marker).GetOr(s.taskId4),
       taskId5 := LastId(log, Task5Marker).GetOr(s.taskId5))
  }

  /** `static_testing_m2`: the Task-5 replay's evaluation overwrites three fields. */
  function AfterStaticTesting(s: StateValue, response: Evaluation): (r: StateValue)
    ensures r.testCode == s.testCode && r.taskId4 == s.taskId4 && r.taskId5 == s.taskId5
    ensures Gate.DecideState(r) == Gate.Decide(response.expectedCoverage, response.passFail)
  {
    s.(feedback := response.feedback,
       passFail := response.passFail,
       expectedCoverage := response.expectedCoverage)
  }

  /** The gate accepts an evaluation. */
  predicate Accepts(e: Evaluation) {
    Gate.Decide(e.expectedCoverage, e.passFail) == Gate.Accept
  }

  /** The steps of the flow, plus the end of a run. */
  datatype Stage =
    | CodeGen
    | Router1
    | TaskIds
    | CodeGenM2
    | StaticTestingM2
    | Router2
    | Show
    | Halted(outcome: Outcome)

  /** The listener table: the step that handles each event label. */
  function Listener(event: string): (next: Option<Stage>)
    ensures next.Some? <==> event in {Gate.ActivateFeedback, Gate.ReRun, Gate.TestCasesPassed}
    ensures next == Some(TaskIds) <==> event == Gate.ActivateFeedback
    ensures next == Some(CodeGenM2) <==> event == Gate.ReRun
    ensures next == Some(Show) <==> event == Gate.TestCasesPassed
  {
    if event == Gate.ActivateFeedback then Some(TaskIds)
    else if event == Gate.ReRun then Some(CodeGenM2)
    else if event == Gate.TestCasesPassed then Some(Show)
    else None
  }

  /** Orders the steps of one pass; a retry cycle is paid for by a reply. */
  function Rank(stage: Stage): nat {
    match stage
    case CodeGen => 8
    case Router1 => 7
    case Router2 => 6
    case TaskIds => 5
    case CodeGenM2 => 3
    case Show => 2
    case StaticTestingM2 => 1
    case Halted(_) => 0
  }

  /** The stage after an event: its listener, or the end of the run. */
  function AfterEvent(event: string): (next: Stage)
    ensures Rank(next) < Rank(Router2)
  {
    match Listener(event)
    case Some(next) => next
    case None => Halted(Unheard(event))
  }

  /** Where a run stands: the next stage, the state, the calls made so far and the replies used. */
  datatype Config = Config(stage: Stage, state: StateValue, calls: seq<CrewCall>, used: nat)

  /**
    One step of the flow: run the stage, then move to the stage that follows
    it (for a router, the listener of the label it emits). A Task-4 replay
    is only started while a reply for the Task-5 replay remains.
  */
  function Step(c: Config, sc: Script): (d: Config)
    requires c.used <= |sc.replies| && !c.stage.Halted?
    ensures d.used <= |sc.replies|
    ensures d.used == c.used + 1 || (d.used == c.used && Rank(d.stage) < Rank(c.stage))
  {
    var s := c.state;
    match c.stage
    case CodeGen =>
      Config(Router1, AfterCodeGen(s, sc.testCode, sc.first), c.calls + [Kickoff(FirstInputs)], c.used)
    case Router1 =>
      c.(stage := AfterEvent(Gate.Router1(s)))
    case TaskIds =>
      Config(CodeGenM2, AfterTaskIds(s, sc.log), c.calls, c.used)
    case CodeGenM2 =>
      if c.used == |sc.replies| then c.(stage := Halted(ScriptExhausted))
      else c.(stage := StaticTestingM2, calls := c.calls + [Replay(s.taskId4, FeedbackInput(s.feedback))])
    case StaticTestingM2 =>
      // Unreachable from Start (CodeGenM2 halts first); the guard keeps Step total.
      if c.used == |sc.replies| then c.(stage := Halted(ScriptExhausted))
      else Config(Router2, AfterStaticTesting(s, sc.replies[c.used]), c.calls + [Replay(s.taskId5, NoInputs)], c.used + 1)
    case Router2 =>
      c.(stage := AfterEvent(Gate.Router2(s)))
    case Show =>
      c.(stage := Halted(Shown(s.expectedCoverage, s.passFail)))
  }

  /** The rest of a run from `c`, one Step at a time until the run halts. */
  function Run(c: Config, sc: Script): Trace
    requires c.used <= |sc.replies|
    decreases |sc.replies| - c.used, Rank(c.stage)
  {
    if c.stage.Halted? then Trace(c.state, c.calls, c.stage.outcome)
    else Run(Step(c, sc), sc)
  }

  /** Where every run starts. */
  const Start := Config(CodeGen, Defaults, [], 0)

  /**
    The retry cycles from state `s` (whose gate asked for a retry): replay
    Task 4 with the current feedback, replay Task 5, gate, and repeat while
    the gate asks for a retry and replies remain.
  */
  function Retries(s: StateValue, replies: seq<Evaluation>): (t: Trace)
    ensures t.state.testCode == s.testCode && t.state.taskId4 == s.taskId4 && t.state.taskId5 == s.taskId5
    ensures t.outcome == ScriptExhausted || t.outcome == Shown(t.state.expectedCoverage, t.state.passFail)
    ensures t.outcome == ScriptExhausted ==> |t.calls| == 2 * |replies|
    ensures t.outcome.Shown? ==> Gate.DecideState(t.state) == Gate.Accept && 2 <= |t.calls| <= 2 * |replies|
    decreases |replies|
  {
    if replies == [] then Trace(s, [], ScriptExhausted)
    else
      var next := AfterStaticTesting(s, replies[0]);
      var cycle := [Replay(s.taskId4, FeedbackInput(s.feedback)), Replay(s.taskId5, NoInputs)];
      if Gate.DecideState(next) == Gate.Retry then Prepend(cycle, Retries(next, replies[1..]))
      else Trace(next, cycle, Shown(next.expectedCoverage, next.passFail))
  }

  /**
    A whole run: the kickoff; then either acceptance at the first gate (the
    "Passed" label has no listener), or one resolution of the stage
    identifiers followed by the retry cycles.
  */
  function Session(sc: Script): (t: Trace)
    ensures |t.calls| >= 1 && t.calls[0] == Kickoff(FirstInputs)
    ensures t.state.testCode == sc.testCode
  {
    var s := AfterCodeGen(Defaults, sc.testCode, sc.first);
    if Gate.DecideState(s) == Gate.Accept then Trace(s, [Kickoff(FirstInputs)], Unheard(Gate.Passed))
    else Prepend([Kickoff(FirstInputs)], Retries(AfterTaskIds(s, sc.log), sc.replies))
  }

  /** From `code_gen_m2`, the step-by-step run is the retry cycles on the unused replies. */
  lemma {:induction false} RunRetries(s: StateValue, calls: seq<CrewCall>, sc: Script, k: nat)
    requires k <= |sc.replies|
    ensures Run(Config(CodeGenM2, s, calls, k), sc) == Prepend(calls, Retries(s, sc.replies[k..]))
    decreases |sc.replies| - k
  {
    var rest := sc.replies[k..];
    if k < |sc.replies| {
      var next := AfterStaticTesting(s, sc.replies[k]);
      var cycle := [Replay(s.taskId4, FeedbackInput(s.feedback)), Replay(s.taskId5, NoInputs)];
      assert rest[0] == sc.replies[k] && rest[1..] == sc.replies[k + 1..];
      assert calls + [cycle[0]] + [cycle[1]] == calls + cycle;
      var c1 := Step(Config(CodeGenM2, s, calls, k), sc);
      var c2 := Step(c1, sc);
      assert c2 == Config(Router2, next, calls + cycle, k + 1);
      var c3 := Step(c2, sc);
      assert Run(Config(CodeGenM2, s, calls, k), sc) == Run(c1, sc) == Run(c2, sc) == Run(c3, sc);
      if Gate.DecideState(next) == Gate.Retry {
        assert c3 == Config(CodeGenM2, next, calls + cycle, k + 1);
        RunRetries(next, calls + cycle, sc, k + 1);
        assert calls + cycle + Retries(next, rest[1..]).calls == calls + (cycle + Retries(next, rest[1..]).calls);
      } else {
        assert c3 == Config(Show, next, calls + cycle, k + 1);
        var c4 := Step(c3, sc);
        assert Run(c3, sc) == Run(c4, sc) == Trace(next, calls + cycle, Shown(next.expectedCoverage, next.passFail));
        assert Retries(s, rest) == Trace(next, cycle, Shown(next.expectedCoverage, next.passFail));
      }
    }
  }

  /** The step-by-step run from the start is the whole-run description. */
  lemma RunIsSession(sc: Script)
    ensures Run(Start, sc) == Session(sc)
  {
    var s := AfterCodeGen(Defaults, sc.testCode, sc.first);
    assert [] + [Kickoff(FirstInputs)] == [Kickoff(FirstInputs)];
    var c1 := Step(Start, sc);
    assert c1 == Config(Router1, s, [Kickoff(FirstInputs)], 0);
    var c2 := Step(c1, sc);
    assert Run(Start, sc) == Run(c1, sc) == Run(c2, sc);
    if Gate.DecideState(s) == Gate.Retry {
      assert c2 == Config(TaskIds, s, [Kickoff(FirstInputs)], 0);
      RunRetries(AfterTaskIds(s, sc.log), [Kickoff(FirstInputs)], sc, 0);
      assert sc.replies[0..] == sc.replies;
    } else {
      assert c2 == Config(Halted(Unheard(Gate.Passed)), s, [Kickoff(FirstInputs)], 0);
    }
  }

  /** The flow: its state record and the crew calls it has made. */
  class Rmjt {
    const state: State
    var calls: seq<CrewCall>

    constructor ()
      ensures fresh(state) && state.Value() == Defaults && calls == []
    {
      state := new State();
      calls := [];
    }

    /** `code_gen`: kick the crew off and store its artifact and evaluation. */
    method CodeGen(response: Evaluation, testCode: string)
      modifies this, state
      ensures calls == old(calls) + [Kickoff(FirstInputs)]
      ensures state.Value() == AfterCodeGen(old(state.Value()), testCode, response)
    {
      calls := calls + [Kickoff(FirstInputs)];
      state.testCode := testCode;
      state.feedback := response.feedback;
      state.passFail := response.passFail;
      state.expectedCoverage := response.expectedCoverage;
    }

    /**
      One line of `task_ids`: each marker the line carries overwrites that
      marker's identifier with the stripped text after it.
    */
    method ScanLine(line: string)
      modifies state`taskId4, state`taskId5
      ensures state.taskId4 == ExtractId(line, Task4Marker).GetOr(old(state.taskId4))
      ensures state.taskId5 == ExtractId(line, Task5Marker).GetOr(old(state.taskId5))
    {
      var found4 := ExtractId(line, Task4Marker);
      if found4.Some? {
        state.taskId4 := found4.value;
      }
      var found5 := ExtractId(line, Task5Marker);
      if found5.Some? {
        state.taskId5 := found5.value;
      }
    }

    /**
      `task_ids`: walk the log lines in order; at every line carrying a marker,
      overwrite that marker's identifier with the one the line gives.
    */
    method TaskIds(log: seq<string>)
      modifies state`taskId4, state`taskId5
      ensures state.Value() == AfterTaskIds(old(state.Value()), log)
    {
      ghost var start := state.Value();
      var i := 0;
      while i < |log|
        invariant 0 <= i <= |log|
        invariant state.taskId4 == StoredIdAfter(log, i, Task4Marker, start.taskId4)
        invariant state.taskId5 == StoredIdAfter(log, i, Task5Marker, start.taskId5)
      {
        ScanLine(log[i]);
        assert state.taskId4 == StoredIdAfter(log, i + 1, Task4Marker, start.taskId4);
        assert state.taskId5 == StoredIdAfter(log, i + 1, Task5Marker, start.taskId5);
        i := i + 1;
      }
      StoredIdIsLastId(log, i, Task4Marker, start.taskId4);
      StoredIdIsLastId(log, i, Task5Marker, start.taskId5);
      assert log[..i] == log;
    }

    /** `code_gen_m2`: replay Task 4 with the current feedback; its output is only printed. */
    method CodeGenM2()
      modifies this
      ensures calls == old(calls) + [Replay(state.taskId4, FeedbackInput(state.feedback))]
    {
      calls := calls + [Replay(state.taskId4, FeedbackInput(state.feedback))];
    }

    /** `static_testing_m2`: replay Task 5 with no inputs and store its evaluation. */
    method StaticTestingM2(response: Evaluation)
      modifies this, state
      ensures calls == old(calls) + [Replay(old(state.taskId5), NoInputs)]
      ensures state.Value() == AfterStaticTesting(old(state.Value()), response)
    {
      calls := calls + [Replay(state.taskId5, NoInputs)];
      state.feedback := response.feedback;
      state.passFail := response.passFail;
      state.expectedCoverage := response.expectedCoverage;
    }

    /** `show`: reads the coverage and the verdict, changing nothing. */
    method Show() returns (coverage: int, verdict: string)
      ensures coverage == state.expectedCoverage && verdict == state.passFail
    {
      coverage, verdict := state.expectedCoverage, state.passFail;
    }
  }

  /**
    Runs one flow against the crew answers in `sc`, dispatching on event
    labels, and returns its final state, its crew calls and its outcome.
  */
  method RunSession(sc: Script) returns (t: Trace)
    ensures t == Session(sc)
  {
    var flow := new Rmjt();
    var stage := CodeGen;
    var k := 0;
    while !stage.Halted?
      invariant k <= |sc.replies|
      invariant fresh(flow.state)
      invariant stage.StaticTestingM2? ==> k < |sc.replies|
      invariant Run(Config(stage, flow.state.Value(), flow.calls, k), sc) == Run(Start, sc)
      decreases |sc.replies| - k, Rank(stage)
    {
      ghost var before := Config(stage, flow.state.Value(), flow.calls, k);
      match stage
      case CodeGen =>
        flow.CodeGen(sc.first, sc.testCode);
        stage := Router1;
      case Router1 =>
        stage := AfterEvent(Gate.Router1(flow.state.Value()));
      case TaskIds =>
        flow.TaskIds(sc.log);
        stage := CodeGenM2;
      case CodeGenM2 =>
        if k == |sc.replies| {
          stage := Halted(ScriptExhausted);
        } else {
          flow.CodeGenM2();
          stage := StaticTestingM2;
        }
      case StaticTestingM2 =>
        flow.StaticTestingM2(sc.replies[k]);
        k := k + 1;
        stage := Router2;
      case Router2 =>
        stage := AfterEvent(Gate.Router2(flow.state.Value()));
      case Show =>
        var coverage, verdict := flow.Show();
        stage := Halted(Shown(coverage, verdict));
    }
    t := Trace(flow.state.Value(), flow.calls, stage.outcome);
    RunIsSession(sc);
  }
}
