/**
  What a whole run of the feedback loop does, in closed form: how many
  retry cycles it makes, which crew calls they are, what the final state is
  and how the run ends; and the properties of runs that follow from it.
*/
module LoopProperties {
  import opened Wrappers
  import opened FlowState
  import Gate
  import opened Resolver
  import opened FeedbackLoop

  /** The position of the first reply the gate accepts, if any. */
  function FirstAccepted(replies: seq<Evaluation>): (r: Option<nat>)
    ensures r.Some? ==> r.value < |replies| && Accepts(replies[r.value])
    ensures forall j | 0 <= j < |replies| && (r.None? || j < r.value) :: !Accepts(replies[j])
  {
    if replies == [] then None
    else if Accepts(replies[0]) then Some(0)
    else
      match FirstAccepted(replies[1..])
      case None => None
      case Some(i) => Some(i + 1)
  }

  /** The number of retry cycles run on `replies`: up to the first accepted one, or all of them. */
  function CycleCount(replies: seq<Evaluation>): (n: nat)
    ensures n <= |replies|
    ensures FirstAccepted(replies).Some? ==> n >= 1
  {
    match FirstAccepted(replies)
    case Some(i) => i + 1
    case None => |replies|
  }

  /**
    The feedback the Task-4 replays of `n` cycles carry: the state's feedback
    for the first, then the feedback of each reply before the next.
  */
  function SentFeedback(initial: string, replies: seq<Evaluation>, n: nat): (r: seq<string>)
    requires n <= |replies|
    ensures |r| == n
    ensures n > 0 ==> r[0] == initial
    ensures forall i | 0 < i < n :: r[i] == replies[i - 1].feedback
  {
    if n == 0 then [] else [initial] + seq(n - 1, i requires 0 <= i < n - 1 => replies[i].feedback)
  }

  /** The calls of one retry cycle per feedback text, against fixed stage identifiers. */
  function ReplayCalls(id4: string, id5: string, feedbacks: seq<string>): (r: seq<CrewCall>)
    ensures |r| == 2 * |feedbacks|
  {
    if feedbacks == [] then []
    else [Replay(id4, FeedbackInput(feedbacks[0])), Replay(id5, NoInputs)] + ReplayCalls(id4, id5, feedbacks[1..])
  }

  /** Cycle `i` replays Task 4 with the `i`-th feedback, then Task 5 with no inputs. */
  lemma {:induction false} ReplayCallsAt(id4: string, id5: string, feedbacks: seq<string>, i: nat)
    requires i < |feedbacks|
    ensures ReplayCalls(id4, id5, feedbacks)[2 * i] == Replay(id4, FeedbackInput(feedbacks[i]))
    ensures ReplayCalls(id4, id5, feedbacks)[2 * i + 1] == Replay(id5, NoInputs)
  {
    if i > 0 {
      ReplayCallsAt(id4, id5, feedbacks[1..], i - 1);
    }
  }

  /**
    The retry cycles from state `s`, in closed form: one cycle per reply up
    to and including the first one the gate accepts (all of them if none
    is accepted), both stage identifiers fixed throughout, and the final
    state holding the last reply's evaluation.
  */
  lemma {:induction false} RetriesClosedForm(s: StateValue, replies: seq<Evaluation>)
    ensures var n := CycleCount(replies);
            var t := Retries(s, replies);
            && t.calls == ReplayCalls(s.taskId4, s.taskId5, SentFeedback(s.feedback, replies, n))
            && t.state == (if n == 0 then s else AfterStaticTesting(s, replies[n - 1]))
            && t.outcome == (if FirstAccepted(replies).Some?
                             then Shown(replies[n - 1].expectedCoverage, replies[n - 1].passFail)
                             else ScriptExhausted)
    decreases |replies|
  {
    if replies != [] {
      var next := AfterStaticTesting(s, replies[0]);
      var rest := replies[1..];
      if !Accepts(replies[0]) {
        RetriesClosedForm(next, rest);
        var m := CycleCount(rest);
        assert CycleCount(replies) == m + 1;
        var sent := SentFeedback(s.feedback, replies, m + 1);
        var sentRest := SentFeedback(next.feedback, rest, m);
        assert sent == [s.feedback] + sentRest;
        assert sent[1..] == sentRest;
        if m > 0 {
          assert AfterStaticTesting(next, rest[m - 1]) == AfterStaticTesting(s, replies[m]);
        }
      } else {
        assert SentFeedback(s.feedback, replies, 1) == [s.feedback];
      }
    }
  }

  /** The state after the first pass, `code_gen`. */
  function FirstPass(sc: Script): StateValue {
    AfterCodeGen(Defaults, sc.testCode, sc.first)
  }

  /** The state the retry cycles start from: the first pass with the identifiers resolved from the log. */
  function Resolved(sc: Script): StateValue {
    AfterTaskIds(FirstPass(sc), sc.log)
  }

  /**
    A whole run in closed form. Accepted at the first gate: one kickoff and
    nothing else. Otherwise: the kickoff, then the retry cycles, all of them
    against the identifiers resolved once from the log.
  */
  lemma SessionClosedForm(sc: Script)
    ensures Accepts(sc.first) ==>
              Session(sc) == Trace(FirstPass(sc), [Kickoff(FirstInputs)], Unheard(Gate.Passed))
    ensures !Accepts(sc.first) ==>
              var s := Resolved(sc);
              var n := CycleCount(sc.replies);
              var t := Session(sc);
              && t.calls == [Kickoff(FirstInputs)] + ReplayCalls(s.taskId4, s.taskId5, SentFeedback(sc.first.feedback, sc.replies, n))
              && t.state == (if n == 0 then s else AfterStaticTesting(s, sc.replies[n - 1]))
              && t.outcome == (if FirstAccepted(sc.replies).Some?
                               then Shown(sc.replies[n - 1].expectedCoverage, sc.replies[n - 1].passFail)
                               else ScriptExhausted)
  {
    RetriesClosedForm(Resolved(sc), sc.replies);
  }

  /** An evaluation accepted at once: exactly one crew call, and "Passed" ends the run unheard. */
  lemma ImmediateAccept(sc: Script)
    requires Accepts(sc.first)
    ensures Session(sc).calls == [Kickoff(FirstInputs)]
    ensures Session(sc).outcome == Unheard(Gate.Passed)
    ensures Session(sc).state == FirstPass(sc)
  {
    SessionClosedForm(sc);
  }

  /**
    Each retry cycle makes two replays in a fixed order: Task 4 with the
    latest feedback, then Task 5 with no inputs; every cycle uses the same
    two identifiers, those the log gave once after the first gate.
  */
  lemma RetryCycleCalls(sc: Script, i: nat)
    requires !Accepts(sc.first)
    requires i < CycleCount(sc.replies)
    ensures |Session(sc).calls| == 1 + 2 * CycleCount(sc.replies)
    ensures Session(sc).calls[1 + 2 * i] ==
              Replay(LastId(sc.log, Task4Marker).GetOr(""),
                     FeedbackInput(if i == 0 then sc.first.feedback else sc.replies[i - 1].feedback))
    ensures Session(sc).calls[2 + 2 * i] == Replay(LastId(sc.log, Task5Marker).GetOr(""), NoInputs)
  {
    SessionClosedForm(sc);
    var s := Resolved(sc);
    var sent := SentFeedback(sc.first.feedback, sc.replies, CycleCount(sc.replies));
    ReplayCallsAt(s.taskId4, s.taskId5, sent, i);
  }

  /**
    Retry cycles overwrite only the evaluation fields: at the end of a run
    the artifact is the first pass's and the identifiers are those resolved
    once (still the defaults when the first gate accepted).
  */
  lemma RetriesKeepArtifactAndIds(sc: Script)
    ensures Session(sc).state.testCode == sc.testCode
    ensures Accepts(sc.first) ==> Session(sc).state.taskId4 == "" && Session(sc).state.taskId5 == ""
    ensures !Accepts(sc.first) ==>
              && Session(sc).state.taskId4 == LastId(sc.log, Task4Marker).GetOr("")
              && Session(sc).state.taskId5 == LastId(sc.log, Task5Marker).GetOr("")
  {
    SessionClosedForm(sc);
  }

  /**
    A run that ends by acceptance stops right at the accepting gate: the
    final state is accepted and holds the accepted evaluation, and no crew
    call follows it. A run whose replies ran out has rejected every one.
  */
  lemma AcceptIsFinal(sc: Script)
    ensures Session(sc).outcome.Unheard? ==>
              Accepts(sc.first) && Gate.DecideState(Session(sc).state) == Gate.Accept
    ensures Session(sc).outcome.Shown? ==>
              && Gate.DecideState(Session(sc).state) == Gate.Accept
              && Session(sc).outcome == Shown(Session(sc).state.expectedCoverage, Session(sc).state.passFail)
              && Session(sc).state == AfterStaticTesting(Resolved(sc), sc.replies[CycleCount(sc.replies) - 1])
    ensures Session(sc).outcome == ScriptExhausted ==>
              && !Accepts(sc.first)
              && (forall j | 0 <= j < |sc.replies| :: !Accepts(sc.replies[j]))
              && |Session(sc).calls| == 1 + 2 * |sc.replies|
              && Gate.DecideState(Session(sc).state) == Gate.Retry
  {
    SessionClosedForm(sc);
  }

  /** One retry then acceptance: one kickoff and two replays. */
  lemma OneRetryThenAccept(sc: Script)
    requires !Accepts(sc.first) && |sc.replies| >= 1 && Accepts(sc.replies[0])
    ensures |Session(sc).calls| == 3
    ensures Session(sc).outcome == Shown(sc.replies[0].expectedCoverage, sc.replies[0].passFail)
  {
    SessionClosedForm(sc);
  }

  /**
    A log without a "Task 5:" line: the source replays the stage "" for
    the evaluation, while the hardened resolver would have failed before any
    replay.
  */
  lemma MissingTask5MarkerReplaysEmptyId(sc: Script)
    requires !Accepts(sc.first) && |sc.replies| >= 1
    requires forall k | 0 <= k < |sc.log| :: !PyStr.Contains(sc.log[k], Task5Marker)
    ensures Session(sc).calls[2] == Replay("", NoInputs)
    ensures ResolveStrict(sc.log).Failure?
  {
    LastIdSpec(sc.log, Task5Marker);
    RetryCycleCalls(sc, 0);
  }

  /** A log without a "Task 4:" line: the source replays the stage "" with the feedback. */
  lemma MissingTask4MarkerReplaysEmptyId(sc: Script)
    requires !Accepts(sc.first) && |sc.replies| >= 1
    requires forall k | 0 <= k < |sc.log| :: !PyStr.Contains(sc.log[k], Task4Marker)
    ensures Session(sc).calls[1] == Replay("", FeedbackInput(sc.first.feedback))
    ensures ResolveStrict(sc.log) == Failure(StageNotFound(Task4Marker))
  {
    LastIdSpec(sc.log, Task4Marker);
    RetryCycleCalls(sc, 0);
  }
}
