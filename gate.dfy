/**
  The quality gate of the loop: `router_1` after the first pass and
  `router_2` after each retry cycle. Both apply the same conjunctive rule
  and name the outcome with their own event label.
*/
module Gate {
  import opened FlowState

  datatype Decision = Accept | Retry

  /** Coverage below this value counts as low. */
  const CoverageThreshold: int := 90

  /** The verdict that, together with low coverage, asks for a retry. */
  const FailVerdict: string := "FAIL"

  const ActivateFeedback: string := "activate feedback mechanism"
  const Passed: string := "Passed"
  const ReRun: string := "re-run"
  const TestCasesPassed: string := "Test Cases Passed"

  /** The gate: a retry needs BOTH low coverage and the exact verdict "FAIL". */
  function Decide(coverage: int, verdict: string): (d: Decision)
    ensures coverage >= CoverageThreshold ==> d == Accept
    ensures verdict != FailVerdict ==> d == Accept
    ensures coverage < CoverageThreshold && verdict == FailVerdict ==> d == Retry
  {
    if coverage < CoverageThreshold && verdict == FailVerdict then Retry else Accept
  }

  /** The gate applied to the coverage and verdict held in a state. */
  function DecideState(s: StateValue): (d: Decision)
    ensures d == Retry <==> s.expectedCoverage < CoverageThreshold && s.passFail == FailVerdict
  {
    Decide(s.expectedCoverage, s.passFail)
  }

  /** `router_1`: the event emitted after the first pass. */
  function Router1(s: StateValue): (event: string)
    ensures event == ActivateFeedback || event == Passed
    ensures event == ActivateFeedback <==> DecideState(s) == Retry
  {
    if s.expectedCoverage < CoverageThreshold && s.passFail == FailVerdict then ActivateFeedback
    else Passed
  }

  /** `router_2`: the event emitted after each retry cycle. */
  function Router2(s: StateValue): (event: string)
    ensures event == ReRun || event == TestCasesPassed
    ensures event == ReRun <==> DecideState(s) == Retry
  {
    if s.expectedCoverage < CoverageThreshold && s.passFail == FailVerdict then ReRun
    else TestCasesPassed
  }

  /** The two routers take the same decision on every state. */
  lemma RoutersAgree(s: StateValue)
    ensures Router1(s) == ActivateFeedback <==> Router2(s) == ReRun
    ensures Router1(s) == Passed <==> Router2(s) == TestCasesPassed
  {
  }

  /** Coverage at the threshold or above is accepted whatever the verdict. */
  lemma HighCoverageAccepted(s: StateValue)
    requires s.expectedCoverage >= CoverageThreshold
    ensures Router1(s) == Passed && Router2(s) == TestCasesPassed
  {
  }

  /** Any verdict other than exactly "FAIL" ("PASS", "", "fail", ...) is accepted whatever the coverage. */
  lemma NonFailVerdictAccepted(s: StateValue)
    requires s.passFail != FailVerdict
    ensures Router1(s) == Passed && Router2(s) == TestCasesPassed
  {
  }

  /** The default state is accepted: its verdict is the empty text. */
  lemma DefaultsAccepted()
    ensures DecideState(Defaults) == Accept
    ensures Router1(Defaults) == Passed
  {
  }
}
