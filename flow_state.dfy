/**
  The session state of the feedback loop: the six fields of the flow's
  `State` record, as a value for specifications and as the object the flow
  updates in place.
*/
module FlowState {

  /** One snapshot of the six state fields. */
  datatype StateValue = StateValue(
    testCode: string,
    expectedCoverage: int,
    feedback: string,
    passFail: string,
    taskId4: string,
    taskId5: string)

  /** The state a flow starts with: every text empty, coverage zero. */
  const Defaults := StateValue("", 0, "", "", "", "")

  /** What an evaluation returns: the three fields of the crew's `Result`. */
  datatype Evaluation = Evaluation(expectedCoverage: int, feedback: string, passFail: string)

  /** The mutable state record owned by one flow. */
  class State {
    var testCode: string
    var expectedCoverage: int
    var feedback: string
    var passFail: string
    var taskId4: string
    var taskId5: string

    /** The current field values. */
    function Value(): StateValue
      reads this
    {
      StateValue(testCode, expectedCoverage, feedback, passFail, taskId4, taskId5)
    }

    constructor ()
      ensures Value() == Defaults
    {
      testCode, expectedCoverage, feedback, passFail := "", 0, "", "";
      taskId4, taskId5 := "", "";
    }
  }
}
