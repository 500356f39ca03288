# RMJT feedback loop, modelled in Dafny

The Reasoning Model Jest Tester (RMJT) runs a crew of LLM agents that
generates Jest test cases and then evaluates them. The flow in
`ai_feedback_loop.py` wraps that crew in a feedback loop:

- `code_gen` kicks the crew off once and stores the generated tests plus the
  evaluation: expected coverage, a PASS/FAIL verdict and feedback text.
- A quality gate (`router_1`, then `router_2`) asks for a retry only when
  coverage is below 90 **and** the verdict is exactly `"FAIL"`.
- On the first retry, `task_ids` reads the crew's task-output log and finds
  the identifiers of Task 4 (test generation) and Task 5 (static evaluation).
- Each retry cycle replays Task 4 with the latest feedback
  (`code_gen_m2`), then replays Task 5 and stores its evaluation
  (`static_testing_m2`), then gates again.
- When the gate accepts after a retry, `show` reports coverage and verdict.

The model has these modules:

| module | file | what it holds |
|---|---|---|
| `Wrappers` | `wrappers.dfy` | `Option` and `Result` |
| `PyStr` | `py_str.dfy` | Python's `m in s`, `s.split(m)` and `s.strip()`, the three string operations the resolver uses |
| `FlowState` | `flow_state.dfy` | the six-field `State` record: the `StateValue` datatype used by specifications, and the `State` class the flow updates in place |
| `Gate` | `gate.dfy` | the gate rule and the two routers with their event labels |
| `CrewLayout` | `crew_layout.dfy` | the task order of the two crew definitions |
| `Resolver` | `resolver.dfy` | `task_ids` as the last-line-wins identifier of each marker, plus a hardened resolver that fails on a missing marker |
| `FeedbackLoop` | `feedback_loop.dfy` | the flow |
| `LoopProperties` | `loop_properties.dfy` | a whole run in closed form, and the run-level properties |

`FeedbackLoop` describes the flow at three levels:

- a small-step specification (`Step`, `Run`) over an explicit `Stage` enum;
- a whole-run specification (`Session`, `Retries`);
- the class `Rmjt`, whose methods update a `State` object, driven by the
  `RunSession` method's `while` loop.

The lemmas and method contracts prove that the three agree.

The crew is outside the model. Its answers for one run are a `Script`:

- the kickoff's evaluation;
- the generation task's raw output;
- the lines of the task-output log;
- the evaluations the successive Task-5 replays return.

Every call the flow makes to the crew is recorded as a `CrewCall`, so the
order and the arguments of the replays can be stated.

The model states these behaviours of the code explicitly:

- The artifact replayed by Task 4 is printed, never stored, so `testCode`
  keeps the first pass's value through every retry.
- The identifiers are resolved once, after `router_1`. A `"re-run"` goes
  straight back to `code_gen_m2` and reuses them.
- A marker missing from the log leaves its identifier as it was, which is
  `""` by default, and the run goes on to replay that identifier. A stricter
  resolver that fails with `StageNotFound` on a missing marker is modelled
  alongside (`ResolveStrict`) and compared (`StrictVersusLenient`,
  `MissingTask4MarkerReplaysEmptyId`, `MissingTask5MarkerReplaysEmptyId`).
- `router_1`'s `"Passed"` label has no listener. A run accepted at once
  therefore ends without `show` (outcome `Unheard("Passed")`).
- The loop has no iteration cap. A run ends with `ScriptExhausted` when the
  gate still asks for a retry and the script has no reply left. The number
  of replies therefore plays the part of a cap.

## Model

| member | source | states |
|---|---|---|
| FlowState.State.constructor | ai_feedback_loop.py:7-13 | a new state holds the defaults: every text empty and coverage 0 |
| Gate.DecideState | ai_feedback_loop.py:29 | the gate on a state asks for a retry exactly when its coverage is below 90 and its verdict is "FAIL" |
| Gate.Decide | ai_feedback_loop.py:29 | retry exactly when coverage < 90 and the verdict is "FAIL"; accept on coverage >= 90 or on any other verdict |
| Gate.Router1 | ai_feedback_loop.py:27-32 | emits "activate feedback mechanism" exactly when the gate asks for a retry, "Passed" otherwise, and no other label |
| Gate.Router2 | ai_feedback_loop.py:71-76 | emits "re-run" exactly when the gate asks for a retry, "Test Cases Passed" otherwise, and no other label |
| Gate.RoutersAgree | ai_feedback_loop.py:29-32 | the two routers take the same decision on every state |
| Gate.HighCoverageAccepted | ai_feedback_loop.py:29 | coverage at or above 90 is accepted by both routers whatever the verdict |
| Gate.NonFailVerdictAccepted | ai_feedback_loop.py:73 | any verdict other than exactly "FAIL" is accepted by both routers whatever the coverage |
| Gate.DefaultsAccepted | ai_feedback_loop.py:9-11 | the default state (verdict "") is accepted and routed to "Passed" |
| CrewLayout.TaskAt | rmjt.py:353-359 | a sequential crew has a task at 1-based position n exactly when 1 <= n <= its task count, and it is one of its tasks |
| CrewLayout.RmjtLayoutMatchesLoop | rmjt.py:353-359 | in the five-task crew, Task 4 is the test generator and Task 5 the static evaluator, as the loop assumes |
| CrewLayout.NewRmjtLayoutMismatch | new_rmjt.py:396-401 | in the four-task crew, Task 4 is the evaluator and there is no Task 5 |
| PyStr.IndexFrom | ai_feedback_loop.py:40 | the result is the first occurrence of the pattern at or after the start index; None means there is none |
| PyStr.IndexOf | ai_feedback_loop.py:41 | the result is an occurrence of the pattern with no earlier one; None means it never occurs |
| PyStr.Contains | ai_feedback_loop.py:40 | definition of `m in s` with no contract; characterised by `PyStr.ContainsIff` |
| PyStr.ContainsIff | ai_feedback_loop.py:40 | `m in s` holds exactly when m occurs at some index of s |
| PyStr.Split | ai_feedback_loop.py:41 | split always yields at least one piece, and more than one exactly when the separator occurs |
| PyStr.JoinSplit | ai_feedback_loop.py:41 | joining the pieces of a split with the separator gives back the text |
| PyStr.SplitPiecesAvoid | ai_feedback_loop.py:41 | no piece of a split contains the separator |
| PyStr.SecondPiece | ai_feedback_loop.py:41-43 | piece 1 of a split is the text between the first occurrence and the next one, or the end |
| PyStr.SkipSpaces | ai_feedback_loop.py:43 | the index reached skips only whitespace and stops at a non-space or at the end |
| PyStr.SkipSpacesBack | ai_feedback_loop.py:43 | the index reached backwards skips only whitespace and stops after a non-space or at the lower bound |
| PyStr.Strip | ai_feedback_loop.py:43 | definition of `s.strip()` with no contract; characterised by `PyStr.StripSpec` and `PyStr.StripIdempotent` |
| PyStr.StripSpec | ai_feedback_loop.py:43 | strip's result neither starts nor ends with whitespace and is a slice with only whitespace cut off both ends |
| PyStr.StripIdempotent | ai_feedback_loop.py:43 | stripping twice is stripping once |
| Resolver.ExtractId | ai_feedback_loop.py:40-43 | a line yields an identifier for a marker exactly when it contains the marker |
| Resolver.ExtractIdBetween | ai_feedback_loop.py:40-49 | the identifier is the stripped text between the marker's first occurrence and the next one (or the line's end), and never contains the marker |
| Resolver.LastLine | ai_feedback_loop.py:39-50 | the line found is a line of the log; fully characterised by `Resolver.LastLineSpec` |
| Resolver.LastId | ai_feedback_loop.py:39-50 | definition of the identifier `task_ids` keeps for a marker, with no contract; characterised by `Resolver.LastIdSpec` and `Resolver.ExtractIdBetween` |
| Resolver.LastLineSpec | ai_feedback_loop.py:39-50 | the line found carries the marker and no later line does; finding none means no line carries it |
| Resolver.LastIdSpec | ai_feedback_loop.py:39-50 | no identifier exactly when no line carries the marker; otherwise it is the one a line carrying the marker gives, with no later line carrying it |
| Resolver.LastLineIgnoresEarlierLines | ai_feedback_loop.py:39-50 | a later line carrying the marker overrides every earlier line |
| Resolver.LastIdSnoc | ai_feedback_loop.py:39-50 | one more line: its identifier wins if it carries the marker, otherwise the result is unchanged |
| Resolver.LastIdStep | ai_feedback_loop.py:39-50 | the identifier after line i follows from the identifier before it and line i alone |
| Resolver.LastIdStepOr | ai_feedback_loop.py:39-50 | the stored identifier after line i is what line i gives, if anything, else the one stored before it |
| Resolver.StoredIdAfter | ai_feedback_loop.py:39-50 | definition, with no contract, of the value the `for` loop stores after n lines, one overwrite per line; tied to `LastId` by `Resolver.StoredIdIsLastId` |
| Resolver.StoredIdIsLastId | ai_feedback_loop.py:39-53 | overwriting line by line stores what the last line carrying the marker gives, or keeps the old value |
| Resolver.ResolveStrict | ai_feedback_loop.py:39-53 | the hardened resolver succeeds exactly when both markers are found; a failure names a marker no line carries, and names Task 5 only when Task 4 was found |
| Resolver.StrictVersusLenient | ai_feedback_loop.py:12-13 | when both markers are present the two resolvers agree; when a marker is missing the hardened one fails and the source's keeps the old identifier |
| FeedbackLoop.AfterCodeGen | ai_feedback_loop.py:19-25 | the first pass leaves both stage identifiers untouched |
| FeedbackLoop.AfterTaskIds | ai_feedback_loop.py:34-53 | the resolver never touches the artifact, coverage, feedback or verdict |
| FeedbackLoop.AfterStaticTesting | ai_feedback_loop.py:62-68 | a retry evaluation keeps the artifact and both identifiers, and the gate then decides on the reply's coverage and verdict |
| FeedbackLoop.Listener | ai_feedback_loop.py:34-35 | exactly the three labels "activate feedback mechanism", "re-run" and "Test Cases Passed" have a listener: task_ids, code_gen_m2 and show |
| FeedbackLoop.AfterEvent | ai_feedback_loop.py:55 | whatever label a router emits, the next stage comes before the routers in the pass order |
| FeedbackLoop.Step | ai_feedback_loop.py:19-82 | every step either uses one reply or moves strictly forward in the pass order, and never uses more replies than there are |
| FeedbackLoop.Run | ai_feedback_loop.py:19-82 | definition, with no contract, of a run as Step repeated until the run halts; equated to `Session` by `FeedbackLoop.RunIsSession` |
| FeedbackLoop.Retries | ai_feedback_loop.py:55-76 | the retry cycles keep the artifact and both identifiers; a run that runs out made two calls per reply; a shown run ends in an accepted state and shows its coverage and verdict; closed form in `LoopProperties.RetriesClosedForm` |
| FeedbackLoop.Session | ai_feedback_loop.py:19-82 | a whole run starts with the kickoff and keeps the first pass's artifact; closed form in `LoopProperties.SessionClosedForm` |
| FeedbackLoop.RunRetries | ai_feedback_loop.py:55-76 | from code_gen_m2 the step-by-step run is exactly the retry cycles on the unused replies |
| FeedbackLoop.RunIsSession | ai_feedback_loop.py:19-82 | the step-by-step run from the start is the whole-run description |
| FeedbackLoop.Rmjt.constructor | ai_feedback_loop.py:7-15 | a new flow holds the default state and has made no crew call |
| FeedbackLoop.Rmjt.CodeGen | ai_feedback_loop.py:19-25 | one kickoff with feedback " " is recorded; artifact, feedback, verdict and coverage are overwritten |
| FeedbackLoop.Rmjt.ScanLine | ai_feedback_loop.py:40-50 | one log line overwrites each identifier whose marker it carries with the id it gives, and leaves the other unchanged |
| FeedbackLoop.Rmjt.TaskIds | ai_feedback_loop.py:34-53 | the loop over the log (invariant: each identifier is `StoredIdAfter` of the lines read) leaves each identifier as the one the last line carrying its marker gives, or unchanged |
| FeedbackLoop.Rmjt.CodeGenM2 | ai_feedback_loop.py:55-60 | one replay of the Task-4 identifier with the current feedback is recorded, and the state is untouched |
| FeedbackLoop.Rmjt.StaticTestingM2 | ai_feedback_loop.py:62-68 | one replay of the Task-5 identifier with no inputs is recorded; feedback, verdict and coverage are overwritten |
| FeedbackLoop.Rmjt.Show | ai_feedback_loop.py:79-82 | returns the coverage and the verdict, changing nothing |
| FeedbackLoop.RunSession | ai_feedback_loop.py:19-82 | driving the flow's methods by event labels yields exactly the whole-run description |
| LoopProperties.FirstAccepted | ai_feedback_loop.py:71-76 | the position found holds an accepted reply and every earlier reply is rejected; None means every reply is rejected |
| LoopProperties.CycleCount | ai_feedback_loop.py:71-76 | a run makes at most one cycle per reply, and at least one when some reply is accepted |
| LoopProperties.SentFeedback | ai_feedback_loop.py:56-58 | closed-form helper: the list of feedback texts for n cycles, the state's feedback and then the feedback of each reply but the last; that the replays carry these texts is stated by `LoopProperties.RetryCycleCalls` |
| LoopProperties.ReplayCalls | ai_feedback_loop.py:55-65 | each cycle makes exactly two crew calls |
| LoopProperties.ReplayCallsAt | ai_feedback_loop.py:55-65 | cycle i replays Task 4 with the i-th feedback, then Task 5 with no inputs |
| LoopProperties.RetriesClosedForm | ai_feedback_loop.py:55-76 | the retries run one cycle per reply up to the first accepted one, with fixed identifiers, end in the last reply's state, and show it or run out |
| LoopProperties.SessionClosedForm | ai_feedback_loop.py:19-82 | a whole run is one kickoff then, unless the first gate accepts, the retry cycles against identifiers resolved once |
| LoopProperties.ImmediateAccept | ai_feedback_loop.py:27-32 | accepted at once: exactly one crew call, the run ends at the unheard "Passed", and the state is the first pass's |
| LoopProperties.RetryCycleCalls | ai_feedback_loop.py:55-65 | a run makes 1 + 2 x cycles calls; cycle i replays the log's Task-4 identifier with the latest feedback, then the Task-5 identifier with no inputs |
| LoopProperties.RetriesKeepArtifactAndIds | ai_feedback_loop.py:55-68 | at the end of a run the artifact is the first pass's and the identifiers are those resolved once (the defaults when accepted at once) |
| LoopProperties.AcceptIsFinal | ai_feedback_loop.py:74-82 | a run ends at the first accepting gate, showing the accepted state's coverage and verdict; a run that runs out has rejected every reply and made 1 + 2 x replies calls |
| LoopProperties.OneRetryThenAccept | ai_feedback_loop.py:55-82 | one retry then acceptance: three crew calls, showing the reply's coverage and verdict |
| LoopProperties.MissingTask5MarkerReplaysEmptyId | ai_feedback_loop.py:46-50 | without a "Task 5:" line the flow replays the identifier "" while the hardened resolver fails |
| LoopProperties.MissingTask4MarkerReplaysEmptyId | ai_feedback_loop.py:40-44 | without a "Task 4:" line the flow replays "" with the feedback while the hardened resolver fails naming "Task 4:" |

## Left out

- The `crewai log-tasks-outputs` subprocess: its standard output, split into lines, is the `log` field of the script.
- `kickoff` and `replay`: they are answers supplied by the script, and their failures (exceptions from the crew) are not modelled.
- `print` calls, `nest_asyncio`, and the asynchronous dispatch of the flow decorators. An explicit stage enum and a listener table replace them.
- The raw output of the Task-4 replay: the source only prints it.
- The pydantic `Result` record enforces no range on coverage and no value set on the verdict, so the model does not either: coverage is any `int` and the verdict any text.
- FeedbackLoop.RunSession: the unbounded loop is bounded by the length of the script's reply list. A run whose gate never accepts ends with `ScriptExhausted` instead of looping forever.
- FeedbackLoop.AfterCodeGen: its contract states only that the identifiers are kept. The four fields it sets are stated by `FeedbackLoop.Rmjt.CodeGen` and by `LoopProperties.ImmediateAccept`.
- The agents, tasks, prompts, Neo4j graph and mocking tools of `rmjt.py` and `new_rmjt.py`: they hold no logic of the loop. Only the task order is modelled.
- The task outputs written to files: they are I/O only.
