/**
  The task order of the two crews the loop may run against. The log names
  tasks by their position, so which stage a marker finds depends on this
  order: the resolver's Task4Marker and Task5Marker look for positions
  GenerationPosition and EvaluationPosition.
*/
module CrewLayout {
  import opened Wrappers

  /** The positions the resolver's markers "Task 4:" and "Task 5:" name. */
  const GenerationPosition: nat := 4
  const EvaluationPosition: nat := 5

  /** The generation stage the loop replays with feedback. */
  const GenerationTask: string := "test_case_generator_task"

  /** The evaluation stage the loop replays without inputs. */
  const EvaluationTask: string := "static_logic_analysis_task"

  /** The five sequential tasks of the crew in rmjt.py. */
  const RmjtTasks: seq<string> := [
    "directory_structure_task",
    "code_segmentation_task",
    "mock_generator_task",
    GenerationTask,
    EvaluationTask
  ]

  /** The four sequential tasks of the crew in new_rmjt.py. */
  const NewRmjtTasks: seq<string> := [
    "code_segmentation_task",
    "mock_generator_task",
    GenerationTask,
    EvaluationTask
  ]

  /** The task a sequential crew runs at 1-based position `n`, if it has one. */
  function TaskAt(tasks: seq<string>, n: nat): (t: Option<string>)
    ensures t.Some? <==> 1 <= n <= |tasks|
    ensures t.Some? ==> t.value in tasks
  {
    if 1 <= n <= |tasks| then Some(tasks[n - 1]) else None
  }

  /** In the five-task crew, Task 4 generates and Task 5 evaluates, as the loop assumes. */
  lemma RmjtLayoutMatchesLoop()
    ensures TaskAt(RmjtTasks, GenerationPosition) == Some(GenerationTask)
    ensures TaskAt(RmjtTasks, EvaluationPosition) == Some(EvaluationTask)
  {
  }

  /** In the four-task crew, Task 4 is the evaluator and there is no Task 5. */
  lemma NewRmjtLayoutMismatch()
    ensures TaskAt(NewRmjtTasks, GenerationPosition) == Some(EvaluationTask)
    ensures TaskAt(NewRmjtTasks, EvaluationPosition) == None
    ensures TaskAt(NewRmjtTasks, GenerationPosition) != TaskAt(RmjtTasks, GenerationPosition)
  {
  }
}
