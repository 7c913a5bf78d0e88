/** Tasks, stages and the events that workers report about them. */
module Models {

  datatype Option<+T> = None | Some(value: T)

  type TaskID = string
  type UserID = string

  /** A status string. `Unset` is the empty string and `Other` any spelling the
      program gives no meaning to, so that different strings stay different. */
  datatype Status = Unset | Pending | Running | Completed | Failed | Other(text: string)

  predicate IsTerminal(status: Status) {
    status.Completed? || status.Failed?
  }

  datatype EventType = Progress | TaskStatus | OtherType(text: string)

  datatype TaskEvent = TaskEvent(
    kind: EventType,
    taskID: TaskID,
    userID: UserID,
    stageName: string,
    progress: int,
    status: Status)

  /** The test that the channel transport, the manager and the servers all apply. */
  predicate IsTerminalEvent(e: TaskEvent) {
    e.kind.TaskStatus? && IsTerminal(e.status)
  }

  /** In nanoseconds. */
  const SECOND := 1_000_000_000

  datatype Stage = Stage(index: int, name: string)

  /** Times are integers (nanoseconds); a nil time pointer is `None`. */
  datatype Task = Task(
    id: TaskID,
    name: string,
    status: Status,
    userID: UserID,
    submittedAt: int,
    dispatchedAt: Option<int>,
    completedAt: Option<int>,
    stages: seq<Stage>)

  const STAGE_NAMES: seq<string> := [
    "Initialization", "Validation", "Processing", "Transformation",
    "Aggregation", "Optimization", "Finalization", "Cleanup"
  ]

  function Clamp(stageCount: int): (n: int)
    ensures 1 <= n <= |STAGE_NAMES|
    ensures 1 <= stageCount <= |STAGE_NAMES| ==> n == stageCount
  {
    if stageCount < 1 then 1
    else if stageCount > |STAGE_NAMES| then |STAGE_NAMES|
    else stageCount
  }

  predicate DistinctNames(stages: seq<Stage>) {
    forall i, j :: 0 <= i < j < |stages| ==> stages[i].name != stages[j].name
  }

  lemma StageNamesDistinct()
    ensures forall i, j :: 0 <= i < j < |STAGE_NAMES| ==> STAGE_NAMES[i] != STAGE_NAMES[j]
  {
    // Names of the same length differ in their third letter.
    assert forall i :: 0 <= i < |STAGE_NAMES| ==>
        (|STAGE_NAMES[i]|, STAGE_NAMES[i][2]) ==
          [(14, 'i'), (10, 'l'), (10, 'o'), (14, 'a'), (11, 'g'), (12, 't'), (12, 'n'), (7, 'e')][i];
  }

  /** `uuid.New()` and `time.Now()` are the parameters `id` and `now`. */
  method NewTask(id: TaskID, name: string, stageCount: int, now: int) returns (task: Task)
    ensures task.id == id && task.name == name && task.userID == ""
    ensures task.status.Pending? && task.submittedAt == now
    ensures task.dispatchedAt.None? && task.completedAt.None?
    ensures |task.stages| == Clamp(stageCount)
    ensures forall i :: 0 <= i < |task.stages| ==> task.stages[i] == Stage(i, STAGE_NAMES[i])
    ensures DistinctNames(task.stages)
  {
    var n := stageCount;
    if n < 1 { n := 1; }
    if n > |STAGE_NAMES| { n := |STAGE_NAMES|; }
    var stages := [];
    while |stages| < n
      invariant |stages| <= n == Clamp(stageCount)
      invariant forall i :: 0 <= i < |stages| ==> stages[i] == Stage(i, STAGE_NAMES[i])
    {
      // The loop never leaves the name table, so "Stage %d" is never used.
      stages := stages + [Stage(|stages|, STAGE_NAMES[|stages|])];
    }
    StageNamesDistinct();
    task := Task(id, name, Pending, "", now, None, None, stages);
  }
}
