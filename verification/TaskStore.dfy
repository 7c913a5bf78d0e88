/** The task store: one specification, and the in-memory class that meets it. */
module TaskStore {
  import opened Models

  type Table = map<TaskID, Task>

  /** The calls that change a store. The clock readings are arguments. */
  datatype Call =
    | Create(task: Task)
    | SetStatus(id: TaskID, status: Status, now: int)
    | SetDispatchedAt(id: TaskID, at: int)

  function WithStatus(task: Task, status: Status, now: int): Task {
    task.(status := status,
          completedAt := if IsTerminal(status) then Some(now) else task.completedAt)
  }

  function Apply(tasks: Table, call: Call): Table {
    match call
    case Create(task) => if task.id in tasks then tasks else tasks[task.id := task]
    case SetStatus(id, status, now) =>
      if id in tasks then tasks[id := WithStatus(tasks[id], status, now)] else tasks
    case SetDispatchedAt(id, at) =>
      if id in tasks then tasks[id := tasks[id].(dispatchedAt := Some(at))] else tasks
  }

  /** A call sequence from the left. */
  function Run(tasks: Table, calls: seq<Call>): Table
    decreases |calls|
  {
    if calls == [] then tasks else Apply(Run(tasks, calls[..|calls|-1]), calls[|calls|-1])
  }

  /** The event with the owner of its task, if that is stored: workers carry no user identity. */
  function WithOwner(tasks: Table, event: TaskEvent): TaskEvent {
    if event.taskID in tasks then event.(userID := tasks[event.taskID].userID) else event
  }

  /** Whether the in-memory store reports an error. */
  predicate Fails(tasks: Table, call: Call) {
    match call
    case Create(task) => task.id in tasks
    case SetStatus(id, _, _) => id !in tasks
    case SetDispatchedAt(id, _) => id !in tasks
  }

  ghost predicate WellKeyed(tasks: Table) {
    forall id :: id in tasks ==> tasks[id].id == id
  }

  /** Every stored task once, in some order. */
  ghost predicate IsListing(list: seq<Task>, tasks: Table) {
    && |list| == |tasks|
    && (forall t :: t in list <==> t.id in tasks && tasks[t.id] == t)
    && (forall i, j :: 0 <= i < j < |list| ==> list[i].id != list[j].id)
  }

  class MemoryStore {
    var tasks: Table

    constructor ()
      ensures tasks == map[] && WellKeyed(tasks)
    {
      tasks := map[];
    }

    method Create(task: Task) returns (ok: bool)
      modifies this
      ensures ok == !Fails(old(tasks), Call.Create(task))
      ensures tasks == Apply(old(tasks), Call.Create(task))
    {
      if task.id in tasks {
        return false;
      }
      tasks := tasks[task.id := task];
      ok := true;
    }

    method Get(id: TaskID) returns (task: Option<Task>)
      ensures task == if id in tasks then Some(tasks[id]) else None
    {
      if id !in tasks {
        return None;
      }
      task := Some(tasks[id]);
    }

    /** Copies the map out in whatever order the iteration takes. */
    method List() returns (list: seq<Task>)
      requires WellKeyed(tasks)
      ensures IsListing(list, tasks)
    {
      list := [];
      var left := tasks.Keys;
      while left != {}
        invariant left <= tasks.Keys
        invariant |list| + |left| == |tasks|
        invariant forall t :: t in list <==> t.id in tasks && t.id !in left && tasks[t.id] == t
        invariant forall i, j :: 0 <= i < j < |list| ==> list[i].id != list[j].id
      {
        var id :| id in left;
        assert forall t :: t in list ==> t.id != id;
        list := list + [tasks[id]];
        left := left - {id};
      }
    }

    method SetStatus(id: TaskID, status: Status, now: int) returns (ok: bool)
      modifies this
      ensures ok == !Fails(old(tasks), Call.SetStatus(id, status, now))
      ensures tasks == Apply(old(tasks), Call.SetStatus(id, status, now))
    {
      if id !in tasks {
        return false;
      }
      var t := tasks[id].(status := status);
      if IsTerminal(status) {
        t := t.(completedAt := Some(now));
      }
      tasks := tasks[id := t];
      ok := true;
    }

    method SetDispatchedAt(id: TaskID, at: int) returns (ok: bool)
      modifies this
      ensures ok == !Fails(old(tasks), Call.SetDispatchedAt(id, at))
      ensures tasks == Apply(old(tasks), Call.SetDispatchedAt(id, at))
    {
      if id !in tasks {
        return false;
      }
      tasks := tasks[id := tasks[id].(dispatchedAt := Some(at))];
      ok := true;
    }
  }

  /** A call fails exactly when it creates a stored id or updates a missing one, and then it changes
      nothing; otherwise it changes its task, in the fields it names, and no other. */
  lemma CallExactly(tasks: Table, call: Call)
    ensures Fails(tasks, call) <==> if call.Create? then call.task.id in tasks else call.id !in tasks
    ensures Fails(tasks, call) ==> Apply(tasks, call) == tasks
    ensures var id := if call.Create? then call.task.id else call.id; var after := Apply(tasks, call);
            !Fails(tasks, call) ==>
              && after.Keys == tasks.Keys + {id}
              && (forall other :: other in tasks && other != id ==> after[other] == tasks[other])
              && match call
                 case Create(task) => after[id] == task
                 case SetStatus(_, status, now) =>
                   after[id] == tasks[id].(status := status,
                                           completedAt := if status == Completed || status == Failed
                                                          then Some(now) else tasks[id].completedAt)
                 case SetDispatchedAt(_, at) => after[id] == tasks[id].(dispatchedAt := Some(at))
  {
  }

  // ---- the manager's discipline and what it guarantees ----

  /** What a manager may ask of its store: it creates pending tasks that have not
      completed, and it never sets a status that is not terminal. */
  predicate Disciplined(call: Call) {
    match call
    case Create(task) => task.status.Pending? && task.completedAt.None?
    case SetStatus(_, status, _) => IsTerminal(status)
    case SetDispatchedAt(_, _) => true
  }

  predicate AllDisciplined(calls: seq<Call>) {
    forall i :: 0 <= i < |calls| ==> Disciplined(calls[i])
  }

  ghost predicate Lifecycle(t: Task) {
    && (t.status.Pending? || IsTerminal(t.status))
    && (t.completedAt.Some? <==> IsTerminal(t.status))
  }

  ghost predicate AllLifecycle(tasks: Table) {
    WellKeyed(tasks) && forall id :: id in tasks ==> Lifecycle(tasks[id])
  }

  /** What may happen to a stored task over time. */
  ghost predicate Evolves(before: Table, after: Table) {
    forall id :: id in before ==>
      && id in after
      && after[id].userID == before[id].userID
      && after[id].stages == before[id].stages
      && after[id].name == before[id].name
      && after[id].submittedAt == before[id].submittedAt
      && (IsTerminal(before[id].status) ==> IsTerminal(after[id].status))
      && (before[id].dispatchedAt.Some? ==> after[id].dispatchedAt.Some?)
  }

  /** For every disciplined call sequence, whatever dispatcher produced the events behind it:
      a stored task is pending, completed or failed (never running), terminal is absorbing,
      CompletedAt is set exactly when terminal, and owner, name and stages never change. */
  lemma {:induction false} LifecycleInvariant(tasks: Table, calls: seq<Call>)
    requires AllLifecycle(tasks) && AllDisciplined(calls)
    ensures AllLifecycle(Run(tasks, calls))
    ensures Evolves(tasks, Run(tasks, calls))
    decreases |calls|
  {
    if calls != [] {
      LifecycleInvariant(tasks, calls[..|calls|-1]);
    }
  }

  lemma RunAppend(tasks: Table, calls: seq<Call>, call: Call)
    ensures Run(tasks, calls + [call]) == Apply(Run(tasks, calls), call)
  {
    assert (calls + [call])[..|calls|] == calls;
  }

  lemma {:induction false} RunConcat(tasks: Table, a: seq<Call>, b: seq<Call>)
    ensures Run(tasks, a + b) == Run(Run(tasks, a), b)
    decreases |b|
  {
    if b == [] {
      assert a + b == a;
    } else {
      RunConcat(tasks, a, b[..|b|-1]);
      assert (a + b)[..|a + b|-1] == a + b[..|b|-1];
    }
  }

  // ---- which status a task ends up with ----

  predicate SetsStatusOf(call: Call, id: TaskID) {
    call.SetStatus? && call.id == id
  }

  /** The last call that sets the status of task `id`. */
  ghost function LastSet(calls: seq<Call>, id: TaskID): (last: Option<nat>)
    ensures last.None? <==> forall k :: 0 <= k < |calls| ==> !SetsStatusOf(calls[k], id)
    ensures last.Some? ==>
              && last.value < |calls| && SetsStatusOf(calls[last.value], id)
              && forall k :: last.value < k < |calls| ==> !SetsStatusOf(calls[k], id)
    decreases |calls|
  {
    if calls == [] then None
    else if SetsStatusOf(calls[|calls|-1], id) then Some(|calls| - 1)
    else LastSet(calls[..|calls|-1], id)
  }

  /** Whatever the calls: a stored task has the status that was set last, or the one it had.
      So terminal is absorbing only as a set, and a completed task stays completed exactly when
      the last status set on it, if any, is completed. */
  lemma {:induction false} LastStatusWins(tasks: Table, calls: seq<Call>, id: TaskID)
    requires id in tasks
    ensures id in Run(tasks, calls)
    ensures Run(tasks, calls)[id].status ==
              match LastSet(calls, id) case None => tasks[id].status case Some(k) => calls[k].status
    decreases |calls|
  {
    if calls != [] {
      LastStatusWins(tasks, calls[..|calls|-1], id);
    }
  }
}

/** The SQL table behind the same five operations. */
module PgStore {
  import opened Models
  import TaskStore

  /** Insertion order; `id` is the primary key. */
  type Rows = seq<Task>

  predicate HasRow(rows: Rows, id: TaskID) {
    exists i :: 0 <= i < |rows| && rows[i].id == id
  }

  /** SELECT ... WHERE id = $1 */
  function Select(rows: Rows, id: TaskID): (r: Option<Task>)
    ensures r.Some? <==> HasRow(rows, id)
    ensures r.Some? ==> r.value in rows && r.value.id == id
  {
    if rows == [] then None
    else if rows[0].id == id then Some(rows[0])
    else
      assert forall i :: 0 < i < |rows| ==> rows[i] == rows[1..][i - 1];
      Select(rows[1..], id)
  }

  /** SET status = $1, completed_at = $2: an absent completion time is stored too. */
  function RowWithStatus(row: Task, status: Status, now: int): Task {
    row.(status := status, completedAt := if IsTerminal(status) then Some(now) else None)
  }

  function UpdateRow(row: Task, call: TaskStore.Call): Task
  {
    match call
    case Create(_) => row
    case SetStatus(id, status, now) => if row.id == id then RowWithStatus(row, status, now) else row
    case SetDispatchedAt(id, at) => if row.id == id then row.(dispatchedAt := Some(at)) else row
  }

  function Apply(rows: Rows, call: TaskStore.Call): Rows {
    match call
    case Create(task) => if HasRow(rows, task.id) then rows else rows + [task]
    case _ => seq(|rows|, i requires 0 <= i < |rows| => UpdateRow(rows[i], call))
  }

  function Run(rows: Rows, calls: seq<TaskStore.Call>): Rows
    decreases |calls|
  {
    if calls == [] then rows else Apply(Run(rows, calls[..|calls|-1]), calls[|calls|-1])
  }

  ghost predicate UniqueIds(rows: Rows) {
    forall i, j :: 0 <= i < j < |rows| ==> rows[i].id != rows[j].id
  }

  ghost predicate SubmitOrder(rows: Rows) {
    forall i, j :: 0 <= i < j < |rows| ==> rows[i].submittedAt <= rows[j].submittedAt
  }

  function InsertAt(list: Rows, k: nat, row: Task): Rows
    requires k <= |list|
  {
    list[..k] + [row] + list[k..]
  }

  lemma InsertAtMultiset(list: Rows, k: nat, row: Task)
    requires k <= |list|
    ensures multiset(InsertAt(list, k, row)) == multiset(list) + multiset{row}
  {
    assert list == list[..k] + list[k..];
  }

  lemma TakeMultiset(rows: Rows, i: nat)
    requires i < |rows|
    ensures multiset(rows[..i+1]) == multiset(rows[..i]) + multiset{rows[i]}
  {
    assert rows[..i+1] == rows[..i] + [rows[i]];
  }

  lemma InsertAtElements(list: Rows, k: nat, row: Task)
    requires k <= |list|
    ensures var r := InsertAt(list, k, row);
            && |r| == |list| + 1 && r[k] == row
            && (forall i :: 0 <= i < k ==> r[i] == list[i])
            && (forall i :: k < i < |r| ==> r[i] == list[i-1])
  {
  }

  lemma InsertAtOrder(list: Rows, k: nat, row: Task)
    requires SubmitOrder(list) && k <= |list|
    requires k > 0 ==> list[k-1].submittedAt <= row.submittedAt
    requires k < |list| ==> list[k].submittedAt > row.submittedAt
    ensures SubmitOrder(InsertAt(list, k, row))
  {
    var r := InsertAt(list, k, row);
    InsertAtElements(list, k, row);
    hide InsertAt;
    assert forall i :: 0 <= i < k ==> list[i].submittedAt <= row.submittedAt;
    assert forall j :: k <= j < |list| ==> row.submittedAt <= list[j].submittedAt;
    forall i, j | 0 <= i < j < |r| ensures r[i].submittedAt <= r[j].submittedAt {
    }
  }

  class Store {
    var rows: Rows

    constructor ()
      ensures rows == []
    {
      rows := [];
    }

    /** The primary key makes a second INSERT of the same id fail. */
    method Create(task: Task) returns (ok: bool)
      modifies this
      ensures ok == !HasRow(old(rows), task.id)
      ensures rows == Apply(old(rows), TaskStore.Create(task))
    {
      ok := !HasRow(rows, task.id);
      if ok {
        rows := rows + [task];
      }
    }

    method Get(id: TaskID) returns (task: Option<Task>)
      ensures task == Select(rows, id)
    {
      task := None;
      var i := 0;
      while i < |rows|
        invariant 0 <= i <= |rows|
        invariant Select(rows, id) == Select(rows[i..], id)
      {
        assert rows[i..][1..] == rows[i+1..];
        if rows[i].id == id {
          return Some(rows[i]);
        }
        i := i + 1;
      }
    }

    /** ORDER BY submitted_at: where a row goes among the rows sorted so far. */
    static method Place(list: Rows, row: Task) returns (placed: Rows)
      requires SubmitOrder(list)
      ensures SubmitOrder(placed) && multiset(placed) == multiset(list) + multiset{row}
    {
      hide SubmitOrder, InsertAt;
      var k := |list|;
      while k > 0 && list[k-1].submittedAt > row.submittedAt
        invariant 0 <= k <= |list|
        invariant k < |list| ==> list[k].submittedAt > row.submittedAt
      {
        k := k - 1;
      }
      InsertAtOrder(list, k, row);
      InsertAtMultiset(list, k, row);
      placed := InsertAt(list, k, row);
    }

    method List() returns (list: seq<Task>)
      ensures multiset(list) == multiset(rows)
      ensures SubmitOrder(list)
    {
      list := [];
      assert SubmitOrder(list);
      hide SubmitOrder;
      var i := 0;
      while i < |rows|
        invariant 0 <= i <= |rows|
        invariant multiset(list) == multiset(rows[..i])
        invariant SubmitOrder(list)
      {
        TakeMultiset(rows, i);
        list := Place(list, rows[i]);
        i := i + 1;
      }
      assert rows[..i] == rows;
    }

    /** UPDATE of a missing id changes no row and reports no error. */
    method SetStatus(id: TaskID, status: Status, now: int)
      modifies this
      ensures rows == Apply(old(rows), TaskStore.SetStatus(id, status, now))
    {
      var call := TaskStore.SetStatus(id, status, now);
      rows := seq(|rows|, i requires 0 <= i < |rows| reads this => UpdateRow(rows[i], call));
    }

    method SetDispatchedAt(id: TaskID, at: int)
      modifies this
      ensures rows == Apply(old(rows), TaskStore.SetDispatchedAt(id, at))
    {
      var call := TaskStore.SetDispatchedAt(id, at);
      rows := seq(|rows|, i requires 0 <= i < |rows| reads this => UpdateRow(rows[i], call));
    }
  }

  // ---- agreement with the in-memory store ----

  /** The same tasks, hence the same answer to every Get and the same List up to order. */
  ghost predicate Agree(tasks: TaskStore.Table, rows: Rows) {
    && UniqueIds(rows)
    && TaskStore.WellKeyed(tasks)
    && (forall i :: 0 <= i < |rows| ==> rows[i].id in tasks && tasks[rows[i].id] == rows[i])
    && (forall id :: id in tasks ==> HasRow(rows, id))
  }

  lemma {:induction false} SelectFinds(rows: Rows, i: nat)
    requires UniqueIds(rows) && i < |rows|
    ensures Select(rows, rows[i].id) == Some(rows[i])
  {
    if i > 0 {
      assert rows[0].id != rows[i].id;
      assert rows[1..][i-1] == rows[i];
      SelectFinds(rows[1..], i - 1);
    }
  }

  lemma AgreeGet(tasks: TaskStore.Table, rows: Rows, id: TaskID)
    requires Agree(tasks, rows)
    ensures Select(rows, id) == if id in tasks then Some(tasks[id]) else None
  {
    if id in tasks {
      var i :| 0 <= i < |rows| && rows[i].id == id;
      SelectFinds(rows, i);
    }
  }

  /** What `HasRow` and `UniqueIds` say depends on the ids only. */
  lemma SameIds(rows: Rows, rows': Rows)
    requires |rows'| == |rows| && forall i :: 0 <= i < |rows| ==> rows'[i].id == rows[i].id
    ensures UniqueIds(rows) ==> UniqueIds(rows')
    ensures forall id :: HasRow(rows, id) ==> HasRow(rows', id)
  {
    forall id | HasRow(rows, id) ensures HasRow(rows', id) {
      var i :| 0 <= i < |rows| && rows[i].id == id;
      assert rows'[i].id == id;
    }
  }

  lemma RowAdded(rows: Rows, row: Task)
    requires UniqueIds(rows) && !HasRow(rows, row.id)
    ensures UniqueIds(rows + [row])
    ensures forall id :: HasRow(rows, id) || id == row.id ==> HasRow(rows + [row], id)
  {
    var rows' := rows + [row];
    forall id | HasRow(rows, id) || id == row.id ensures HasRow(rows', id) {
      if id == row.id {
        assert rows'[|rows|].id == id;
      } else {
        var i :| 0 <= i < |rows| && rows[i].id == id;
        assert rows'[i].id == id;
      }
    }
  }

  lemma AgreeCreate(tasks: TaskStore.Table, rows: Rows, task: Task)
    requires Agree(tasks, rows) && !HasRow(rows, task.id)
    ensures Agree(tasks[task.id := task], rows + [task])
  {
    RowAdded(rows, task);
    assert forall i :: 0 <= i < |rows| ==> rows[i].id != task.id;
    hide HasRow, UniqueIds;
  }

  lemma UpdatedRows(rows: Rows, call: TaskStore.Call)
    requires !call.Create?
    ensures |Apply(rows, call)| == |rows|
    ensures forall i :: 0 <= i < |rows| ==>
              Apply(rows, call)[i] == UpdateRow(rows[i], call) && UpdateRow(rows[i], call).id == rows[i].id
  {
  }

  /** The two stores do the same to one task. */
  lemma SameUpdate(tasks: TaskStore.Table, row: Task, call: TaskStore.Call)
    requires row.id in tasks && tasks[row.id] == row && !call.Create?
    requires call.SetStatus? ==>
               IsTerminal(call.status) || call.id !in tasks || tasks[call.id].completedAt.None?
    ensures TaskStore.Apply(tasks, call)[row.id] == UpdateRow(row, call)
  {
  }

  lemma AgreeUpdate(tasks: TaskStore.Table, rows: Rows, call: TaskStore.Call)
    requires Agree(tasks, rows) && !call.Create?
    requires call.SetStatus? ==>
               IsTerminal(call.status) || call.id !in tasks || tasks[call.id].completedAt.None?
    ensures Agree(TaskStore.Apply(tasks, call), Apply(rows, call))
  {
    var rows' := Apply(rows, call);
    UpdatedRows(rows, call);
    hide Apply, UpdateRow, HasRow, UniqueIds;
    SameIds(rows, rows');
    forall i | 0 <= i < |rows|
      ensures rows'[i].id in tasks && TaskStore.Apply(tasks, call)[rows'[i].id] == rows'[i]
    {
      SameUpdate(tasks, rows[i], call);
    }
  }

  lemma AgreeStep(tasks: TaskStore.Table, rows: Rows, call: TaskStore.Call)
    requires Agree(tasks, rows)
    requires call.SetStatus? ==>
               IsTerminal(call.status) || call.id !in tasks || tasks[call.id].completedAt.None?
    ensures Agree(TaskStore.Apply(tasks, call), Apply(rows, call))
  {
    if call.Create? {
      assert call.task.id in tasks <==> HasRow(rows, call.task.id);
      if !HasRow(rows, call.task.id) {
        AgreeCreate(tasks, rows, call.task);
      }
    } else {
      AgreeUpdate(tasks, rows, call);
    }
  }

  lemma AgreeBreaks(tasks: TaskStore.Table, rows: Rows, call: TaskStore.Call)
    requires Agree(tasks, rows)
    requires call.SetStatus? && !IsTerminal(call.status)
    requires call.id in tasks && tasks[call.id].completedAt.Some?
    ensures !Agree(TaskStore.Apply(tasks, call), Apply(rows, call))
  {
    var i :| 0 <= i < |rows| && rows[i].id == call.id;
    assert Apply(rows, call)[i].completedAt.None?;
  }

  /** One call keeps the two stores in agreement exactly when it does not put a
      non-terminal status on a task that has a completion time. */
  lemma AgreeStepIff(tasks: TaskStore.Table, rows: Rows, call: TaskStore.Call)
    requires Agree(tasks, rows)
    ensures Agree(TaskStore.Apply(tasks, call), Apply(rows, call)) <==>
              (call.SetStatus? ==>
                 IsTerminal(call.status) || call.id !in tasks || tasks[call.id].completedAt.None?)
    ensures call.Create? ==> (TaskStore.Fails(tasks, call) <==> HasRow(rows, call.task.id))
  {
    if call.SetStatus? && !IsTerminal(call.status) && call.id in tasks && tasks[call.id].completedAt.Some? {
      AgreeBreaks(tasks, rows, call);
    } else {
      AgreeStep(tasks, rows, call);
    }
  }

  /** Every disciplined call sequence leaves both stores with the same tasks, giving the same
      answer to every Get and refusing the same duplicate creates. */
  lemma {:induction false} StoresAgree(calls: seq<TaskStore.Call>)
    requires TaskStore.AllDisciplined(calls)
    ensures var tasks, rows := TaskStore.Run(map[], calls), Run([], calls);
            && Agree(tasks, rows)
            && (forall id :: Select(rows, id) == if id in tasks then Some(tasks[id]) else None)
            && (forall task: Task :: TaskStore.Fails(tasks, TaskStore.Create(task)) <==> HasRow(rows, task.id))
    decreases |calls|
  {
    var tasks, rows := TaskStore.Run(map[], calls), Run([], calls);
    if calls != [] {
      var calls' := calls[..|calls|-1];
      StoresAgree(calls');
      AgreeStep(TaskStore.Run(map[], calls'), Run([], calls'), calls[|calls|-1]);
    }
    forall id ensures Select(rows, id) == if id in tasks then Some(tasks[id]) else None {
      AgreeGet(tasks, rows, id);
    }
  }

  /** Without the discipline they do come apart: a task that is completed and then set back. */
  lemma UndisciplinedDisagree(task: Task, now: int)
    ensures var calls := [TaskStore.Create(task), TaskStore.SetStatus(task.id, Completed, now),
                          TaskStore.SetStatus(task.id, Running, now)];
            && Agree(TaskStore.Run(map[], calls[..2]), Run([], calls[..2]))
            && !Agree(TaskStore.Run(map[], calls), Run([], calls))
  {
    var c0, c1 := TaskStore.Create(task), TaskStore.SetStatus(task.id, Completed, now);
    var c2 := TaskStore.SetStatus(task.id, Running, now);
    var calls := [c0, c1, c2];
    var tasks1, rows1 := TaskStore.Apply(map[], c0), Apply([], c0);
    var tasks2, rows2 := TaskStore.Apply(tasks1, c1), Apply(rows1, c1);
    assert tasks2[task.id].completedAt.Some?;
    hide Agree, TaskStore.Apply, Apply;
    assert calls[..0] == [] && calls[..3] == calls;
    RunNext(calls, 0);
    RunNext(calls, 1);
    RunNext(calls, 2);
    hide Run, TaskStore.Run;
    EmptyAgree();
    AgreeStepIff(map[], [], c0);
    AgreeStepIff(tasks1, rows1, c1);
    AgreeStepIff(tasks2, rows2, c2);
  }

  lemma RunNext(calls: seq<TaskStore.Call>, n: nat)
    requires n < |calls|
    ensures TaskStore.Run(map[], calls[..n+1]) == TaskStore.Apply(TaskStore.Run(map[], calls[..n]), calls[n])
    ensures Run([], calls[..n+1]) == Apply(Run([], calls[..n]), calls[n])
  {
    assert calls[..n+1][..n] == calls[..n];
  }

  lemma EmptyAgree()
    ensures Agree(map[], [])
  {
  }

  /** Any two listings of agreeing stores hold the same tasks. */
  lemma AgreeList(tasks: TaskStore.Table, rows: Rows, memory: seq<Task>, sql: seq<Task>)
    requires Agree(tasks, rows) && TaskStore.IsListing(memory, tasks)
    requires multiset(sql) == multiset(rows)
    ensures multiset(memory) == multiset(sql)
  {
    forall t ensures t in memory <==> t in rows {
      if t.id in tasks && tasks[t.id] == t {
        var i :| 0 <= i < |rows| && rows[i].id == t.id;
        assert rows[i] == t;
      }
    }
    DistinctMultiset(memory);
    DistinctMultiset(rows);
    forall t ensures multiset(memory)[t] == multiset(rows)[t] {
      assert t in memory <==> t in multiset(memory);
      assert t in rows <==> t in multiset(rows);
    }
  }

  lemma {:induction false} DistinctMultiset(s: seq<Task>)
    requires UniqueIds(s)
    ensures forall t :: multiset(s)[t] <= 1
    decreases |s|
  {
    if s != [] {
      var s' := s[..|s|-1];
      DistinctMultiset(s');
      assert s == s' + [s[|s|-1]];
      assert s[|s|-1] !in s';
    }
  }
}
