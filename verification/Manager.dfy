/** The task lifecycle owner: Submit, one turn of the event loop, one tick of the deadline loop. */
module Manager {
  import opened Models
  import Executor
  import opened TaskStore

  datatype DispatchResult = Accepted | QueueFull | NoWorkers | OtherError

  /** HTTP status of a failed Submit. */
  function ErrorCode(result: DispatchResult): int
    requires !result.Accepted?
  {
    match result
    case QueueFull => 429
    case NoWorkers => 503
    case OtherError => 500
  }

  /** What Submit leaves in the store when the dispatcher answers `result`. */
  function Submitted(tasks: Table, task: Task, result: DispatchResult, failedAt: int, stampedAt: int): Table {
    if task.id in tasks then tasks
    else tasks[task.id := if result.Accepted? then task.(dispatchedAt := Some(stampedAt))
                          else WithStatus(task, Failed, failedAt)]
  }

  predicate Overdue(task: Task, now: int, deadline: int) {
    !IsTerminal(task.status) && task.dispatchedAt.Some? && now - task.dispatchedAt.value > deadline
  }

  function TickedTask(task: Task, now: int, deadline: int): Task {
    if Overdue(task, now, deadline) then task.(dispatchedAt := Some(now)) else task
  }

  function Ticked(tasks: Table, now: int, deadline: int): Table {
    map id | id in tasks :: TickedTask(tasks[id], now, deadline)
  }

  function OverdueOf(list: seq<Task>, now: int, deadline: int): (due: seq<Task>)
    ensures forall t :: t in due <==> t in list && Overdue(t, now, deadline)
    decreases |list|
  {
    if list == [] then []
    else
      var front, last := list[..|list|-1], list[|list|-1];
      assert list == front + [last];
      OverdueOf(front, now, deadline) + if Overdue(last, now, deadline) then [last] else []
  }

  /** The first `i` listed tasks have been looked at. */
  ghost predicate TickedUpTo(tasks: Table, list: seq<Task>, i: nat, now: int, deadline: int) {
    forall k :: 0 <= k < |list| ==>
      && list[k].id in tasks
      && tasks[list[k].id] == if k < i then TickedTask(list[k], now, deadline) else list[k]
  }

  lemma TickedNext(before: Table, tasks: Table, list: seq<Task>, i: nat, now: int, deadline: int)
    requires IsListing(list, before) && TickedUpTo(tasks, list, i, now, deadline) && i < |list|
    ensures list[i].id in tasks
    ensures TickedUpTo(tasks[list[i].id := TickedTask(list[i], now, deadline)], list, i + 1, now, deadline)
    ensures !Overdue(list[i], now, deadline) ==> TickedUpTo(tasks, list, i + 1, now, deadline)
    ensures Overdue(list[i], now, deadline) ==>
              Apply(tasks, SetDispatchedAt(list[i].id, now)) == tasks[list[i].id := TickedTask(list[i], now, deadline)]
    ensures OverdueOf(list[..i+1], now, deadline) ==
              OverdueOf(list[..i], now, deadline) + if Overdue(list[i], now, deadline) then [list[i]] else []
  {
    assert list[..i+1][..i] == list[..i];
  }

  lemma TickedAll(before: Table, tasks: Table, list: seq<Task>, now: int, deadline: int)
    requires tasks.Keys == before.Keys && TickedUpTo(tasks, list, |list|, now, deadline)
    requires WellKeyed(before) && IsListing(list, before)
    ensures tasks == Ticked(before, now, deadline)
    ensures forall t :: t in OverdueOf(list, now, deadline) <==>
              t.id in before && before[t.id] == t && Overdue(t, now, deadline)
  {
    forall id | id in before ensures tasks[id] == Ticked(before, now, deadline)[id] {
      assert before[id] in list;
      var k :| 0 <= k < |list| && list[k] == before[id];
    }
  }

  predicate DistinctIds(list: seq<Task>) {
    forall i, j :: 0 <= i < j < |list| ==> list[i].id != list[j].id
  }

  /** Of a listing every overdue task is found once. */
  lemma OverdueOnce(tasks: Table, list: seq<Task>, now: int, deadline: int)
    requires IsListing(list, tasks)
    ensures DistinctIds(OverdueOf(list, now, deadline))
  {
    OverdueDistinct(list, now, deadline);
  }

  lemma {:induction false} OverdueDistinct(list: seq<Task>, now: int, deadline: int)
    requires DistinctIds(list)
    ensures DistinctIds(OverdueOf(list, now, deadline))
    decreases |list|
  {
    if list != [] {
      var front, last := list[..|list|-1], list[|list|-1];
      OverdueDistinct(front, now, deadline);
      var due := OverdueOf(front, now, deadline);
      forall i | 0 <= i < |due| ensures due[i].id != last.id {
        assert due[i] in due;
        assert due[i] in front;
        var k :| 0 <= k < |front| && front[k] == due[i];
        assert list[k] == due[i];
      }
      hide Overdue;
      assert OverdueOf(list, now, deadline) == due + if Overdue(last, now, deadline) then [last] else [];
    }
  }

  // ---- the functions above, field by field ----

  /** Submit stores the task and nothing else: stamped when it was accepted, failed otherwise. */
  lemma SubmittedExactly(tasks: Table, task: Task, result: DispatchResult, failedAt: int, stampedAt: int)
    ensures var after := Submitted(tasks, task, result, failedAt, stampedAt);
            && after.Keys == tasks.Keys + {task.id}
            && (forall id :: id in tasks ==> after[id] == tasks[id])
            && (task.id !in tasks && result.Accepted? ==>
                  after[task.id] == task.(dispatchedAt := Some(stampedAt)))
            && (task.id !in tasks && !result.Accepted? ==>
                  after[task.id] == task.(status := Failed, completedAt := Some(failedAt)))
  {
  }

  /** A tick stamps exactly the tasks that are neither completed nor failed and were dispatched more
      than the deadline ago, and changes nothing else. */
  lemma TickedExactly(tasks: Table, now: int, deadline: int, id: TaskID)
    requires id in tasks
    ensures var after := Ticked(tasks, now, deadline);
            var due := tasks[id].status != Completed && tasks[id].status != Failed
                       && tasks[id].dispatchedAt.Some? && now - tasks[id].dispatchedAt.value > deadline;
            && after.Keys == tasks.Keys
            && after[id] == (if due then tasks[id].(dispatchedAt := Some(now)) else tasks[id])
            && (Overdue(tasks[id], now, deadline) <==> due)
  {
  }

  /** An event that says completed or failed sets that status and the time, of its task only; any
      other event changes nothing. The owner goes with it when the task is stored. */
  lemma HandledExactly(tasks: Table, event: TaskEvent, now: int)
    ensures var after := HandledOne(tasks, event, now);
            var ends := event.kind.TaskStatus? && (event.status == Completed || event.status == Failed);
            && after.Keys == tasks.Keys
            && (forall id :: id in tasks ==>
                  after[id] == if ends && id == event.taskID
                               then tasks[id].(status := event.status, completedAt := Some(now)) else tasks[id])
            && WithOwner(tasks, event) ==
                 event.(userID := if event.taskID in tasks then tasks[event.taskID].userID else event.userID)
  {
  }

  // ---- what the event loop does to the store ----

  /** The event makes the loop set the status of task `id`. */
  predicate Reports(event: TaskEvent, id: TaskID) {
    IsTerminalEvent(event) && event.taskID == id
  }

  /** The last of the first `n` events that reports the end of task `id`. */
  ghost function LastReport(events: seq<TaskEvent>, n: nat, id: TaskID): (last: Option<nat>)
    requires n <= |events|
    ensures last.None? <==> forall k :: 0 <= k < n ==> !Reports(events[k], id)
    ensures last.Some? ==>
              && last.value < n && Reports(events[last.value], id)
              && forall k :: last.value < k < n ==> !Reports(events[k], id)
  {
    if n == 0 then None
    else if Reports(events[n-1], id) then Some(n - 1)
    else LastReport(events, n - 1, id)
  }

  /** The store after the first `n` events: only the last report about a task counts. */
  ghost function Handled(tasks: Table, events: seq<TaskEvent>, clock: seq<int>, n: nat): Table
    requires n <= |events| == |clock|
  {
    map id | id in tasks ::
      match LastReport(events, n, id)
      case None => tasks[id]
      case Some(k) => WithStatus(tasks[id], events[k].status, clock[k])
  }

  lemma HandledNext(tasks: Table, events: seq<TaskEvent>, clock: seq<int>, n: nat)
    requires n < |events| == |clock|
    ensures Handled(tasks, events, clock, n + 1) == HandledOne(Handled(tasks, events, clock, n), events[n], clock[n])
  {
  }

  lemma HandledOwner(tasks: Table, events: seq<TaskEvent>, clock: seq<int>, n: nat)
    requires n < |events| == |clock|
    ensures WithOwner(Handled(tasks, events, clock, n), events[n]) == WithOwner(tasks, events[n])
  {
  }

  /** What the loop asks of the store when it handles the event. */
  function ReportCalls(event: TaskEvent, now: int): seq<Call> {
    if IsTerminalEvent(event) then [SetStatus(event.taskID, event.status, now)] else []
  }

  lemma HandledCalls(tasks: Table, event: TaskEvent, now: int)
    ensures AllDisciplined(ReportCalls(event, now))
    ensures Run(tasks, ReportCalls(event, now)) == HandledOne(tasks, event, now)
  {
    if IsTerminalEvent(event) {
      var call := SetStatus(event.taskID, event.status, now);
      RunAppend(tasks, [], call);
      assert [] + [call] == [call];
    }
  }

  function HandledOne(tasks: Table, event: TaskEvent, now: int): Table {
    if IsTerminalEvent(event) then Apply(tasks, SetStatus(event.taskID, event.status, now)) else tasks
  }

  /** A completed task stays completed over any delivered events exactly when the last terminal
      event about it, if there is one, says completed. */
  lemma CompletedStaysIff(tasks: Table, events: seq<TaskEvent>, clock: seq<int>, id: TaskID)
    requires |events| == |clock| && id in tasks && tasks[id].status.Completed?
    ensures Handled(tasks, events, clock, |events|)[id].status.Completed? <==>
              forall k :: 0 <= k < |events| && Reports(events[k], id)
                          && (forall j :: k < j < |events| ==> !Reports(events[j], id)) ==>
                events[k].status.Completed?
  {
    var last := LastReport(events, |events|, id);
    assert last.Some? ==> Reports(events[last.value], id);
  }

  /** It does happen: a task that was accepted and stamped, found overdue and dispatched again runs
      twice. Its first execution completes; the second is cancelled and the task ends as failed. */
  lemma CompletedCanBecomeFailed(
      task: Task, stampedAt: int, now: int, deadline: int, stage: nat, clock: seq<int>)
    requires task.status.Pending? && stage < |task.stages| && now - stampedAt > deadline
    requires |clock| == Executor.TraceLength(task) + 2 * stage + 3
    ensures var submitted := Submitted(map[], task, Accepted, 0, stampedAt);
            var ticked := Ticked(submitted, now, deadline);
            var first, second := Executor.CompletedTrace(task), Executor.CancelledTrace(task, stage);
            && Overdue(submitted[task.id], now, deadline)
            && Handled(ticked, first + second, clock, |first|)[task.id].status.Completed?
            && Handled(ticked, first + second, clock, |clock|)[task.id].status.Failed?
  {
    var first, second := Executor.CompletedTrace(task), Executor.CancelledTrace(task, stage);
    var events := first + second;
    assert events[|first| - 1] == Executor.StatusEvent(task, Completed);
    assert events[|events| - 1] == Executor.StatusEvent(task, Failed);
    assert LastReport(events, |first|, task.id) == Some(|first| - 1);
    assert LastReport(events, |events|, task.id) == Some(|events| - 1);
  }

  class Manager {
    const store: MemoryStore
    const deadline: int

    constructor (store: MemoryStore, deadline: int)
      ensures this.store == store && this.deadline == deadline
    {
      this.store := store;
      this.deadline := deadline;
    }

    /** What the dispatcher answers is the parameter `result`. A task is left pending only if
        it was accepted, and then it is stamped. */
    method Submit(task: Task, result: DispatchResult, failedAt: int, stampedAt: int)
      returns (error: Option<int>, ghost calls: seq<Call>)
      modifies store
      ensures store.tasks == Run(old(store.tasks), calls)
      ensures task.status.Pending? && task.completedAt.None? ==> AllDisciplined(calls)
      ensures store.tasks == Submitted(old(store.tasks), task, result, failedAt, stampedAt)
      ensures task.id in old(store.tasks) ==> error == Some(500)
      ensures task.id !in old(store.tasks) ==>
                match result
                case Accepted => error == None
                case QueueFull => error == Some(429)
                case NoWorkers => error == Some(503)
                case OtherError => error == Some(500)
    {
      ghost var before := store.tasks;
      calls := [] + [Create(task)];
      RunAppend(before, [], Create(task));
      var ok := store.Create(task);
      if !ok {
        return Some(500), calls;
      }
      if !result.Accepted? {
        ok := store.SetStatus(task.id, Failed, failedAt);
        RunAppend(before, calls, SetStatus(task.id, Failed, failedAt));
        return Some(ErrorCode(result)), calls + [SetStatus(task.id, Failed, failedAt)];
      }
      ok := store.SetDispatchedAt(task.id, stampedAt);
      RunAppend(before, calls, SetDispatchedAt(task.id, stampedAt));
      return None, calls + [SetDispatchedAt(task.id, stampedAt)];
    }

    /** One turn of the event loop, for any event a dispatcher could deliver. */
    method HandleEvent(event: TaskEvent, now: int) returns (published: TaskEvent)
      modifies store
      ensures store.tasks == HandledOne(old(store.tasks), event, now)
      ensures published == WithOwner(old(store.tasks), event)
    {
      published := event;
      var task := store.Get(event.taskID);
      if task.Some? {
        published := published.(userID := task.value.userID);
      }
      if published.kind.TaskStatus? {
        if published.status.Completed? || published.status.Failed? {
          var ok := store.SetStatus(published.taskID, published.status, now);
        }
      }
    }

    /** The event loop over whatever a dispatcher delivers: events repeated, reordered or invented.
        Publishing adds the owner and nothing else, a task ends as its last report says, and every
        stored task keeps its lifecycle. */
    method RunEventLoop(events: seq<TaskEvent>, clock: seq<int>) returns (published: seq<TaskEvent>)
      requires |clock| == |events|
      modifies store
      ensures |published| == |events|
      ensures forall i :: 0 <= i < |events| ==> published[i] == WithOwner(old(store.tasks), events[i])
      ensures store.tasks == Handled(old(store.tasks), events, clock, |events|)
      ensures AllLifecycle(old(store.tasks)) ==>
                AllLifecycle(store.tasks) && Evolves(old(store.tasks), store.tasks)
    {
      published := [];
      ghost var before, all := store.tasks, [];
      assert Handled(before, events, clock, 0) == before;
      var i := 0;
      while i < |events|
        invariant 0 <= i <= |events| && |published| == i
        invariant forall k :: 0 <= k < i ==> published[k] == WithOwner(before, events[k])
        invariant store.tasks == Run(before, all) && AllDisciplined(all)
        invariant store.tasks == Handled(before, events, clock, i)
      {
        HandledNext(before, events, clock, i);
        HandledOwner(before, events, clock, i);
        HandledCalls(store.tasks, events[i], clock[i]);
        RunConcat(before, all, ReportCalls(events[i], clock[i]));
        hide Handled, HandledOne, ReportCalls, Run, WithOwner;
        var event := HandleEvent(events[i], clock[i]);
        all := all + ReportCalls(events[i], clock[i]);
        published := published + [event];
        i := i + 1;
      }
      if AllLifecycle(before) {
        LifecycleInvariant(before, all);
      }
    }

    /** One tick of the deadline loop, which is not started when the deadline is zero.
        Dispatch errors are ignored, so the stamps do not depend on them. */
    method DeadlineTick(now: int) returns (redispatched: seq<Task>)
      requires WellKeyed(store.tasks)
      modifies store
      ensures store.tasks == Ticked(old(store.tasks), now, deadline)
      ensures forall t :: t in redispatched <==>
                t.id in old(store.tasks) && old(store.tasks)[t.id] == t && Overdue(t, now, deadline)
      ensures DistinctIds(redispatched)
    {
      redispatched := [];
      var list := store.List();
      ghost var before := store.tasks;
      assert TickedUpTo(before, list, 0, now, deadline);
      assert OverdueOf(list[..0], now, deadline) == [];
      hide IsListing, TickedUpTo, OverdueOf, Apply, Ticked, TickedTask, Overdue, WellKeyed, DistinctIds;
      var i := 0;
      while i < |list|
        invariant 0 <= i <= |list|
        invariant store.tasks.Keys == before.Keys
        invariant TickedUpTo(store.tasks, list, i, now, deadline)
        invariant redispatched == OverdueOf(list[..i], now, deadline)
      {
        var task := list[i];
        TickedNext(before, store.tasks, list, i, now, deadline);
        if Overdue(task, now, deadline) {
          redispatched := redispatched + [task];
          var ok := store.SetDispatchedAt(task.id, now);
        }
        i := i + 1;
      }
      assert list[..i] == list;
      TickedAll(before, store.tasks, list, now, deadline);
      OverdueOnce(before, list, now, deadline);
    }
  }

  /** The deadline loop keeps every stored task's lifecycle too. */
  lemma TickedLifecycle(tasks: Table, now: int, deadline: int)
    requires AllLifecycle(tasks)
    ensures AllLifecycle(Ticked(tasks, now, deadline)) && Evolves(tasks, Ticked(tasks, now, deadline))
  {
  }
}

/** Timing of re-dispatch, for one manager with ideal ticks. */
module Deadline {
  import opened Models
  import opened TaskStore
  import opened Manager

  /** The ticker is created at `start` with period deadline / 2. */
  function TickTime(start: int, deadline: nat, n: nat): int {
    start + (n + 1) * (deadline / 2)
  }

  /** `before[n]` is the table the n-th tick lists and `after[n]` what it leaves. In between
      anything may happen to the table, except that task `id` stays unsettled and is not stamped. */
  ghost predicate Ticks(before: seq<Table>, after: seq<Table>, start: int, deadline: nat, id: TaskID) {
    && |before| == |after|
    && (forall n :: 0 <= n < |before| ==>
          && id in before[n] && !IsTerminal(before[n][id].status) && before[n][id].dispatchedAt.Some?
          && after[n] == Ticked(before[n], TickTime(start, deadline, n), deadline))
    && (forall n :: 0 < n < |before| ==> before[n][id].dispatchedAt == after[n-1][id].dispatchedAt)
  }

  ghost function StampIn(tasks: Table, id: TaskID): int {
    if id in tasks && tasks[id].dispatchedAt.Some? then tasks[id].dispatchedAt.value else 0
  }

  /** The stamps that the ticks see or leave. */
  ghost function Stamps(tables: seq<Table>, id: TaskID): (stamps: seq<int>)
    ensures |stamps| == |tables|
  {
    seq(|tables|, n requires 0 <= n < |tables| => StampIn(tables[n], id))
  }

  /** What the ticks do to the stamps of one unsettled task. */
  ghost predicate StampTicks(seen: seq<int>, left: seq<int>, start: int, deadline: nat) {
    && |seen| == |left|
    && (forall n :: 0 <= n < |seen| ==>
          left[n] == if Redispatches(seen, start, deadline, n) then TickTime(start, deadline, n) else seen[n])
    && (forall n :: 0 < n < |seen| ==> seen[n] == left[n-1])
  }

  ghost predicate Redispatches(seen: seq<int>, start: int, deadline: nat, n: nat)
    requires n < |seen|
  {
    TickTime(start, deadline, n) - seen[n] > deadline
  }

  lemma TicksStamp(before: seq<Table>, after: seq<Table>, start: int, deadline: nat, id: TaskID)
    requires Ticks(before, after, start, deadline, id)
    ensures StampTicks(Stamps(before, id), Stamps(after, id), start, deadline)
    ensures forall n :: 0 <= n < |before| ==>
              Redispatches(Stamps(before, id), start, deadline, n)
              == Overdue(before[n][id], TickTime(start, deadline, n), deadline)
  {
    hide TickTime;
  }

  /** The number of re-dispatches in the first `n` ticks. */
  ghost function Attempts(seen: seq<int>, start: int, deadline: nat, n: nat): nat
    requires n <= |seen|
  {
    if n == 0 then 0
    else Attempts(seen, start, deadline, n - 1) + if Redispatches(seen, start, deadline, n - 1) then 1 else 0
  }

  lemma TickStep(start: int, deadline: nat, n: nat)
    ensures TickTime(start, deadline, n) ==
              (if n == 0 then start else TickTime(start, deadline, n - 1)) + deadline / 2
  {
  }

  lemma {:induction false} Later(start: int, deadline: nat, m: nat, n: nat)
    requires m <= n
    ensures TickTime(start, deadline, m) <= TickTime(start, deadline, n)
  {
    if m < n {
      TickStep(start, deadline, n);
      Later(start, deadline, m, n - 1);
    }
  }

  /** `k` deadlines, by repeated addition. */
  ghost function Deadlines(k: nat, deadline: nat): nat {
    if k == 0 then 0 else Deadlines(k - 1, deadline) + deadline
  }

  lemma {:induction false} DeadlinesProduct(k: nat, deadline: nat)
    ensures Deadlines(k, deadline) == k * deadline
  {
    if k > 0 {
      DeadlinesProduct(k - 1, deadline);
      assert k * deadline == (k - 1) * deadline + deadline;
    }
  }

  lemma {:induction false} AttemptStamps(seen: seq<int>, left: seq<int>, start: int, deadline: nat, n: nat)
    requires StampTicks(seen, left, start, deadline) && n < |seen|
    ensures var k := Attempts(seen, start, deadline, n + 1);
            && left[n] >= seen[0] + Deadlines(k, deadline)
            && (k > 0 ==> left[n] > seen[0] + Deadlines(k, deadline))
  {
    hide TickTime;
    if n > 0 {
      AttemptStamps(seen, left, start, deadline, n - 1);
    }
  }

  lemma {:induction false} StampSince(seen: seq<int>, left: seq<int>, start: int, deadline: nat, m: nat, n: nat)
    requires StampTicks(seen, left, start, deadline) && m < n < |seen|
    requires Redispatches(seen, start, deadline, m)
    ensures seen[n] >= TickTime(start, deadline, m)
    decreases n
  {
    hide TickTime;
    if n > m + 1 {
      StampSince(seen, left, start, deadline, m, n - 1);
      Later(start, deadline, m, n - 1);
    }
  }

  lemma {:induction false} StampAge(seen: seq<int>, left: seq<int>, start: int, deadline: nat, n: nat)
    requires StampTicks(seen, left, start, deadline) && n < |seen| && seen[0] >= start
    ensures TickTime(start, deadline, n) - left[n] <= deadline
    ensures TickTime(start, deadline, n) - seen[n] <= deadline + deadline / 2
  {
    TickStep(start, deadline, n);
    hide TickTime;
    if n > 0 {
      StampAge(seen, left, start, deadline, n - 1);
    }
  }

  // ---- the bounds ----

  /** After `k` re-dispatches the stamp is more than `k` deadlines past the first one. */
  lemma AttemptTimes(before: seq<Table>, after: seq<Table>, start: int, deadline: nat, id: TaskID, n: nat)
    requires Ticks(before, after, start, deadline, id) && n < |before|
    ensures var seen, left := Stamps(before, id), Stamps(after, id);
            var k := Attempts(seen, start, deadline, n + 1);
            && left[n] >= seen[0] + k * deadline
            && (k > 0 ==> left[n] > seen[0] + k * deadline)
  {
    hide Ticks, Stamps, TickTime;
    TicksStamp(before, after, start, deadline, id);
    AttemptStamps(Stamps(before, id), Stamps(after, id), start, deadline, n);
    DeadlinesProduct(Attempts(Stamps(before, id), start, deadline, n + 1), deadline);
  }

  /** Two re-dispatches of one task are more than a deadline apart. */
  lemma Spacing(before: seq<Table>, after: seq<Table>, start: int, deadline: nat, id: TaskID, m: nat, n: nat)
    requires Ticks(before, after, start, deadline, id) && m < n < |before|
    requires Overdue(before[m][id], TickTime(start, deadline, m), deadline)
    requires Overdue(before[n][id], TickTime(start, deadline, n), deadline)
    ensures TickTime(start, deadline, n) - TickTime(start, deadline, m) > deadline
  {
    TicksStamp(before, after, start, deadline, id);
    hide Stamps, TickTime;
    StampSince(Stamps(before, id), Stamps(after, id), start, deadline, m, n);
  }

  /** After every tick the stamp is at most a deadline old, so it was at most one and a half
      deadlines old (rounded down) when the tick looked at it. */
  lemma Freshness(before: seq<Table>, after: seq<Table>, start: int, deadline: nat, id: TaskID, n: nat)
    requires Ticks(before, after, start, deadline, id) && n < |before|
    requires StampIn(before[0], id) >= start
    ensures TickTime(start, deadline, n) - StampIn(after[n], id) <= deadline
    ensures TickTime(start, deadline, n) - StampIn(before[n], id) <= deadline + deadline / 2
  {
    TicksStamp(before, after, start, deadline, id);
    hide Ticks, TickTime;
    StampAge(Stamps(before, id), Stamps(after, id), start, deadline, n);
  }

  /** The stamp seen by tick `m` is replaced by the time some tick passes it by the deadline,
      and that tick comes no later than the deadline plus half of it after the stamp. */
  lemma {:induction false} ReplacedInTime(seen: seq<int>, left: seq<int>, start: int, deadline: nat, m: nat, n: nat)
    returns (t: nat)
    requires StampTicks(seen, left, start, deadline) && m <= n < |seen| && seen[0] >= start
    requires TickTime(start, deadline, n) > seen[m] + deadline
    ensures m <= t <= n && Redispatches(seen, start, deadline, t) && seen[t] == seen[m]
    ensures seen[m] + deadline < TickTime(start, deadline, t) <= seen[m] + deadline + deadline / 2
    decreases n - m
  {
    hide TickTime;
    StampAge(seen, left, start, deadline, m);
    if Redispatches(seen, start, deadline, m) {
      t := m;
    } else {
      t := ReplacedInTime(seen, left, start, deadline, m + 1, n);
    }
  }

  lemma RedispatchedInTime(before: seq<Table>, after: seq<Table>, start: int, deadline: nat, id: TaskID, m: nat, n: nat)
    returns (t: nat)
    requires Ticks(before, after, start, deadline, id) && m <= n < |before|
    requires StampIn(before[0], id) >= start
    requires TickTime(start, deadline, n) > StampIn(before[m], id) + deadline
    ensures m <= t <= n && id in before[t] && Overdue(before[t][id], TickTime(start, deadline, t), deadline)
    ensures StampIn(before[t], id) == StampIn(before[m], id)
    ensures StampIn(before[m], id) + deadline < TickTime(start, deadline, t)
              <= StampIn(before[m], id) + deadline + deadline / 2
  {
    TicksStamp(before, after, start, deadline, id);
    hide TickTime;
    t := ReplacedInTime(Stamps(before, id), Stamps(after, id), start, deadline, m, n);
  }
}
