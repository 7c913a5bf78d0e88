/** What one execution of a task emits. */
module Executor {
  import opened Models
  import opened Subsequences

  function StatusEvent(task: Task, status: Status): TaskEvent {
    TaskEvent(TaskStatus, task.id, "", "", 0, status)
  }

  function Percent(done: nat, total: nat): nat
    requires total > 0
  {
    done * 100 / total
  }

  function ProgressEvent(task: Task, stage: nat, done: nat): TaskEvent
    requires stage < |task.stages|
  {
    TaskEvent(Progress, task.id, "", task.stages[stage].name, Percent(done, |task.stages|), Unset)
  }

  function TraceLength(task: Task): nat {
    2 * |task.stages| + 2
  }

  /** The i-th event of an uncancelled execution. */
  function EventAt(task: Task, i: nat): TaskEvent
    requires i < TraceLength(task)
  {
    if i == 0 then StatusEvent(task, Running)
    else if i == TraceLength(task) - 1 then StatusEvent(task, Completed)
    else if i % 2 == 1 then ProgressEvent(task, i / 2, i / 2)
    else ProgressEvent(task, i / 2 - 1, i / 2)
  }

  function CompletedTrace(task: Task): (t: seq<TaskEvent>)
    ensures |t| == TraceLength(task)
  {
    seq(TraceLength(task), i requires 0 <= i < TraceLength(task) => EventAt(task, i))
  }

  /** The execution that sees the context cancelled during stage `k`. */
  function CancelledTrace(task: Task, k: nat): (t: seq<TaskEvent>)
    requires k < |task.stages|
    ensures |t| == 2 * k + 3
  {
    CompletedTrace(task)[..2 * k + 2] + [StatusEvent(task, Failed)]
  }

  /** `t` is everything some execution of `task` emits; only a cancelled
      context can end it early. */
  ghost predicate IsFullTrace(task: Task, t: seq<TaskEvent>, cancelled: bool) {
    t == CompletedTrace(task) ||
    (cancelled && exists k: nat :: k < |task.stages| && t == CancelledTrace(task, k))
  }

  ghost predicate IsTracePrefix(task: Task, t: seq<TaskEvent>) {
    exists full: seq<TaskEvent> :: IsFullTrace(task, full, true) && t <= full
  }

  /** `cancelIn` is the stage whose select takes the `ctx.Done()` branch, if any. */
  method Run(task: Task, cancelIn: Option<nat>) returns (emitted: seq<TaskEvent>)
    ensures cancelIn.None? || cancelIn.value >= |task.stages| ==> emitted == CompletedTrace(task)
    ensures cancelIn.Some? && cancelIn.value < |task.stages| ==>
              emitted == CancelledTrace(task, cancelIn.value)
  {
    var total := |task.stages|;
    hide Percent;
    emitted := [StatusEvent(task, Running)];
    var stageIdx := 0;
    while stageIdx < total
      invariant 0 <= stageIdx <= total
      invariant emitted == CompletedTrace(task)[..2 * stageIdx + 1]
      invariant cancelIn.Some? ==> stageIdx <= cancelIn.value || total <= cancelIn.value
    {
      ghost var full := CompletedTrace(task);
      var name := task.stages[stageIdx].name;
      emitted := emitted + [TaskEvent(Progress, task.id, "", name, Percent(stageIdx, total), Unset)];
      assert emitted[2 * stageIdx + 1] == full[2 * stageIdx + 1];
      assert emitted == full[..2 * stageIdx + 2];
      if cancelIn == Some(stageIdx) {
        emitted := emitted + [StatusEvent(task, Failed)];
        return;
      }
      emitted := emitted + [TaskEvent(Progress, task.id, "", name, Percent(stageIdx + 1, total), Unset)];
      assert emitted[2 * stageIdx + 2] == full[2 * stageIdx + 2];
      assert emitted == full[..2 * (stageIdx + 1) + 1];
      stageIdx := stageIdx + 1;
    }
    emitted := emitted + [StatusEvent(task, Completed)];
  }

  // ---- what every trace satisfies ----

  lemma MulBelow(n: nat, x: int)
    requires n * x < n
    ensures x <= 0
  {
  }

  lemma DivMono(a: nat, b: nat, n: nat)
    requires 0 < n && a <= b
    ensures a / n <= b / n
  {
    var qa, qb := a / n, b / n;
    assert n * qa <= a <= b < n * qb + n;
    assert n * (qa - qb) == n * qa - n * qb;
    MulBelow(n, qa - qb);
  }

  lemma DivStrict(a: nat, b: nat, n: nat)
    requires 0 < n && a + n <= b
    ensures a / n < b / n
  {
    var qa, qb := a / n, b / n;
    assert n * qa <= a && b < n * qb + n;
    assert n * (qa - qb + 1) == n * qa - n * qb + n;
    MulBelow(n, qa - qb + 1);
  }

  lemma DivExact(n: nat)
    requires 0 < n
    ensures Percent(n, n) == 100
  {
    var q := n * 100 / n;
    assert n * q <= n * 100 < n * q + n;
    assert n * (q - 100) == n * q - n * 100 && n * (100 - q) == n * 100 - n * q;
    MulBelow(n, q - 100);
    MulBelow(n, 100 - q);
  }

  lemma ProgressMono(i: nat, j: nat, n: nat)
    requires i <= j <= n && 0 < n
    ensures Percent(i, n) <= Percent(j, n) <= 100
  {
    var a, b := i * 100, j * 100;
    DivMono(a, b, n);
    DivMono(b, n * 100, n);
    DivExact(n);
  }

  lemma ProgressStrict(i: nat, n: nat)
    requires i < n <= 100
    ensures Percent(i, n) < Percent(i + 1, n)
  {
    DivStrict(i * 100, (i + 1) * 100, n);
  }

  /** Progress reported before never exceeds progress reported after. */
  predicate ProgressOrdered(a: TaskEvent, b: TaskEvent) {
    a.kind.Progress? && b.kind.Progress? ==> a.progress <= b.progress
  }

  predicate NothingAfterTerminal(a: TaskEvent, b: TaskEvent) {
    !IsTerminalEvent(a)
  }

  /** The fields the integration tests join into an event signature. */
  predicate DifferentSignature(a: TaskEvent, b: TaskEvent) {
    (a.taskID, a.kind, a.status, a.progress, a.stageName)
      != (b.taskID, b.kind, b.status, b.progress, b.stageName)
  }

  lemma CompletedTraceOrder(task: Task)
    ensures Pairwise(ProgressOrdered, CompletedTrace(task))
    ensures Pairwise(NothingAfterTerminal, CompletedTrace(task))
    ensures forall e :: e in CompletedTrace(task) ==>
              e.taskID == task.id && e.userID == "" && 0 <= e.progress <= 100 &&
              (IsTerminalEvent(e) ==> e.status.Completed?)
  {
    hide Percent;
    var n := |task.stages|;
    var t := CompletedTrace(task);
    forall i, j | 0 <= i < j < |t| ensures ProgressOrdered(t[i], t[j]) && NothingAfterTerminal(t[i], t[j]) {
      if 0 < i && j < |t| - 1 { ProgressMono(i / 2, j / 2, n); }
    }
    forall i | 0 <= i < |t|
      ensures t[i].taskID == task.id && t[i].userID == "" && 0 <= t[i].progress <= 100
    {
      if 0 < i < |t| - 1 { ProgressMono(i / 2, n, n); }
    }
  }

  lemma TracePrefixOrder(task: Task, t: seq<TaskEvent>)
    requires IsTracePrefix(task, t)
    ensures Pairwise(ProgressOrdered, t)
    ensures Pairwise(NothingAfterTerminal, t)
  {
    var full :| IsFullTrace(task, full, true) && t <= full;
    CompletedTraceOrder(task);
    if full != CompletedTrace(task) {
      var k: nat :| k < |task.stages| && full == CancelledTrace(task, k);
      forall i, j | 0 <= i < j < |full|
        ensures ProgressOrdered(full[i], full[j]) && NothingAfterTerminal(full[i], full[j])
      {
        var c := CompletedTrace(task);
        assert full[i] == c[i];
        if j < 2 * k + 2 {
          assert full[j] == c[j];
          assert ProgressOrdered(c[i], c[j]);
        }
        assert NothingAfterTerminal(c[i], c[|c| - 1]);
      }
    }
    assert forall i :: 0 <= i < |t| ==> t[i] == full[i];
  }

  /** The two events of stage `k`. */
  lemma StageEvents(task: Task, k: nat)
    requires k < |task.stages|
    ensures CompletedTrace(task)[2 * k + 1] == ProgressEvent(task, k, k)
    ensures CompletedTrace(task)[2 * k + 2] == ProgressEvent(task, k, k + 1)
  {
    hide Percent;
  }

  /** No event but the last of a completed trace is terminal. */
  lemma TerminalLast(task: Task, i: nat)
    requires i < TraceLength(task)
    ensures IsTerminalEvent(CompletedTrace(task)[i]) <==> i == TraceLength(task) - 1
  {
    hide Percent;
  }

  /** The shape of every execution: it starts with running, its only terminal event is its last,
      and the number of events says whether and where it was cancelled. */
  lemma TraceShape(task: Task, t: seq<TaskEvent>)
    requires IsFullTrace(task, t, true)
    ensures |t| >= 2 && t[0] == StatusEvent(task, Running)
    ensures IsTerminalEvent(t[|t|-1])
    ensures forall i :: 0 <= i < |t| - 1 ==> !IsTerminalEvent(t[i])
    ensures t[|t|-1].status.Completed? ==> |t| == 2 * |task.stages| + 2
    ensures t[|t|-1].status.Failed? ==>
              |t| >= 3 && var k := (|t| - 3) / 2;
              |t| == 2 * k + 3 && k < |task.stages| && t[|t|-2] == ProgressEvent(task, k, k)
  {
    var c := CompletedTrace(task);
    assert c[0] == StatusEvent(task, Running) && c[|c|-1] == StatusEvent(task, Completed);
    hide CompletedTrace;
    if t == c {
      forall i | 0 <= i < |t| - 1 ensures !IsTerminalEvent(t[i]) { TerminalLast(task, i); }
    } else {
      var k: nat :| k < |task.stages| && t == CancelledTrace(task, k);
      assert |t| == 2 * k + 3 && forall i :: 0 <= i < 2 * k + 2 ==> t[i] == c[i];
      forall i | 0 <= i < |t| - 1 ensures !IsTerminalEvent(t[i]) { TerminalLast(task, i); }
      StageEvents(task, k);
      hide ProgressEvent;
    }
  }

  lemma StageProgress(task: Task, k: nat)
    requires k < |task.stages|
    ensures var t := CompletedTrace(task);
            && t[2 * k + 1].progress == Percent(k, |task.stages|)
            && t[2 * k + 2].progress == Percent(k + 1, |task.stages|)
            && t[2 * k + 1].stageName == t[2 * k + 2].stageName == task.stages[k].name
  {
    StageEvents(task, k);
    hide CompletedTrace, Percent;
  }

  lemma NothingDone(n: nat)
    requires n > 0
    ensures Percent(0, n) == 0
    ensures n > 100 ==> Percent(1, n) == 0
  {
  }

  /** Progress is 0 when the first stage starts, agrees where one stage ends and the
      next starts, and is exactly 100 when the last stage ends. */
  lemma StageBoundaries(task: Task, k: nat)
    requires k < |task.stages|
    ensures var t := CompletedTrace(task);
            && t[1].progress == 0 && t[2 * |task.stages|].progress == 100
            && t[2 * k + 1].stageName == t[2 * k + 2].stageName == task.stages[k].name
            && (k + 1 < |task.stages| ==> t[2 * k + 2].progress == t[2 * k + 3].progress)
  {
    var n := |task.stages|;
    StageProgress(task, 0);
    StageProgress(task, k);
    StageProgress(task, n - 1);
    if k + 1 < n { StageProgress(task, k + 1); }
    NothingDone(n);
    DivExact(n);
    hide Percent, CompletedTrace, EventAt;
  }

  // ---- every field of every event ----

  /** A progress event about the named stage, `p` per cent done. */
  predicate IsProgress(e: TaskEvent, task: Task, name: string, p: int) {
    && e.kind.Progress? && e.taskID == task.id && e.userID == "" && e.stageName == name
    && e.progress == p && e.status.Unset?
  }

  predicate IsStatus(e: TaskEvent, task: Task, status: Status) {
    && e.kind.TaskStatus? && e.taskID == task.id && e.userID == "" && e.stageName == ""
    && e.progress == 0 && e.status == status
  }

  /** `p` is what `done` of `total` is in per cent, rounded down. */
  predicate IsPercentage(p: int, done: nat, total: nat) {
    p * total <= 100 * done < (p + 1) * total
  }

  lemma PercentExactly(done: nat, total: nat)
    requires total > 0
    ensures IsPercentage(Percent(done, total), done, total)
  {
    var a := done * 100;
    var p := a / total;
    assert a == total * p + a % total;
    assert p * total == total * p && (p + 1) * total == total * p + total;
  }

  /** The events of a completed execution: running, then for every stage the percentage when it
      starts and when it ends, then completed. */
  lemma CompletedEvents(task: Task, k: nat)
    ensures var t := CompletedTrace(task);
            && IsStatus(t[0], task, Running)
            && IsStatus(t[|t|-1], task, Completed)
            && (k < |task.stages| ==>
                  && IsProgress(t[2 * k + 1], task, task.stages[k].name, t[2 * k + 1].progress)
                  && IsProgress(t[2 * k + 2], task, task.stages[k].name, t[2 * k + 2].progress)
                  && IsPercentage(t[2 * k + 1].progress, k, |task.stages|)
                  && IsPercentage(t[2 * k + 2].progress, k + 1, |task.stages|))
  {
    if k < |task.stages| {
      StageEvents(task, k);
      PercentExactly(k, |task.stages|);
      PercentExactly(k + 1, |task.stages|);
    }
    hide Percent, IsPercentage;
  }

  /** A cancelled execution goes like a completed one as far as the start of stage `k`, and then fails. */
  lemma CancelledEvents(task: Task, k: nat)
    requires k < |task.stages|
    ensures var t := CancelledTrace(task, k);
            && |t| == 2 * k + 3
            && (forall i :: 0 <= i <= 2 * k + 1 ==> t[i] == CompletedTrace(task)[i])
            && IsStatus(t[2 * k + 2], task, Failed)
  {
    hide Percent;
  }

  predicate AdjacentNamesDiffer(task: Task) {
    forall k :: 0 <= k < |task.stages| - 1 ==> task.stages[k].name != task.stages[k + 1].name
  }

  lemma SignaturesDiffer(task: Task, i: nat, j: nat)
    requires |task.stages| <= 100 && AdjacentNamesDiffer(task) && i < j < TraceLength(task)
    ensures DifferentSignature(EventAt(task, i), EventAt(task, j))
  {
    hide Percent;
    var n := |task.stages|;
    if 0 < i && j < TraceLength(task) - 1 {
      if i / 2 < j / 2 {
        ProgressStrict(i / 2, n);
        ProgressMono(i / 2 + 1, j / 2, n);
      } else {
        assert i % 2 == 0 && j == i + 1;
        assert task.stages[i / 2 - 1].name != task.stages[i / 2 - 1 + 1].name;
      }
    }
  }

  /** Event signatures are pairwise distinct exactly when no stage is shorter than one
      percent and neighbouring stages have different names. */
  lemma SignaturesDistinctIff(task: Task)
    ensures Pairwise(DifferentSignature, CompletedTrace(task))
        <==> |task.stages| <= 100 && AdjacentNamesDiffer(task)
  {
    var n := |task.stages|;
    var t := CompletedTrace(task);
    if n > 100 {
      NothingDone(n);
      StageEvents(task, 0);
      hide Percent, CompletedTrace;
      assert !DifferentSignature(t[1], t[2]);
    } else if !AdjacentNamesDiffer(task) {
      var k :| 0 <= k < n - 1 && task.stages[k].name == task.stages[k + 1].name;
      StageEvents(task, k);
      StageEvents(task, k + 1);
      hide Percent, CompletedTrace;
      assert !DifferentSignature(t[2 * k + 2], t[2 * k + 3]);
    } else {
      hide EventAt, DifferentSignature;
      forall i, j | 0 <= i < j < |t| ensures DifferentSignature(t[i], t[j]) {
        SignaturesDiffer(task, i, j);
      }
    }
  }

  /** Cancelled and unfinished executions keep the distinctness of signatures. */
  lemma PrefixSignaturesDistinct(task: Task, t: seq<TaskEvent>)
    requires IsTracePrefix(task, t)
    requires |task.stages| <= 100 && AdjacentNamesDiffer(task)
    ensures Pairwise(DifferentSignature, t)
  {
    var full :| IsFullTrace(task, full, true) && t <= full;
    SignaturesDistinctIff(task);
    CompletedTraceOrder(task);
    var c := CompletedTrace(task);
    if full != c {
      var k: nat :| k < |task.stages| && full == CancelledTrace(task, k);
      forall i, j | 0 <= i < j < |full| ensures DifferentSignature(full[i], full[j]) {
        assert full[i] == c[i];
        if j < 2 * k + 2 {
          assert full[j] == c[j];
        } else {
          assert c[i] in c;
        }
      }
    }
    assert forall i :: 0 <= i < |t| ==> t[i] == full[i];
  }

  /** Every execution of a task made by NewTask, finished or not, has distinct signatures. */
  lemma NewTaskSignaturesDistinct(task: Task, stageCount: int, t: seq<TaskEvent>)
    requires |task.stages| == Clamp(stageCount) && DistinctNames(task.stages) && IsTracePrefix(task, t)
    ensures Pairwise(DifferentSignature, t)
  {
    assert AdjacentNamesDiffer(task);
    PrefixSignaturesDistinct(task, t);
  }

  /** A trace depends on the id and the stages of a task and on nothing else. */
  lemma TraceSame(a: Task, b: Task)
    requires a.id == b.id && a.stages == b.stages
    ensures CompletedTrace(a) == CompletedTrace(b)
  {
  }
}
