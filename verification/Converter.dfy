/** The protobuf messages of Pattern 4 and what survives a round trip. */
module Converter {
  import opened Models
  import Executor

  const INT32_MIN := -0x8000_0000
  const INT32_END := 0x8000_0000

  datatype ProtoTask = ProtoTask(
    id: string, title: string, status: Status, stages: seq<string>, createdAt: int, updatedAt: int, userId: string)

  datatype ProtoEvent = ProtoEvent(
    taskId: string, eventType: EventType, timestamp: int, userId: string,
    stageName: Option<string>, progress: Option<int>, status: Status)

  /** time.Time.Unix rounds down, also before 1970. */
  function Unix(t: int): int { t / SECOND }

  function FromUnix(seconds: int): int { seconds * SECOND }

  /** `seconds` is the second in which the time `t` lies. */
  predicate IsSecondOf(seconds: int, t: int) {
    seconds * 1_000_000_000 <= t < (seconds + 1) * 1_000_000_000
  }

  function UpdatedAt(t: Task): int {
    if t.completedAt.Some? then Unix(t.completedAt.value)
    else if t.dispatchedAt.Some? then Unix(t.dispatchedAt.value)
    else Unix(t.submittedAt)
  }

  function ToProto(t: Task): ProtoTask {
    ProtoTask(t.id, t.name, t.status, seq(|t.stages|, i requires 0 <= i < |t.stages| => t.stages[i].name),
              Unix(t.submittedAt), UpdatedAt(t), t.userID)
  }

  function FromProto(p: ProtoTask): Task {
    var updated := if p.updatedAt != p.createdAt then Some(FromUnix(p.updatedAt)) else None;
    Task(p.id, p.title, p.status, p.userId, FromUnix(p.createdAt),
         if p.status.Running? then updated else None,
         if IsTerminal(p.status) then updated else None,
         seq(|p.stages|, i requires 0 <= i < |p.stages| => Stage(i, p.stages[i])))
  }

  method TaskToProto(t: Task) returns (p: ProtoTask)
    ensures p == ToProto(t)
    ensures p.id == t.id && p.title == t.name && p.status == t.status && p.userId == t.userID
    ensures |p.stages| == |t.stages| && forall i :: 0 <= i < |t.stages| ==> p.stages[i] == t.stages[i].name
    ensures IsSecondOf(p.createdAt, t.submittedAt)
    ensures IsSecondOf(p.updatedAt, if t.completedAt.Some? then t.completedAt.value
                                    else if t.dispatchedAt.Some? then t.dispatchedAt.value else t.submittedAt)
  {
    var stages := [];
    while |stages| < |t.stages|
      invariant |stages| <= |t.stages|
      invariant forall i :: 0 <= i < |stages| ==> stages[i] == t.stages[i].name
    {
      stages := stages + [t.stages[|stages|].name];
    }
    var updatedAt := Unix(t.submittedAt);
    if t.completedAt.Some? {
      updatedAt := Unix(t.completedAt.value);
    } else if t.dispatchedAt.Some? {
      updatedAt := Unix(t.dispatchedAt.value);
    }
    p := ProtoTask(t.id, t.name, t.status, stages, Unix(t.submittedAt), updatedAt, t.userID);
    assert p.stages == ToProto(t).stages;
  }

  method ProtoToTask(p: ProtoTask) returns (t: Task)
    ensures t == FromProto(p)
    ensures t.id == p.id && t.name == p.title && t.status == p.status && t.userID == p.userId
    ensures t.submittedAt == p.createdAt * SECOND
    ensures |t.stages| == |p.stages| && forall i :: 0 <= i < |p.stages| ==> t.stages[i] == Stage(i, p.stages[i])
    ensures t.completedAt.Some? <==> p.updatedAt != p.createdAt && IsTerminal(p.status)
    ensures t.dispatchedAt.Some? <==> p.updatedAt != p.createdAt && p.status.Running?
    ensures t.completedAt.Some? ==> t.completedAt.value == p.updatedAt * SECOND
    ensures t.dispatchedAt.Some? ==> t.dispatchedAt.value == p.updatedAt * SECOND
  {
    var stages := [];
    while |stages| < |p.stages|
      invariant |stages| <= |p.stages|
      invariant forall i :: 0 <= i < |stages| ==> stages[i] == Stage(i, p.stages[i])
    {
      stages := stages + [Stage(|stages|, p.stages[|stages|])];
    }
    var dispatchedAt, completedAt := None, None;
    if p.updatedAt != p.createdAt {
      var at := FromUnix(p.updatedAt);
      if p.status.Completed? || p.status.Failed? {
        completedAt := Some(at);
      } else if p.status.Running? {
        dispatchedAt := Some(at);
      }
    }
    t := Task(p.id, p.title, p.status, p.userId, FromUnix(p.createdAt), dispatchedAt, completedAt, stages);
    assert t.stages == FromProto(p).stages;
  }

  function RoundTrip(t: Task): Task { FromProto(ToProto(t)) }

  /** What a task keeps on the wire. */
  lemma RoundTripKeeps(t: Task)
    ensures var r := RoundTrip(t);
            && r.id == t.id && r.name == t.name && r.status == t.status && r.userID == t.userID
            && r.submittedAt <= t.submittedAt < r.submittedAt + SECOND && r.submittedAt % SECOND == 0
            && |r.stages| == |t.stages|
            && (forall i :: 0 <= i < |t.stages| ==> r.stages[i] == Stage(i, t.stages[i].name))
  {
  }

  /** A second round trip changes nothing. */
  lemma RoundTripIdempotent(t: Task)
    ensures RoundTrip(RoundTrip(t)) == RoundTrip(t)
  {
    var r := RoundTrip(t);
    assert ToProto(r).stages == ToProto(t).stages;
    assert Unix(FromUnix(Unix(t.submittedAt))) == Unix(t.submittedAt);
    assert Unix(FromUnix(UpdatedAt(t))) == UpdatedAt(t);
  }

  predicate WholeSeconds(t: int) { t % SECOND == 0 }

  /** A time the wire can carry beside the submit time. */
  predicate Carried(at: Option<int>, submittedAt: int) {
    at.Some? ==> WholeSeconds(at.value) && at.value != submittedAt
  }

  /** The tasks that survive unchanged: stages numbered by position, whole seconds, and no time
      but the one that goes with the status. */
  predicate Portable(t: Task) {
    && WholeSeconds(t.submittedAt)
    && (forall i :: 0 <= i < |t.stages| ==> t.stages[i].index == i)
    && (if IsTerminal(t.status) then t.dispatchedAt.None? && Carried(t.completedAt, t.submittedAt)
        else if t.status.Running? then t.completedAt.None? && Carried(t.dispatchedAt, t.submittedAt)
        else t.dispatchedAt.None? && t.completedAt.None?)
  }

  lemma RoundTripExactIff(t: Task)
    ensures RoundTrip(t) == t <==> Portable(t)
  {
    var r := RoundTrip(t);
    assert forall x: int :: FromUnix(Unix(x)) == x <==> WholeSeconds(x);
    if Portable(t) {
      assert r.stages == t.stages;
      assert r.submittedAt == t.submittedAt;
    } else if r == t {
      assert forall i :: 0 <= i < |t.stages| ==> r.stages[i].index == i;
      assert false;
    }
  }

  // ---- events ----

  /** Go's conversion to int32 keeps the low 32 bits. */
  function ToInt32(x: int): (r: int)
    ensures INT32_MIN <= r < INT32_END
    ensures INT32_MIN <= x < INT32_END ==> r == x
  {
    (x - INT32_MIN) % 0x1_0000_0000 + INT32_MIN
  }

  function EventToProto(e: TaskEvent, now: int): ProtoEvent {
    ProtoEvent(e.taskID, e.kind, Unix(now), e.userID,
               if e.stageName != "" then Some(e.stageName) else None,
               if e.progress != 0 then Some(ToInt32(e.progress)) else None,
               e.status)
  }

  function ProtoToEvent(p: ProtoEvent): TaskEvent {
    TaskEvent(p.eventType, p.taskId, p.userId,
              if p.stageName.Some? then p.stageName.value else "",
              if p.progress.Some? then p.progress.value else 0,
              p.status)
  }

  /** An event on the wire: the fields under their names, empty ones left out. */
  lemma EventOnTheWire(e: TaskEvent, now: int)
    ensures var p := EventToProto(e, now);
            && p.taskId == e.taskID && p.eventType == e.kind && p.userId == e.userID && p.status == e.status
            && IsSecondOf(p.timestamp, now)
            && (p.stageName.None? <==> e.stageName == "") && (p.stageName.Some? ==> p.stageName.value == e.stageName)
            && (p.progress.None? <==> e.progress == 0)
            && (p.progress.Some? ==> (p.progress.value - e.progress) % 0x1_0000_0000 == 0
                                     && -0x8000_0000 <= p.progress.value < 0x8000_0000)
  {
  }

  /** An event survives exactly when its progress fits in 32 bits. */
  lemma EventRoundTripIff(e: TaskEvent, now: int)
    ensures ProtoToEvent(EventToProto(e, now)) == e <==> INT32_MIN <= e.progress < INT32_END
  {
  }

  /** Every event of every execution survives. */
  lemma ExecutorEventsSurvive(task: Task, t: seq<TaskEvent>, i: nat, now: int)
    requires Executor.IsFullTrace(task, t, true) && i < |t|
    ensures ProtoToEvent(EventToProto(t[i], now)) == t[i]
  {
    Executor.CompletedTraceOrder(task);
    var c := Executor.CompletedTrace(task);
    assert i < |c| && t[i] == c[i] ==> t[i] in c;
    EventRoundTripIff(t[i], now);
  }
}
