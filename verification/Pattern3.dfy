/** The round-robin WebSocket dispatcher of Pattern 3. */
module Pattern3 {
  import opened Models

  const SEND_BUFFER := 64

  /** Identity of a `*workerConn`. */
  type ConnID = nat

  /** A connection: the dispatcher's half (`busy`, `send`, `closed`, the two pumps) and the
      far half (the socket, the worker's current task, the terminal events on the way back). */
  datatype Conn = Conn(
    busy: bool,
    send: seq<Task>,
    closed: bool,
    writing: bool,          // writePump is still running
    leaving: bool,          // readPump has removed the connection and has yet to close `send`
    wire: seq<Task>,
    held: Option<Task>,
    reports: nat,
    clearing: bool)         // readPump has forwarded a terminal event and has yet to clear `busy`

  const NEW_CONN := Conn(false, [], false, true, false, [], None, 0, false)

  datatype State = State(workers: seq<ConnID>, nextIdx: nat, conns: map<ConnID, Conn>)

  ghost predicate Linked(s: State) {
    forall i :: 0 <= i < |s.workers| ==> s.workers[i] in s.conns
  }

  // ---- the scan ----

  function Wrap(i: nat, n: nat): (k: nat)
    requires n > 0
    ensures k < n
  {
    i % n
  }

  /** The index that iteration `i` of the scan looks at. */
  function Index(s: State, i: nat): (k: nat)
    requires s.workers != []
    ensures k < |s.workers|
  {
    Wrap(s.nextIdx + i, |s.workers|)
  }

  predicate IdleAt(s: State, k: nat)
    requires k < |s.workers| && s.workers[k] in s.conns
  {
    !s.conns[s.workers[k]].busy
  }

  /** The first iteration from `i` on that finds an idle worker. */
  function Scan(s: State, i: nat): (r: Option<nat>)
    requires s.workers != [] && Linked(s) && i <= |s.workers|
    ensures r.Some? ==> i <= r.value < |s.workers| && IdleAt(s, Index(s, r.value))
    ensures forall j :: i <= j < (if r.Some? then r.value else |s.workers|) ==> !IdleAt(s, Index(s, j))
    decreases |s.workers| - i
  {
    if i == |s.workers| then None
    else if IdleAt(s, Index(s, i)) then Some(i)
    else Scan(s, i + 1)
  }

  lemma ScanStep(s: State, i: nat)
    requires s.workers != [] && Linked(s) && i <= |s.workers|
    ensures Scan(s, i) == if i == |s.workers| then None
                          else if IdleAt(s, Index(s, i)) then Some(i) else Scan(s, i + 1)
  {
  }

  datatype Outcome = Sent | NoWorkers | MarshalError

  function Dispatched(s: State, task: Task, marshals: bool): (r: (State, Outcome))
    requires Linked(s)
  {
    if s.workers == [] || Scan(s, 0).None? then (s, NoWorkers)
    else
      var k := Index(s, Scan(s, 0).value);
      var c := s.workers[k];
      var s' := s.(nextIdx := Wrap(k + 1, |s.workers|));
      if !marshals then (s', MarshalError)
      else if |s.conns[c].send| < SEND_BUFFER then
        (s'.(conns := s.conns[c := s.conns[c].(busy := true, send := s.conns[c].send + [task])]), Sent)
      else (s', NoWorkers)
  }

  function Without(workers: seq<ConnID>, c: ConnID): seq<ConnID> {
    if workers == [] then []
    else if workers[0] == c then workers[1..]
    else [workers[0]] + Without(workers[1..], c)
  }

  lemma {:induction false} WithoutAt(workers: seq<ConnID>, c: ConnID, i: nat)
    requires i < |workers| && workers[i] == c && c !in workers[..i]
    ensures Without(workers, c) == workers[..i] + workers[i+1..]
  {
    if i > 0 {
      assert workers[0] in workers[..i];
      assert workers[1..][..i-1] == workers[..i][1..];
      WithoutAt(workers[1..], c, i - 1);
      assert workers[..i] == [workers[0]] + workers[1..][..i-1];
    }
  }

  lemma {:induction false} WithoutNone(workers: seq<ConnID>, c: ConnID)
    requires c !in workers
    ensures Without(workers, c) == workers
  {
    if workers != [] { WithoutNone(workers[1..], c); }
  }

  class WebSocketDispatcher {
    var workers: seq<ConnID>
    var nextIdx: nat
    var conns: map<ConnID, Conn>

    ghost function AsState(): State
      reads this
    {
      State(workers, nextIdx, conns)
    }

    constructor ()
      ensures AsState() == State([], 0, map[])
    {
      workers, nextIdx, conns := [], 0, map[];
    }

    method Register(c: ConnID)
      requires c !in conns
      modifies this
      ensures AsState() == State(old(workers) + [c], old(nextIdx), old(conns)[c := NEW_CONN])
    {
      conns := conns[c := NEW_CONN];
      workers := workers + [c];
    }

    /** The rest of Dispatch once iteration `i` of the scan has found an idle worker. */
    method SendTo(i: nat, task: Task, marshals: bool) returns (outcome: Outcome)
      requires Linked(AsState()) && workers != [] && Scan(AsState(), 0) == Some(i)
      modifies this
      ensures (AsState(), outcome) == Dispatched(old(AsState()), task, marshals)
    {
      hide Scan, Wrap;
      ghost var before := conns;
      var idx := Wrap(nextIdx + i, |workers|);
      var c := workers[idx];
      conns := conns[c := conns[c].(busy := true)];
      nextIdx := Wrap(idx + 1, |workers|);
      if !marshals {
        conns := conns[c := conns[c].(busy := false)];
        assert conns == before;
        return MarshalError;
      }
      if |conns[c].send| < SEND_BUFFER {
        conns := conns[c := conns[c].(send := conns[c].send + [task])];
        assert conns == before[c := before[c].(busy := true, send := before[c].send + [task])];
        return Sent;
      }
      conns := conns[c := conns[c].(busy := false)];
      assert conns == before;
      return NoWorkers;
    }

    /** `marshals` says whether the task can be encoded. */
    method Dispatch(task: Task, marshals: bool) returns (outcome: Outcome)
      requires Linked(AsState())
      modifies this
      ensures (AsState(), outcome) == Dispatched(old(AsState()), task, marshals)
    {
      var n := |workers|;
      if n == 0 {
        return NoWorkers;
      }
      hide Scan, Wrap;
      ghost var s := AsState();
      ScanStep(s, n);
      var i := 0;
      while i < n
        invariant 0 <= i <= n
        invariant AsState() == s
        invariant Scan(s, 0) == Scan(s, i)
      {
        ScanStep(s, i);
        if !conns[workers[Wrap(nextIdx + i, n)]].busy {
          outcome := SendTo(i, task, marshals);
          return;
        }
        i := i + 1;
      }
      outcome := NoWorkers;
    }

    method Remove(c: ConnID)
      modifies this
      ensures AsState() == old(AsState()).(workers := Without(old(workers), c))
    {
      var i := 0;
      while i < |workers|
        invariant 0 <= i <= |workers|
        invariant AsState() == old(AsState())
        invariant c !in workers[..i]
      {
        if workers[i] == c {
          WithoutAt(workers, c, i);
          workers := workers[..i] + workers[i+1..];
          return;
        }
        i := i + 1;
      }
      WithoutNone(workers, c);
    }
  }

  // ---- the scan visits every worker exactly once ----

  /** How many iterations the scan needs to reach index `k`. */
  function Distance(s: State, k: nat): (d: nat)
    requires k < |s.workers|
    ensures d < |s.workers|
  {
    (k - s.nextIdx) % |s.workers|
  }

  lemma MulSmall(q: int, n: int)
    requires -n < q * n < n
    ensures q == 0
  {
  }

  lemma ModUnique(a: int, b: int, n: nat, q: int)
    requires 0 <= a < n && 0 <= b < n && a - b == q * n
    ensures a == b
  {
    MulSmall(q, n);
  }

  lemma WrapQuotient(i: nat, n: nat) returns (q: int)
    requires n > 0
    ensures i == q * n + Wrap(i, n)
  {
    q := i / n;
  }

  lemma DistanceQuotient(s: State, k: nat) returns (q: int)
    requires k < |s.workers|
    ensures k - s.nextIdx == q * |s.workers| + Distance(s, k)
  {
    q := (k - s.nextIdx) / |s.workers|;
  }

  lemma Distribute(a: int, b: int, n: int)
    ensures (a + b) * n == a * n + b * n
    ensures (-a - b) * n == -(a * n) - b * n
  {
  }

  /** Whatever `nextIdx` is, removal included, iteration `i` looks at `k` exactly when `i` is
      the cyclic distance of `k`: every index is visited once and only once. */
  lemma VisitsOnce(s: State, i: nat, k: nat)
    requires i < |s.workers| && k < |s.workers|
    ensures Index(s, i) == k <==> i == Distance(s, k)
  {
    hide Wrap, Distance;
    var n := |s.workers|;
    var q1 := WrapQuotient(s.nextIdx + i, n);
    var q2 := DistanceQuotient(s, k);
    Distribute(q1, q2, n);
    if Index(s, i) == k {
      ModUnique(i, Distance(s, k), n, q1 + q2);
    } else if i == Distance(s, k) {
      ModUnique(Index(s, i), k, n, -q1 - q2);
    }
  }

  /** A scan finds nobody exactly when every registered worker is busy. */
  lemma ScanFailsIff(s: State)
    requires s.workers != [] && Linked(s)
    ensures Scan(s, 0).None? <==> forall k :: 0 <= k < |s.workers| ==> !IdleAt(s, k)
  {
    if Scan(s, 0).None? {
      forall k | 0 <= k < |s.workers| ensures !IdleAt(s, k) {
        VisitsOnce(s, Distance(s, k), k);
      }
    }
  }

  /** Without an idle worker a call changes nothing. */
  lemma RefusalChangesNothing(s: State, task: Task, marshals: bool)
    requires Linked(s) && forall k :: 0 <= k < |s.workers| ==> !IdleAt(s, k)
    ensures Dispatched(s, task, marshals) == (s, NoWorkers)
  {
    if s.workers != [] { ScanFailsIff(s); }
  }

  /** With one, a call picks the idle worker nearest to the index in cyclic order and moves the index
      past it; only a message that was encoded and found room changes anything else. */
  lemma PicksTheNearest(s: State, task: Task, marshals: bool) returns (k: nat)
    requires Linked(s) && exists j :: 0 <= j < |s.workers| && IdleAt(s, j)
    ensures k < |s.workers| && IdleAt(s, k)
    ensures forall j :: 0 <= j < |s.workers| && j != k && IdleAt(s, j) ==> Distance(s, k) < Distance(s, j)
    ensures var (s', outcome) := Dispatched(s, task, marshals); var c := s.workers[k];
            && s'.workers == s.workers && s'.nextIdx == (if k + 1 == |s.workers| then 0 else k + 1)
            && (outcome.Sent? ==>
                  && marshals && |s.conns[c].send| < SEND_BUFFER
                  && s'.conns == s.conns[c := s.conns[c].(busy := true, send := s.conns[c].send + [task])])
            && (!outcome.Sent? ==> s'.conns == s.conns)
            && (outcome.MarshalError? <==> !marshals)
            && (outcome.NoWorkers? <==> marshals && |s.conns[c].send| >= SEND_BUFFER)
  {
    ScanFailsIff(s);
    var i := Scan(s, 0).value;
    k := Index(s, i);
    hide Distance;
    VisitsOnce(s, i, k);
    forall j | 0 <= j < |s.workers| && j != k && IdleAt(s, j) ensures Distance(s, k) < Distance(s, j) {
      VisitsOnce(s, Distance(s, j), j);
    }
    WrapNext(k, |s.workers|);
    hide Wrap;
  }

  lemma WrapNext(k: nat, n: nat)
    requires k < n
    ensures Wrap(k + 1, n) == if k + 1 == n then 0 else k + 1
  {
  }

  // ---- no starvation ----

  ghost predicate Picks(s: State, k: nat)
    requires Linked(s) && s.workers != []
  {
    Scan(s, 0).Some? && Index(s, Scan(s, 0).value) == k
  }

  lemma NextScan(s: State, task: Task, marshals: bool)
    requires Linked(s) && s.workers != [] && Scan(s, 0).Some?
    ensures var s' := Dispatched(s, task, marshals).0;
            s'.workers == s.workers && s'.nextIdx == Wrap(Index(s, Scan(s, 0).value) + 1, |s.workers|)
  {
  }

  /** The scan after one that stopped at iteration `i` starts i + 1 places further on. */
  lemma ShiftedVisit(s: State, s': State, i: nat, d: nat)
    requires i < d < |s.workers| && s'.workers == s.workers
    requires s'.nextIdx == Wrap(Index(s, i) + 1, |s.workers|)
    ensures Index(s', d - i - 1) == Index(s, d)
  {
    hide Wrap;
    ShiftedIndex(s.nextIdx, i, d, |s.workers|);
  }

  /** One call either picks an idle worker or strictly reduces its distance. */
  lemma DistanceFalls(s: State, k: nat, task: Task, marshals: bool)
    requires Linked(s) && k < |s.workers| && IdleAt(s, k)
    ensures Scan(s, 0).Some?
    ensures Picks(s, k) || Distance(Dispatched(s, task, marshals).0, k) < Distance(s, k)
  {
    hide Dispatched, Distance, Index, Scan;
    ScanFailsIff(s);
    NextScan(s, task, marshals);
    var s' := Dispatched(s, task, marshals).0;
    var i, d := Scan(s, 0).value, Distance(s, k);
    VisitsOnce(s, d, k);
    if i != d {
      ShiftedVisit(s, s', i, d);
      VisitsOnce(s', d - i - 1, k);
    }
  }

  lemma ShiftedIndex(next: nat, i: nat, d: nat, n: nat)
    requires i < d < n
    ensures Wrap(Wrap(Wrap(next + i, n) + 1, n) + (d - i - 1), n) == Wrap(next + d, n)
  {
    hide Wrap;
    WrapAdd(Wrap(next + i, n) + 1, d - i - 1, n);
    WrapAdd(next + i, d - i, n);
  }

  lemma WrapAdd(a: nat, b: nat, n: nat)
    requires n > 0
    ensures Wrap(Wrap(a, n) + b, n) == Wrap(a + b, n)
  {
    var q := a / n;
    assert a + b == (Wrap(a, n) + b) + q * n;
    ModShift(Wrap(a, n) + b, q, n);
  }

  lemma ModShift(x: nat, q: int, n: nat)
    requires n > 0 && x + q * n >= 0
    ensures (x + q * n) % n == x % n
  {
    var a, b := (x + q * n) % n, x % n;
    var p1, p2 := (x + q * n) / n, x / n;
    assert x + q * n == p1 * n + a && x == p2 * n + b;
    assert a - b == (q - p1 + p2) * n;
    ModUnique(a, b, n, q - p1 + p2);
  }

  /** `calls[t]` is the state at the t-th call of Dispatch. Between calls busy flags and buffers
      may change freely; the membership is fixed and only Dispatch moves `nextIdx`. */
  ghost predicate Calls(calls: seq<State>, tasks: seq<Task>, marshals: seq<bool>) {
    && |calls| == |tasks| == |marshals|
    && (forall t :: 0 <= t < |calls| ==> Linked(calls[t]))
    && (forall t :: 0 < t < |calls| ==>
          && calls[t].workers == calls[t-1].workers
          && calls[t].nextIdx == Dispatched(calls[t-1], tasks[t-1], marshals[t-1]).0.nextIdx)
  }

  lemma {:induction false} DistanceBound(calls: seq<State>, tasks: seq<Task>, marshals: seq<bool>, k: nat, t: nat)
    requires Calls(calls, tasks, marshals) && t < |calls|
    requires k < |calls[0].workers|
    requires forall u :: 0 <= u <= t ==> k < |calls[u].workers| && IdleAt(calls[u], k)
    requires forall u :: 0 <= u < t ==> !Picks(calls[u], k)
    ensures Distance(calls[t], k) + t < |calls[t].workers|
  {
    if t > 0 {
      DistanceBound(calls, tasks, marshals, k, t - 1);
      DistanceFalls(calls[t-1], k, tasks[t-1], marshals[t-1]);
    }
  }

  lemma PickedFrom(calls: seq<State>, tasks: seq<Task>, marshals: seq<bool>, k: nat, from: nat) returns (t: nat)
    requires Calls(calls, tasks, marshals) && calls != [] && from < |calls[0].workers| <= |calls|
    requires k < |calls[0].workers|
    requires forall u :: 0 <= u < |calls| ==> k < |calls[u].workers| && IdleAt(calls[u], k)
    requires forall u :: 0 <= u < from ==> !Picks(calls[u], k)
    ensures t < |calls[0].workers| && Picks(calls[t], k)
    decreases |calls| - from
  {
    hide Picks, Dispatched, Distance, IdleAt;
    if Picks(calls[from], k) {
      t := from;
    } else {
      SameMembers(calls, tasks, marshals, from);
      DistanceBound(calls, tasks, marshals, k, from);
      DistanceFalls(calls[from], k, tasks[from], marshals[from]);
      t := PickedFrom(calls, tasks, marshals, k, from + 1);
    }
  }

  lemma {:induction false} SameMembers(calls: seq<State>, tasks: seq<Task>, marshals: seq<bool>, t: nat)
    requires Calls(calls, tasks, marshals) && t < |calls|
    ensures calls[t].workers == calls[0].workers
  {
    if t > 0 { SameMembers(calls, tasks, marshals, t - 1); }
  }

  /** A worker that is idle at each of n consecutive calls, n the number of workers, is picked
      by one of them. */
  lemma NoStarvation(calls: seq<State>, tasks: seq<Task>, marshals: seq<bool>, k: nat) returns (t: nat)
    requires Calls(calls, tasks, marshals) && calls != []
    requires k < |calls[0].workers| <= |calls|
    requires forall u :: 0 <= u < |calls| ==> k < |calls[u].workers| && IdleAt(calls[u], k)
    ensures t < |calls[0].workers| && Picks(calls[t], k)
  {
    t := PickedFrom(calls, tasks, marshals, k, 0);
  }
}
