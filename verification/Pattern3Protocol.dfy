/** Pattern 3 as a step machine. Workers report exactly one terminal event on a connection for
    each task they received on it; in an execution foreign reports may come in as well, and in a
    run they find nothing outstanding. */
module Pattern3Protocol {
  import opened Models
  import opened Pattern3

  datatype Step =
    | Register(c: ConnID)
    | Dispatch(task: Task, marshals: bool)
    | Write(c: ConnID)               // writePump: one message from the buffer to the socket
    | WriteFails(c: ConnID)          // the message is lost and writePump ends
    | PingFails(c: ConnID)           // writePump ends with nothing in its hands
    | WorkerTakes(c: ConnID)
    | WorkerReports(c: ConnID)       // the executor's single terminal event
    | ForwardReport(c: ConnID)       // readPump: the blocking send to the manager
    | ClearBusy(c: ConnID)           // readPump: under the lock
    | ForeignReport(c: ConnID)       // readPump: a terminal event of a task of another connection
    | Disconnect(c: ConnID)          // readPump: remove, under the lock
    | CloseSend(c: ConnID)           // readPump: close, after the lock is released

  predicate Enabled(s: State, step: Step) {
    match step
    case Register(c) => c !in s.conns
    case Dispatch(_, _) => true
    case Write(c) => c in s.conns && s.conns[c].writing && s.conns[c].send != []
    case WriteFails(c) => c in s.conns && s.conns[c].writing && s.conns[c].send != []
    case PingFails(c) => c in s.conns && s.conns[c].writing
    case WorkerTakes(c) => c in s.conns && s.conns[c].wire != [] && s.conns[c].held.None?
    case WorkerReports(c) => c in s.conns && s.conns[c].held.Some?
    case ForwardReport(c) =>
      c in s.conns && c in s.workers && s.conns[c].reports > 0 && !s.conns[c].clearing
    case ClearBusy(c) => c in s.conns && s.conns[c].clearing
    case ForeignReport(c) => c in s.conns && c in s.workers && !s.conns[c].clearing
    case Disconnect(c) => c in s.conns && c in s.workers && !s.conns[c].clearing
    case CloseSend(c) => c in s.conns && s.conns[c].leaving
  }

  /** What the steps of one connection do to it. */
  function OnConn(k: Conn, step: Step): Conn {
    match step
    case Write(_) => if k.send == [] then k else k.(send := k.send[1..], wire := k.wire + [k.send[0]])
    case WriteFails(_) => if k.send == [] then k else k.(send := k.send[1..], writing := false)
    case PingFails(_) => k.(writing := false)
    case WorkerTakes(_) => if k.wire == [] then k else k.(wire := k.wire[1..], held := Some(k.wire[0]))
    case WorkerReports(_) => k.(held := None, reports := k.reports + 1)
    case ForwardReport(_) => if k.reports == 0 then k else k.(reports := k.reports - 1, clearing := true)
    case ClearBusy(_) => k.(busy := false, clearing := false)
    // Forwarding it only delays the reader; what it does to the connection is to clear `busy`.
    case ForeignReport(_) => k.(busy := false)
    case Disconnect(_) => k.(leaving := true)
    case CloseSend(_) => k.(closed := true, leaving := false)
    case _ => k
  }

  function Apply(s: State, step: Step): State
    requires Linked(s) && Enabled(s, step)
  {
    match step
    case Register(c) => State(s.workers + [c], s.nextIdx, s.conns[c := NEW_CONN])
    case Dispatch(task, marshals) => Dispatched(s, task, marshals).0
    case Disconnect(c) =>
      s.(workers := Without(s.workers, c), conns := s.conns[c := OnConn(s.conns[c], step)])
    case _ => s.(conns := s.conns[step.c := OnConn(s.conns[step.c], step)])
  }

  /** Tasks given to a connection whose completion has not yet freed it. */
  function Outstanding(k: Conn): nat {
    |k.send| + |k.wire| + (if k.held.Some? then 1 else 0) + k.reports + (if k.clearing then 1 else 0)
  }

  ghost predicate Distinct(workers: seq<ConnID>) {
    forall i, j :: 0 <= i < j < |workers| ==> workers[i] != workers[j]
  }

  /** At most one task is outstanding and none when idle; while writePump runs, a busy
      connection has exactly one. */
  ghost predicate ConnOk(k: Conn) {
    && Outstanding(k) <= (if k.busy then 1 else 0)
    && (k.writing && k.busy ==> Outstanding(k) == 1)
  }

  /** Members are distinct and open, and a channel that is still to be closed is open too. */
  ghost predicate Members(s: State) {
    && Linked(s) && Distinct(s.workers)
    && (forall i :: 0 <= i < |s.workers| ==> !s.conns[s.workers[i]].closed && !s.conns[s.workers[i]].leaving)
    && (forall c :: c in s.conns && s.conns[c].leaving ==> !s.conns[c].closed)
  }

  ghost predicate AllOk(s: State) {
    forall c :: c in s.conns ==> ConnOk(s.conns[c])
  }

  /** And a connection has at most one outstanding task and an idle one none. */
  ghost predicate Inv(s: State) {
    Members(s) && AllOk(s)
  }

  lemma {:induction false} WithoutKeeps(workers: seq<ConnID>, c: ConnID)
    requires Distinct(workers)
    ensures Distinct(Without(workers, c)) && c !in Without(workers, c)
    ensures forall x :: x in Without(workers, c) <==> x in workers && x != c
  {
    if workers != [] {
      var rest := workers[1..];
      assert workers[0] !in rest;
      WithoutKeeps(rest, c);
      if workers[0] != c {
        var r := Without(rest, c);
        assert Without(workers, c) == [workers[0]] + r;
        forall i, j | 0 <= i < j < |[workers[0]] + r| ensures ([workers[0]] + r)[i] != ([workers[0]] + r)[j] {
          if i == 0 { assert r[j-1] in r; }
        }
      }
    }
  }

  /** An idle registered connection always has room: the full-buffer branch is unreachable. */
  lemma IdleHasRoom(s: State, k: nat)
    requires Inv(s) && k < |s.workers| && IdleAt(s, k)
    ensures s.conns[s.workers[k]].send == []
  {
    assert ConnOk(s.conns[s.workers[k]]);
  }

  // ---- members stay distinct and open, whatever is reported ----

  lemma MembersDispatch(s: State, task: Task, marshals: bool)
    requires Members(s)
    ensures Members(Dispatched(s, task, marshals).0)
  {
  }

  lemma MembersDisconnect(s: State, c: ConnID)
    requires Members(s) && Enabled(s, Disconnect(c))
    ensures Members(Apply(s, Disconnect(c)))
  {
    WithoutKeeps(s.workers, c);
    var rest := Without(s.workers, c);
    forall i | 0 <= i < |rest| ensures rest[i] in s.workers && rest[i] != c {
      assert rest[i] in rest;
    }
    var k :| 0 <= k < |s.workers| && s.workers[k] == c;
    assert !s.conns[s.workers[k]].closed;
  }

  lemma MembersStep(s: State, step: Step)
    requires Members(s) && Enabled(s, step)
    ensures Members(Apply(s, step))
  {
    match step
    case Dispatch(task, marshals) =>
      hide Members;
      MembersDispatch(s, task, marshals);
    case Disconnect(c) =>
      hide Members;
      MembersDisconnect(s, c);
    case _ =>
  }

  // ---- at most one task per connection ----

  lemma DispatchKeeps(s: State, task: Task, marshals: bool)
    requires Inv(s)
    ensures AllOk(Dispatched(s, task, marshals).0)
  {
    if s.workers != [] && Scan(s, 0).Some? {
      var k := Index(s, Scan(s, 0).value);
      assert ConnOk(s.conns[s.workers[k]]);
    }
  }

  lemma OnConnKeeps(s: State, step: Step)
    requires Linked(s) && AllOk(s) && Enabled(s, step) && !step.Register? && !step.Dispatch?
    requires step.ForeignReport? ==> Outstanding(s.conns[step.c]) == 0
    ensures AllOk(Apply(s, step))
  {
    assert ConnOk(s.conns[step.c]);
  }

  /** Every step keeps the invariant, a foreign report if it finds nothing outstanding. */
  lemma InvStep(s: State, step: Step)
    requires Inv(s) && Enabled(s, step)
    requires step.ForeignReport? ==> Outstanding(s.conns[step.c]) == 0
    ensures Inv(Apply(s, step))
  {
    MembersStep(s, step);
    match step
    case Register(c) => assert ConnOk(NEW_CONN);
    case Dispatch(task, marshals) => DispatchKeeps(s, task, marshals);
    case _ => OnConnKeeps(s, step);
  }

  const INITIAL := State([], 0, map[])

  ghost predicate IsExecution(states: seq<State>, steps: seq<Step>) {
    && |states| == |steps| + 1 && states[0] == INITIAL
    && forall i :: 0 <= i < |steps| ==>
         Linked(states[i]) && Enabled(states[i], steps[i]) && states[i+1] == Apply(states[i], steps[i])
  }

  /** What the protocol depends on: no foreign report finds a task outstanding on the connection it
      arrives on. It is so when there are none. */
  ghost predicate HarmlessReports(states: seq<State>, steps: seq<Step>)
    requires IsExecution(states, steps)
  {
    forall i :: 0 <= i < |steps| && steps[i].ForeignReport? ==> Outstanding(states[i].conns[steps[i].c]) == 0
  }

  ghost predicate IsRun(states: seq<State>, steps: seq<Step>) {
    IsExecution(states, steps) && HarmlessReports(states, steps)
  }

  lemma {:induction false} RunInv(states: seq<State>, steps: seq<Step>, i: nat)
    requires IsRun(states, steps) && i < |states|
    ensures Inv(states[i])
  {
    hide Apply, Enabled;
    if i > 0 {
      RunInv(states, steps, i - 1);
      InvStep(states[i-1], steps[i-1]);
    }
  }

  lemma {:induction false} ExecutionMembers(states: seq<State>, steps: seq<Step>, i: nat)
    requires IsExecution(states, steps) && i < |states|
    ensures Members(states[i])
  {
    hide Apply, Enabled;
    if i > 0 {
      hide Members;
      ExecutionMembers(states, steps, i - 1);
      MembersStep(states[i-1], steps[i-1]);
    }
  }

  /** In every interleaving, foreign reports included: members are distinct and their channels open,
      every message Dispatch sends goes to exactly one connection, a member whose channel is open,
      and no channel is closed twice. */
  lemma NoSendOnClosedChannel(states: seq<State>, steps: seq<Step>, i: nat)
    requires IsExecution(states, steps) && i < |steps|
    ensures var s, s' := states[i], states[i+1];
            && Linked(s) && Distinct(s.workers)
            && (forall k :: 0 <= k < |s.workers| ==> !s.conns[s.workers[k]].closed)
            && (steps[i].Dispatch? && Dispatched(s, steps[i].task, steps[i].marshals).1.Sent? ==>
                  exists k :: 0 <= k < |s.workers| && !s.conns[s.workers[k]].closed &&
                    s'.conns == s.conns[s.workers[k] := GivenTask(s.conns[s.workers[k]], steps[i].task)])
            && (steps[i].Dispatch? && !Dispatched(s, steps[i].task, steps[i].marshals).1.Sent? ==>
                  s'.conns == s.conns)
            && (steps[i].CloseSend? ==> !s.conns[steps[i].c].closed)
  {
    ExecutionMembers(states, steps, i);
    assert Enabled(states[i], steps[i]);
    if steps[i].Dispatch? && Dispatched(states[i], steps[i].task, steps[i].marshals).1.Sent? {
      var k := Index(states[i], Scan(states[i], 0).value);
      assert !states[i].conns[states[i].workers[k]].closed;
    }
  }

  function GivenTask(k: Conn, task: Task): Conn {
    k.(busy := true, send := k.send + [task])
  }

  /** In every reachable state: at most one task outstanding per connection, an idle connection's
      buffer is empty, and every registered connection has an open channel. */
  lemma OneTaskPerConnection(states: seq<State>, steps: seq<Step>, i: nat)
    requires IsRun(states, steps) && i < |states|
    ensures var s := states[i];
            && Linked(s) && Distinct(s.workers)
            && (forall c :: c in s.conns ==> Outstanding(s.conns[c]) <= 1)
            && (forall c :: c in s.conns && !s.conns[c].busy ==> s.conns[c].send == [])
            && (forall k :: 0 <= k < |s.workers| ==> !s.conns[s.workers[k]].closed)
  {
    RunInv(states, steps, i);
    var s := states[i];
    forall c | c in s.conns ensures Outstanding(s.conns[c]) <= 1 && (!s.conns[c].busy ==> s.conns[c].send == []) {
      assert ConnOk(s.conns[c]);
    }
  }

  /** A busy registered connection whose writer runs can always move towards being freed: its
      task is in the buffer, on the wire, with the worker, or its report is on the way. */
  lemma BusyCanMove(states: seq<State>, steps: seq<Step>, i: nat, c: ConnID) returns (step: Step)
    requires IsRun(states, steps) && i < |states| && c in states[i].workers && c in states[i].conns
    requires states[i].conns[c].busy && states[i].conns[c].writing
    ensures step in {Write(c), WorkerTakes(c), WorkerReports(c), ForwardReport(c), ClearBusy(c)}
    ensures Enabled(states[i], step)
  {
    RunInv(states, steps, i);
    var k := states[i].conns[c];
    assert ConnOk(k);
    step := if k.send != [] then Write(c)
            else if k.wire != [] then WorkerTakes(c)
            else if k.held.Some? then WorkerReports(c)
            else if k.clearing then ClearBusy(c)
            else ForwardReport(c);
  }

  /** How far a connection is from being freed. */
  ghost function Remaining(k: Conn): nat {
    5 * |k.send| + 4 * |k.wire| + (if k.held.Some? then 3 else 0) + 2 * k.reports + (if k.clearing then 1 else 0)
  }

  /** Each of these steps brings the connection nearer, and the last one frees it. */
  lemma FreedInFiveSteps(k: Conn, step: Step)
    requires ConnOk(k) && k.writing && k.busy && !k.leaving
    requires step.Write? || step.WorkerTakes? || step.WorkerReports? || step.ForwardReport? || step.ClearBusy?
    requires OnConn(k, step) != k && (step.WorkerReports? ==> k.held.Some?) && (step.ClearBusy? ==> k.clearing)
    ensures Remaining(k) <= 5 && Remaining(OnConn(k, step)) < Remaining(k)
    ensures Remaining(OnConn(k, step)) == 0 <==> !OnConn(k, step).busy
  {
  }

  /** In every reachable state Dispatch refuses an encodable task exactly when there is no
      worker or all are busy; otherwise exactly one idle worker, on an open channel, gets it. */
  lemma DispatchRefusesIff(states: seq<State>, steps: seq<Step>, i: nat, task: Task)
    requires IsRun(states, steps) && i < |states|
    ensures var s := states[i];
            && Linked(s)
            && var (s', outcome) := Dispatched(s, task, true);
            && (outcome.NoWorkers? <==> forall k :: 0 <= k < |s.workers| ==> !IdleAt(s, k))
            && (!outcome.NoWorkers? ==>
                  && outcome.Sent?
                  && exists k :: 0 <= k < |s.workers| && IdleAt(s, k) && !s.conns[s.workers[k]].closed
                       && s'.conns == s.conns[s.workers[k] := s.conns[s.workers[k]].(busy := true, send := [task])])
  {
    RunInv(states, steps, i);
    var s := states[i];
    if s.workers != [] {
      ScanFailsIff(s);
      if Scan(s, 0).Some? {
        var k := Index(s, Scan(s, 0).value);
        IdleHasRoom(s, k);
        assert IdleAt(s, k) && !s.conns[s.workers[k]].closed;
        assert s.conns[s.workers[k]].send + [task] == [task];
      }
    }
  }

  // ---- why the hypothesis on workers is needed, and exactly when ----

  /** A foreign report does harm exactly when the connection it arrives on has a task outstanding,
      be it in the buffer, on the wire, with the worker or reported and not yet forwarded. */
  lemma ForeignReportKeepsIff(s: State, c: ConnID)
    requires Inv(s) && Enabled(s, ForeignReport(c))
    ensures Inv(Apply(s, ForeignReport(c))) <==> Outstanding(s.conns[c]) == 0
  {
    if Outstanding(s.conns[c]) == 0 {
      InvStep(s, ForeignReport(c));
    } else {
      assert !ConnOk(Apply(s, ForeignReport(c)).conns[c]);
    }
  }

  /** With foreign reports allowed, the protocol holds throughout an execution if and only if each
      of them finds nothing outstanding on the connection it arrives on. */
  lemma ProtocolHoldsIff(states: seq<State>, steps: seq<Step>)
    requires IsExecution(states, steps)
    ensures (forall i :: 0 <= i < |states| ==> Inv(states[i])) <==> HarmlessReports(states, steps)
  {
    if HarmlessReports(states, steps) {
      forall i | 0 <= i < |states| ensures Inv(states[i]) { RunInv(states, steps, i); }
    } else {
      hide Inv, Apply;
      var i :| 0 <= i < |steps| && steps[i].ForeignReport? && Outstanding(states[i].conns[steps[i].c]) != 0;
      if Inv(states[i]) {
        ForeignReportKeepsIff(states[i], steps[i].c);
        assert !Inv(states[i+1]);
      }
    }
  }

  /** What the harm is: when the other workers are busy, the next Dispatch gives the connection a
      second task beside the outstanding one. */
  lemma SecondTaskGiven(s: State, c: ConnID, task: Task)
    requires Inv(s) && Enabled(s, ForeignReport(c)) && Outstanding(s.conns[c]) == 1
    requires forall k :: 0 <= k < |s.workers| && s.workers[k] != c ==> !IdleAt(s, k)
    ensures var freed := Apply(s, ForeignReport(c));
            && Linked(freed)
            && var (after, outcome) := Dispatched(freed, task, true);
            outcome.Sent? && after.workers == s.workers && c in after.conns && Outstanding(after.conns[c]) == 2
  {
    var freed := Apply(s, ForeignReport(c));
    var k :| 0 <= k < |s.workers| && s.workers[k] == c;
    assert IdleAt(freed, k);
    assert forall j :: 0 <= j < |s.workers| && s.workers[j] != c ==> !IdleAt(freed, j);
    ScanFailsIff(freed);
    assert freed.workers[Index(freed, Scan(freed, 0).value)] == c;
    assert ConnOk(s.conns[c]);
  }

  /** One worker has connected and was given a task. */
  lemma OneBusyWorker(task: Task) returns (s1: State, s2: State)
    ensures Enabled(INITIAL, Register(0)) && s1 == Apply(INITIAL, Register(0))
    ensures Linked(s1) && s2 == Apply(s1, Dispatch(task, true))
    ensures Inv(s2) && s2.workers == [0] && s2.conns == map[0 := NEW_CONN.(busy := true, send := [task])]
  {
    s1 := Apply(INITIAL, Register(0));
    assert s1.workers == [0] && s1.conns[0] == NEW_CONN && Wrap(0, 1) == 0;
    assert Index(s1, 0) == 0 && IdleAt(s1, 0) && Scan(s1, 0) == Some(0);
    s2 := Apply(s1, Dispatch(task, true));
    assert [] + [task] == [task];
    assert s2.conns == map[0 := NEW_CONN.(busy := true, send := [task])];
    hide Scan, Index, Wrap, Dispatched;
    InvStep(INITIAL, Register(0));
    InvStep(s1, Dispatch(task, true));
  }

  /** And it is reached: one worker connects and gets a task, a foreign report arrives, and the
      next Dispatch makes two tasks outstanding on that connection. */
  lemma ForeignReportDoublesTasks(first: Task, second: Task) returns (states: seq<State>, steps: seq<Step>)
    ensures IsExecution(states, steps)
    ensures var s := states[|steps|]; s.workers == [0] && 0 in s.conns && Outstanding(s.conns[0]) == 2
  {
    var s1, s2 := OneBusyWorker(first);
    var s3 := Apply(s2, ForeignReport(0));
    SecondTaskGiven(s2, 0, second);
    hide Inv, Dispatched, Outstanding;
    var s4 := Apply(s3, Dispatch(second, true));
    states := [INITIAL, s1, s2, s3, s4];
    steps := [Register(0), Dispatch(first, true), ForeignReport(0), Dispatch(second, true)];
  }
}
