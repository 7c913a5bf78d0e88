/** Pattern 3 as its steps tell it: who is registered and in which order, what the pumps of a
    connection have done, and which tasks went through it. All of it holds in every execution,
    whatever is reported. */
module Pattern3History {
  import opened Models
  import opened Pattern3
  import opened Pattern3Protocol

  ghost predicate Happened(steps: seq<Step>, n: nat, step: Step)
    requires n <= |steps|
  {
    exists k :: 0 <= k < n && steps[k] == step
  }

  lemma HappenedNext(steps: seq<Step>, n: nat, step: Step)
    requires n < |steps|
    ensures Happened(steps, n + 1, step) <==> Happened(steps, n, step) || steps[n] == step
  {
  }

  // ---- membership and the pumps ----

  /** What one step does to the standing of connection `c`. */
  ghost predicate Standing(s: State, step: Step, s': State, c: ConnID) {
    && (c in s'.conns <==> c in s.conns || step == Register(c))
    && (c in s'.workers <==> (c in s.workers || step == Register(c)) && step != Disconnect(c))
    && (c in s.conns ==>
          && step != Register(c)
          && (s'.conns[c].leaving <==> (s.conns[c].leaving || step == Disconnect(c)) && step != CloseSend(c))
          && (s'.conns[c].closed <==> s.conns[c].closed || step == CloseSend(c))
          && (s'.conns[c].writing <==> s.conns[c].writing && step != WriteFails(c) && step != PingFails(c)))
    && (c !in s.conns ==>
          && c !in s.workers && step != Disconnect(c) && step != CloseSend(c)
          && step != WriteFails(c) && step != PingFails(c)
          && (c in s'.conns ==> !s'.conns[c].leaving && !s'.conns[c].closed && s'.conns[c].writing))
    && (step == Disconnect(c) ==> c in s.workers)
    && (c in s.workers && c in s.conns ==> !s.conns[c].leaving && !s.conns[c].closed)
  }

  lemma MemberOpen(s: State, c: ConnID)
    requires Members(s) && c in s.workers
    ensures c in s.conns && !s.conns[c].leaving && !s.conns[c].closed
  {
    var k :| 0 <= k < |s.workers| && s.workers[k] == c;
    assert s.workers[k] in s.conns;
  }

  lemma DispatchStanding(s: State, task: Task, marshals: bool)
    requires Linked(s)
    ensures var s' := Dispatched(s, task, marshals).0;
            && s'.workers == s.workers && s'.conns.Keys == s.conns.Keys
            && forall c :: c in s.conns ==>
                 s'.conns[c] == s.conns[c].(busy := s'.conns[c].busy, send := s'.conns[c].send)
  {
  }

  lemma StandingOwn(s: State, step: Step, c: ConnID)
    requires Members(s) && Enabled(s, step) && !step.Dispatch? && !step.Disconnect?
    ensures Standing(s, step, Apply(s, step), c)
  {
    if c in s.workers { MemberOpen(s, c); }
    hide Members, Distinct;
  }

  lemma StandingStep(s: State, step: Step, c: ConnID)
    requires Members(s) && Enabled(s, step)
    ensures Standing(s, step, Apply(s, step), c)
  {
    if c in s.workers { MemberOpen(s, c); }
    match step
    case Dispatch(task, marshals) =>
      DispatchStanding(s, task, marshals);
      hide Dispatched, Members;
    case Disconnect(d) =>
      WithoutMembers(s, d);
      hide Members;
    case _ =>
      hide Members, Standing;
      StandingOwn(s, step, c);
  }

  lemma WithoutMembers(s: State, d: ConnID)
    requires Members(s)
    ensures forall x :: x in Without(s.workers, d) <==> x in s.workers && x != d
  {
    WithoutKeeps(s.workers, d);
  }

  ghost predicate ConnHistory(s: State, steps: seq<Step>, n: nat, c: ConnID)
    requires n <= |steps|
  {
    && (c in s.conns <==> Happened(steps, n, Register(c)))
    && (c in s.workers <==> Happened(steps, n, Register(c)) && !Happened(steps, n, Disconnect(c)))
    && (c in s.conns ==>
          && (s.conns[c].leaving <==> Happened(steps, n, Disconnect(c)) && !Happened(steps, n, CloseSend(c)))
          && (s.conns[c].closed <==> Happened(steps, n, CloseSend(c)))
          && (s.conns[c].writing <==> !Happened(steps, n, WriteFails(c)) && !Happened(steps, n, PingFails(c))))
    && (c !in s.conns ==>
          && !Happened(steps, n, Disconnect(c)) && !Happened(steps, n, CloseSend(c))
          && !Happened(steps, n, WriteFails(c)) && !Happened(steps, n, PingFails(c)))
  }

  lemma HistoryNext(s: State, s': State, steps: seq<Step>, n: nat, c: ConnID)
    requires n < |steps| && ConnHistory(s, steps, n, c) && Standing(s, steps[n], s', c)
    ensures ConnHistory(s', steps, n + 1, c)
  {
    hide Happened;
    HappenedNext(steps, n, Register(c));
    HappenedNext(steps, n, Disconnect(c));
    HappenedNext(steps, n, CloseSend(c));
    HappenedNext(steps, n, WriteFails(c));
    HappenedNext(steps, n, PingFails(c));
  }

  /** In every execution: a connection is registered exactly when its Register has happened and its
      Disconnect has not; its channel is closed exactly when its close has happened; and its writer
      runs exactly as long as no write or ping of it has failed. */
  lemma {:induction false} RegisteredIff(states: seq<State>, steps: seq<Step>, i: nat, c: ConnID)
    requires IsExecution(states, steps) && i < |states|
    ensures ConnHistory(states[i], steps, i, c)
  {
    hide Apply, Enabled;
    if i > 0 {
      hide ConnHistory, Standing, Members;
      RegisteredIff(states, steps, i - 1, c);
      ExecutionMembers(states, steps, i - 1);
      StandingStep(states[i-1], steps[i-1], c);
      HistoryNext(states[i-1], states[i], steps, i - 1, c);
    }
  }

  // ---- the order of the worker list, and the index ----

  ghost predicate RegisteredBefore(steps: seq<Step>, n: nat, c: ConnID, d: ConnID)
    requires n <= |steps|
  {
    exists a, b :: 0 <= a < b < n && steps[a] == Register(c) && steps[b] == Register(d)
  }

  ghost predicate InOrder(workers: seq<ConnID>, steps: seq<Step>, n: nat)
    requires n <= |steps|
  {
    forall p, q :: 0 <= p < q < |workers| ==> RegisteredBefore(steps, n, workers[p], workers[q])
  }

  lemma {:induction false} WithoutOrder(workers: seq<ConnID>, d: ConnID, p: nat, q: nat) returns (p': nat, q': nat)
    requires p < q < |Without(workers, d)|
    ensures p' < q' < |workers|
    ensures workers[p'] == Without(workers, d)[p] && workers[q'] == Without(workers, d)[q]
  {
    if workers[0] == d {
      p', q' := p + 1, q + 1;
    } else if p == 0 {
      p' := 0;
      q' := WithoutPlace(workers[1..], d, q - 1);
      q' := q' + 1;
    } else {
      p', q' := WithoutOrder(workers[1..], d, p - 1, q - 1);
      p', q' := p' + 1, q' + 1;
    }
  }

  lemma {:induction false} WithoutPlace(workers: seq<ConnID>, d: ConnID, q: nat) returns (q': nat)
    requires q < |Without(workers, d)|
    ensures q' < |workers| && workers[q'] == Without(workers, d)[q]
  {
    if workers[0] == d {
      q' := q + 1;
    } else if q == 0 {
      q' := 0;
    } else {
      q' := WithoutPlace(workers[1..], d, q - 1);
      q' := q' + 1;
    }
  }

  lemma OrderMore(workers: seq<ConnID>, steps: seq<Step>, n: nat)
    requires n < |steps| && InOrder(workers, steps, n)
    ensures InOrder(workers, steps, n + 1)
  {
    forall p, q | 0 <= p < q < |workers| ensures RegisteredBefore(steps, n + 1, workers[p], workers[q]) {
      assert RegisteredBefore(steps, n, workers[p], workers[q]);
    }
  }

  lemma OrderRegister(s: State, steps: seq<Step>, n: nat, c: ConnID)
    requires n < |steps| && InOrder(s.workers, steps, n) && steps[n] == Register(c)
    requires forall w :: w in s.workers ==> Happened(steps, n, Register(w))
    ensures InOrder(s.workers + [c], steps, n + 1)
  {
    OrderMore(s.workers, steps, n);
    var workers := s.workers + [c];
    forall p, q | 0 <= p < q < |workers| ensures RegisteredBefore(steps, n + 1, workers[p], workers[q]) {
      if q < |s.workers| {
        assert RegisteredBefore(steps, n + 1, s.workers[p], s.workers[q]);
      } else {
        assert workers[p] in s.workers;
        var a :| 0 <= a < n && steps[a] == Register(workers[p]);
        assert steps[n] == Register(workers[q]);
      }
    }
  }

  lemma OrderDisconnect(s: State, steps: seq<Step>, n: nat, d: ConnID)
    requires n < |steps| && InOrder(s.workers, steps, n)
    ensures InOrder(Without(s.workers, d), steps, n + 1)
  {
    OrderMore(s.workers, steps, n);
    var rest := Without(s.workers, d);
    forall p, q | 0 <= p < q < |rest| ensures RegisteredBefore(steps, n + 1, rest[p], rest[q]) {
      var p', q' := WithoutOrder(s.workers, d, p, q);
      assert RegisteredBefore(steps, n + 1, s.workers[p'], s.workers[q']);
    }
  }

  lemma OrderStep(s: State, steps: seq<Step>, n: nat)
    requires n < |steps| && InOrder(s.workers, steps, n) && Linked(s) && Enabled(s, steps[n])
    requires forall w :: w in s.workers ==> Happened(steps, n, Register(w))
    ensures InOrder(Apply(s, steps[n]).workers, steps, n + 1)
  {
    hide InOrder;
    match steps[n]
    case Register(c) => OrderRegister(s, steps, n, c);
    case Disconnect(d) => OrderDisconnect(s, steps, n, d);
    case Dispatch(task, marshals) =>
      DispatchStanding(s, task, marshals);
      hide Dispatched;
      OrderMore(s.workers, steps, n);
    case _ => OrderMore(s.workers, steps, n);
  }

  /** In every execution the worker list is in the order of registration. */
  lemma {:induction false} WorkersInOrder(states: seq<State>, steps: seq<Step>, i: nat)
    requires IsExecution(states, steps) && i < |states|
    ensures InOrder(states[i].workers, steps, i)
  {
    hide Apply, Enabled;
    if i > 0 {
      hide InOrder;
      WorkersInOrder(states, steps, i - 1);
      forall w | w in states[i-1].workers ensures Happened(steps, i - 1, Register(w)) {
        RegisteredIff(states, steps, i - 1, w);
      }
      OrderStep(states[i-1], steps, i - 1);
    }
  }

  /** In every execution a Dispatch that finds no idle worker leaves the whole state as it was,
      and no step but a Dispatch moves the index. */
  lemma RefusedOrOther(states: seq<State>, steps: seq<Step>, i: nat)
    requires IsExecution(states, steps) && i < |steps|
    ensures Linked(states[i])
    ensures steps[i].Dispatch? && (forall k :: 0 <= k < |states[i].workers| ==> !IdleAt(states[i], k)) ==>
              states[i+1] == states[i]
    ensures !steps[i].Dispatch? ==> states[i+1].nextIdx == states[i].nextIdx
  {
    var s := states[i];
    assert states[i+1] == Apply(s, steps[i]);
    if steps[i].Dispatch? && forall k :: 0 <= k < |s.workers| ==> !IdleAt(s, k) {
      RefusalChangesNothing(s, steps[i].task, steps[i].marshals);
    }
  }

  // ---- the tasks of a connection ----

  ghost function SendOf(s: State, c: ConnID): seq<Task> { if c in s.conns then s.conns[c].send else [] }

  ghost function WireOf(s: State, c: ConnID): seq<Task> { if c in s.conns then s.conns[c].wire else [] }

  /** The task that Dispatch put into the connection's channel, if the step did. */
  ghost function GivenBy(s: State, step: Step, s': State, c: ConnID): seq<Task> {
    if step.Dispatch? && |SendOf(s', c)| > |SendOf(s, c)| then [step.task] else []
  }

  /** The task that the worker started, if the step did. */
  ghost function TakenBy(step: Step, s': State, c: ConnID): seq<Task> {
    if step == WorkerTakes(c) && c in s'.conns && s'.conns[c].held.Some? then [s'.conns[c].held.value] else []
  }

  /** The message whose write failed. */
  ghost function LostBy(s: State, step: Step, c: ConnID): seq<Task> {
    if step == WriteFails(c) && SendOf(s, c) != [] then [SendOf(s, c)[0]] else []
  }

  ghost function Given(states: seq<State>, steps: seq<Step>, n: nat, c: ConnID): seq<Task>
    requires n <= |steps| < |states|
  {
    if n == 0 then [] else Given(states, steps, n - 1, c) + GivenBy(states[n-1], steps[n-1], states[n], c)
  }

  ghost function Taken(states: seq<State>, steps: seq<Step>, n: nat, c: ConnID): seq<Task>
    requires n <= |steps| < |states|
  {
    if n == 0 then [] else Taken(states, steps, n - 1, c) + TakenBy(steps[n-1], states[n], c)
  }

  ghost function Lost(states: seq<State>, steps: seq<Step>, n: nat, c: ConnID): seq<Task>
    requires n <= |steps| < |states|
  {
    if n == 0 then [] else Lost(states, steps, n - 1, c) + LostBy(states[n-1], steps[n-1], c)
  }

  lemma DispatchFlow(s: State, task: Task, marshals: bool, c: ConnID)
    requires Linked(s)
    ensures var s' := Dispatched(s, task, marshals).0;
            && WireOf(s', c) == WireOf(s, c)
            && SendOf(s', c) == SendOf(s, c) + GivenBy(s, Dispatch(task, marshals), s', c)
  {
    assert SendOf(s, c) + [] == SendOf(s, c);
  }

  ghost predicate Writing(s: State, c: ConnID) { c in s.conns && s.conns[c].writing }

  lemma Written(wire: seq<Task>, send: seq<Task>)
    requires send != []
    ensures [] + (wire + [send[0]]) + ([] + []) + send[1..] == wire + [] + send
  {
    assert send == [send[0]] + send[1..];
  }

  lemma Dropped(wire: seq<Task>, send: seq<Task>)
    requires send != []
    ensures [] + wire + ([] + [send[0]]) + send[1..] == wire + [] + send
  {
    assert send == [send[0]] + send[1..];
  }

  lemma Started(wire: seq<Task>, lost: seq<Task>, send: seq<Task>)
    requires wire != []
    ensures [wire[0]] + wire[1..] + (lost + []) + send == wire + lost + send
  {
    assert wire == [wire[0]] + wire[1..];
  }

  lemma Unmoved(wire: seq<Task>, lost: seq<Task>, send: seq<Task>)
    ensures [] + wire + (lost + []) + send == wire + lost + send
  {
  }

  ghost predicate OnOne(step: Step) { !step.Register? && !step.Dispatch? }

  /** The tasks pass through a connection in order: of what is lost or taken, if anything, the place
      is the one it leaves. */
  ghost predicate Flows(s: State, step: Step, s': State, c: ConnID, lost: seq<Task>) {
    TakenBy(step, s', c) + WireOf(s', c) + (lost + LostBy(s, step, c)) + SendOf(s', c) ==
      WireOf(s, c) + lost + SendOf(s, c) + GivenBy(s, step, s', c)
  }

  lemma FlowsFrom(s: State, step: Step, s': State, c: ConnID, lost: seq<Task>)
    requires GivenBy(s, step, s', c) == []
    requires TakenBy(step, s', c) + WireOf(s', c) + (lost + LostBy(s, step, c)) + SendOf(s', c) ==
               WireOf(s, c) + lost + SendOf(s, c)
    ensures Flows(s, step, s', c, lost)
  {
    hide WireOf, SendOf, TakenBy, LostBy;
    assert WireOf(s, c) + lost + SendOf(s, c) + [] == WireOf(s, c) + lost + SendOf(s, c);
  }

  lemma FlowOwn(s: State, step: Step, c: ConnID, lost: seq<Task>)
    requires Linked(s) && Enabled(s, step) && (Writing(s, c) ==> lost == [])
    requires OnOne(step) && step.c == c
    ensures Writing(Apply(s, step), c) ==> lost + LostBy(s, step, c) == []
    ensures Flows(s, step, Apply(s, step), c, lost)
  {
    var k, s' := s.conns[c], Apply(s, step);
    assert s'.conns[c] == OnConn(k, step);
    if step.Write? {
      assert TakenBy(step, s', c) == [] && LostBy(s, step, c) == [] && lost == [];
      Written(k.wire, k.send);
    } else if step.WriteFails? {
      assert TakenBy(step, s', c) == [] && LostBy(s, step, c) == [k.send[0]] && lost == [];
      Dropped(k.wire, k.send);
    } else if step.WorkerTakes? {
      assert TakenBy(step, s', c) == [k.wire[0]] && LostBy(s, step, c) == [];
      Started(k.wire, lost, k.send);
    } else {
      assert TakenBy(step, s', c) == [] && LostBy(s, step, c) == [];
      assert s'.conns[c].wire == k.wire && s'.conns[c].send == k.send;
      Unmoved(k.wire, lost, k.send);
    }
    hide Flows, OnConn;
    FlowsFrom(s, step, s', c, lost);
  }

  lemma FlowOther(s: State, step: Step, c: ConnID, lost: seq<Task>)
    requires Linked(s) && Enabled(s, step) && (Writing(s, c) ==> lost == [])
    requires !step.Dispatch? && (step.c != c || step.Register?)
    ensures var s' := Apply(s, step);
            && (Writing(s', c) && c in s.conns ==> lost + LostBy(s, step, c) == [])
            && Flows(s, step, s', c, lost)
  {
    var s' := Apply(s, step);
    assert c in s.conns ==> s'.conns[c] == s.conns[c];
    assert WireOf(s', c) == WireOf(s, c) && SendOf(s', c) == SendOf(s, c);
    assert SendOf(s, c) + [] == SendOf(s, c);
  }

  lemma FlowStep(s: State, step: Step, c: ConnID, lost: seq<Task>)
    requires Linked(s) && Enabled(s, step) && (Writing(s, c) ==> lost == [])
    ensures var s' := Apply(s, step);
            && (Writing(s', c) && c in s.conns ==> lost + LostBy(s, step, c) == [])
            && Flows(s, step, s', c, lost)
  {
    if step.Dispatch? {
      DispatchFlow(s, step.task, step.marshals, c);
      DispatchStanding(s, step.task, step.marshals);
      hide Dispatched, WireOf, SendOf, GivenBy;
    } else if OnOne(step) && step.c == c {
      hide Apply, WireOf, SendOf, GivenBy, TakenBy, LostBy;
      FlowOwn(s, step, c, lost);
    } else {
      hide Apply, WireOf, SendOf, GivenBy, TakenBy, LostBy;
      FlowOther(s, step, c, lost);
    }
  }

  lemma Reassociate(a: seq<Task>, taken: seq<Task>, x: seq<Task>, l: seq<Task>, y: seq<Task>,
                    x0: seq<Task>, l0: seq<Task>, y0: seq<Task>, g: seq<Task>)
    requires taken + x + l + y == x0 + l0 + y0 + g
    ensures (a + taken) + x + l + y == (a + x0 + l0 + y0) + g
  {
    assert (a + taken) + x + l + y == a + (taken + x + l + y);
    assert a + (x0 + l0 + y0 + g) == (a + x0 + l0 + y0) + g;
  }

  /** In every execution the tasks Dispatch gave to a connection are, in order: those its worker
      started, those on the wire, the one whose write failed, if any, and those in its channel. */
  lemma {:induction false} TasksInOrder(states: seq<State>, steps: seq<Step>, i: nat, c: ConnID)
    requires IsExecution(states, steps) && i < |states|
    ensures Given(states, steps, i, c) ==
              Taken(states, steps, i, c) + WireOf(states[i], c) + Lost(states, steps, i, c) + SendOf(states[i], c)
    ensures Writing(states[i], c) || c !in states[i].conns ==> Lost(states, steps, i, c) == []
  {
    hide Apply, Enabled;
    if i > 0 {
      var s, step, s' := states[i-1], steps[i-1], states[i];
      TasksInOrder(states, steps, i - 1, c);
      ExecutionMembers(states, steps, i - 1);
      StandingStep(s, step, c);
      hide Members, WireOf, SendOf, GivenBy, TakenBy, LostBy;
      var lost := Lost(states, steps, i - 1, c);
      FlowStep(s, step, c, lost);
      if c !in s.conns { NoLossBefore(s, step, c); }
      Reassociate(Taken(states, steps, i - 1, c), TakenBy(step, s', c), WireOf(s', c), lost + LostBy(s, step, c),
                  SendOf(s', c), WireOf(s, c), lost, SendOf(s, c), GivenBy(s, step, s', c));
    }
  }

  lemma NoLossBefore(s: State, step: Step, c: ConnID)
    requires c !in s.conns
    ensures LostBy(s, step, c) == []
  {
  }

  // ---- the reports of a connection ----

  ghost function Count(steps: seq<Step>, n: nat, step: Step): nat
    requires n <= |steps|
  {
    if n == 0 then 0 else Count(steps, n - 1, step) + if steps[n-1] == step then 1 else 0
  }

  ghost function One(b: bool): nat { if b then 1 else 0 }

  ghost function HeldOf(s: State, c: ConnID): nat { One(c in s.conns && s.conns[c].held.Some?) }

  ghost function ReportsOf(s: State, c: ConnID): nat { if c in s.conns then s.conns[c].reports else 0 }

  ghost function ClearingOf(s: State, c: ConnID): nat { One(c in s.conns && s.conns[c].clearing) }

  lemma ReportStep(s: State, step: Step, c: ConnID)
    requires Linked(s) && Enabled(s, step)
    ensures var s' := Apply(s, step);
            && HeldOf(s', c) + One(step == WorkerReports(c)) == HeldOf(s, c) + |TakenBy(step, s', c)|
            && ReportsOf(s', c) + One(step == ForwardReport(c)) == ReportsOf(s, c) + One(step == WorkerReports(c))
            && ClearingOf(s', c) + One(step == ClearBusy(c)) == ClearingOf(s, c) + One(step == ForwardReport(c))
  {
    if step.Dispatch? {
      DispatchStanding(s, step.task, step.marshals);
      hide Dispatched;
    }
  }

  /** In every execution every task the worker of a connection started is held by it or was reported,
      every report waits or was forwarded, and every forwarded one has freed the connection or is
      about to. */
  lemma {:induction false} ReportsCounted(states: seq<State>, steps: seq<Step>, i: nat, c: ConnID)
    requires IsExecution(states, steps) && i < |states|
    ensures |Taken(states, steps, i, c)| == Count(steps, i, WorkerReports(c)) + HeldOf(states[i], c)
    ensures Count(steps, i, WorkerReports(c)) == Count(steps, i, ForwardReport(c)) + ReportsOf(states[i], c)
    ensures Count(steps, i, ForwardReport(c)) == Count(steps, i, ClearBusy(c)) + ClearingOf(states[i], c)
  {
    if i > 0 {
      ReportsCounted(states, steps, i - 1, c);
      hide Apply, Enabled, HeldOf, ReportsOf, ClearingOf, TakenBy;
      ReportStep(states[i-1], steps[i-1], c);
    }
  }

  // ---- the end of a connection ----

  /** The writer of the only connection fails, and its reader removes and closes it. */
  lemma Leaves(s: State, fails: Step, k: Conn) returns (s3: State, s4: State, s5: State)
    requires s.workers == [0] && s.conns == map[0 := k] && k.writing && !k.clearing
    requires fails == PingFails(0) || (fails == WriteFails(0) && k.send != [])
    ensures Linked(s) && Enabled(s, fails) && s3 == Apply(s, fails)
    ensures Linked(s3) && Enabled(s3, Disconnect(0)) && s4 == Apply(s3, Disconnect(0))
    ensures Linked(s4) && Enabled(s4, CloseSend(0)) && s5 == Apply(s4, CloseSend(0))
    ensures s5.workers == [] && 0 in s5.conns
    ensures s5.conns[0] == OnConn(k, fails).(leaving := false, closed := true)
  {
    s3 := Apply(s, fails);
    assert s3.workers == [0] && s3.conns[0] == OnConn(k, fails);
    s4 := Apply(s3, Disconnect(0));
    assert Without([0], 0) == [];
    s5 := Apply(s4, CloseSend(0));
  }

  /** It does come to that: a connection gets a task, its writer fails with the message or on a ping,
      its reader removes it and closes its channel. */
  lemma LeavesWithItsTask(task: Task, ping: bool) returns (states: seq<State>, steps: seq<Step>)
    ensures IsExecution(states, steps)
    ensures var s := states[|steps|];
            && s.workers == [] && 0 in s.conns && s.conns[0].closed && !s.conns[0].writing
            && Lost(states, steps, |steps|, 0) == (if ping then [] else [task])
            && SendOf(s, 0) == if ping then [task] else []
  {
    var s1, s2 := OneBusyWorker(task);
    var fails := if ping then PingFails(0) else WriteFails(0);
    var k := NEW_CONN.(busy := true, send := [task]);
    var s3, s4, s5 := Leaves(s2, fails, k);
    assert LostBy(s2, fails, 0) == if ping then [] else [task];
    assert OnConn(k, fails).send == (if ping then [task] else []) && !OnConn(k, fails).writing;
    assert SendOf(s5, 0) == if ping then [task] else [];
    assert Enabled(s1, Dispatch(task, true));
    hide Apply, Enabled, Inv, OnConn, SendOf, LostBy, Lost, IsExecution;
    states := [INITIAL, s1, s2, s3, s4, s5];
    steps := [Register(0), Dispatch(task, true), fails, Disconnect(0), CloseSend(0)];
    FiveSteps(states, steps);
    LostOnlyThen(states, steps, fails, task, ping);
  }

  lemma FiveSteps(states: seq<State>, steps: seq<Step>)
    requires |states| == 6 && |steps| == 5 && states[0] == INITIAL
    requires Enabled(states[0], steps[0]) && states[1] == Apply(states[0], steps[0])
    requires Linked(states[1]) && Enabled(states[1], steps[1]) && states[2] == Apply(states[1], steps[1])
    requires Linked(states[2]) && Enabled(states[2], steps[2]) && states[3] == Apply(states[2], steps[2])
    requires Linked(states[3]) && Enabled(states[3], steps[3]) && states[4] == Apply(states[3], steps[3])
    requires Linked(states[4]) && Enabled(states[4], steps[4]) && states[5] == Apply(states[4], steps[4])
    ensures IsExecution(states, steps)
  {
    hide Apply, Enabled;
  }

  lemma LostOnlyThen(states: seq<State>, steps: seq<Step>, fails: Step, task: Task, ping: bool)
    requires |states| == 6 && LostBy(states[2], fails, 0) == if ping then [] else [task]
    requires steps == [Register(0), Dispatch(task, true), fails, Disconnect(0), CloseSend(0)]
    ensures Lost(states, steps, |steps|, 0) == if ping then [] else [task]
  {
    assert Lost(states, steps, 1, 0) == [] && Lost(states, steps, 2, 0) == [];
    assert Lost(states, steps, 3, 0) == LostBy(states[2], fails, 0);
    assert Lost(states, steps, 4, 0) == Lost(states, steps, 3, 0);
  }
}
