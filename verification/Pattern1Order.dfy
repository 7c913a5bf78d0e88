/** End-to-end order in Pattern 1: what a hub subscriber receives about a task is an in-order
    subsequence of what the executor emitted, through two lossy channels, the manager's loop,
    the bridge, the pump and the hub. */
module Pattern1Order {
  import opened Models
  import opened Executor
  import opened Subsequences
  import opened Pattern1
  import opened Pattern1Conservation
  import TaskStore

  // ---- the pipeline ----

  function Erase(e: TaskEvent): TaskEvent { e.(userID := "") }

  function EraseAll(es: seq<TaskEvent>): (r: seq<TaskEvent>)
    ensures |r| == |es|
  {
    seq(|es|, i requires 0 <= i < |es| => Erase(es[i]))
  }

  ghost function LoopHand(loop: Loop): seq<TaskEvent> {
    if loop.Received? || loop.Enriched? || loop.Persisted? then [loop.ev] else []
  }

  ghost function PumpHand(pump: Pump): seq<TaskEvent> {
    if pump.Holding? then [pump.ev] else []
  }

  /** Everything between the workers and the subscribers, oldest first. */
  ghost function Pipeline(s: State): seq<TaskEvent> {
    EraseAll(PumpHand(s.pump)) + EraseAll(s.bridge) + EraseAll(LoopHand(s.loop)) + EraseAll(s.events)
  }

  /** What was delivered, followed by what is still under way. */
  ghost function Flow(s: State, delivered: seq<TaskEvent>): seq<TaskEvent> {
    EraseAll(delivered) + Pipeline(s)
  }

  /** All of that was emitted in that order. */
  ghost predicate InOrder(s: State, delivered: seq<TaskEvent>) {
    Subseq(Flow(s, delivered), s.log)
  }

  ghost predicate Ordered(s: State) {
    InOrder(s, []) && forall c :: c in s.subs ==> InOrder(s, s.subs[c].delivered)
  }

  lemma EraseConcat(a: seq<TaskEvent>, b: seq<TaskEvent>)
    ensures EraseAll(a + b) == EraseAll(a) + EraseAll(b)
  {
  }

  lemma AppendLast(x: seq<TaskEvent>, u: seq<TaskEvent>, es: seq<TaskEvent>, e: TaskEvent)
    ensures x + (u + (es + [e])) == x + (u + es) + [e]
  {
  }

  lemma EraseOne(e: TaskEvent)
    ensures EraseAll([e]) == [Erase(e)]
  {
  }

  // ---- how the flow changes ----

  /** An emitted event enters the channel last. */
  lemma FlowEmit(s: State, s': State, e: TaskEvent, d: seq<TaskEvent>)
    requires Erase(e) == e && s'.events == s.events + [e]
    requires s'.pump == s.pump && s'.bridge == s.bridge && s'.loop == s.loop
    ensures Flow(s', d) == Flow(s, d) + [e]
  {
    hide EraseAll;
    var u := EraseAll(PumpHand(s.pump)) + EraseAll(s.bridge) + EraseAll(LoopHand(s.loop));
    EraseConcat(s.events, [e]);
    EraseOne(e);
    AppendLast(EraseAll(d), u, EraseAll(s.events), e);
  }

  lemma FlowTake(s: State, d: seq<TaskEvent>)
    requires LoopEnabled(s, Take)
    ensures Flow(ApplyLoop(s, Take), d) == Flow(s, d)
  {
    assert s.events == [s.events[0]] + s.events[1..];
    EraseConcat([s.events[0]], s.events[1..]);
  }

  /** A published event enters the bridge last, or leaves the flow. */
  lemma FlowPublish(s: State, d: seq<TaskEvent>)
    requires LoopEnabled(s, Publish)
    ensures var s' := ApplyLoop(s, Publish);
            var x := EraseAll(d) + EraseAll(PumpHand(s.pump)) + EraseAll(s.bridge);
            && Flow(s, d) == x + [Erase(s.loop.ev)] + EraseAll(s.events)
            && Flow(s', d) == (if s'.bridge == s.bridge then x + EraseAll(s.events) else Flow(s, d))
  {
    EraseOne(s.loop.ev);
    assert EraseAll([]) == [];
    EraseConcat(s.bridge, [s.loop.ev]);
    hide EraseAll;
    Regroup(EraseAll(d), EraseAll(PumpHand(s.pump)), EraseAll(s.bridge), [Erase(s.loop.ev)], EraseAll(s.events));
  }

  lemma Regroup(d: seq<TaskEvent>, p: seq<TaskEvent>, b: seq<TaskEvent>, v: seq<TaskEvent>, e: seq<TaskEvent>)
    ensures d + (p + b + v + e) == (d + p + b) + v + e
    ensures d + (p + (b + v) + [] + e) == (d + p + b) + v + e
    ensures d + (p + b + [] + e) == (d + p + b) + e
  {
  }

  lemma FlowPull(s: State, d: seq<TaskEvent>)
    requires PumpEnabled(s, Pull)
    ensures Flow(ApplyPump(s, Pull), d) == Flow(s, d)
  {
    assert s.bridge == [s.bridge[0]] + s.bridge[1..];
    EraseConcat([s.bridge[0]], s.bridge[1..]);
  }

  /** The pump's event goes to a subscriber, or leaves the flow. */
  lemma FlowPush(s: State, d: seq<TaskEvent>)
    requires PumpEnabled(s, Push)
    ensures var s' := ApplyPump(s, Push);
            && Flow(s, d) == EraseAll(d) + [Erase(s.pump.ev)] + Pipeline(s')
            && Flow(s', d) == EraseAll(d) + Pipeline(s')
            && Flow(s', d + [s.pump.ev]) == Flow(s, d)
  {
    var s' := ApplyPump(s, Push);
    var y := EraseAll(s.bridge) + EraseAll(LoopHand(s.loop)) + EraseAll(s.events);
    assert EraseAll(PumpHand(s.pump)) == [Erase(s.pump.ev)];
    assert Flow(s, d) == EraseAll(d) + [Erase(s.pump.ev)] + y;
    assert Pipeline(s') == y;
    EraseConcat(d, [s.pump.ev]);
    assert EraseAll(d + [s.pump.ev]) == EraseAll(d) + [Erase(s.pump.ev)];
  }

  // ---- the order is kept ----

  lemma OrderEmit(s: State, s': State, e: TaskEvent, d: seq<TaskEvent>)
    requires InOrder(s, d) && Erase(e) == e
    requires s'.pump == s.pump && s'.bridge == s.bridge && s'.loop == s.loop
    requires s'.log == s.log + [e] && (s'.events == s.events || s'.events == s.events + [e])
    ensures InOrder(s', d)
  {
    hide Subseq;
    SubseqGrow(Flow(s, d), s.log, e);
    if s'.events != s.events {
      FlowEmit(s, s', e, d);
    }
  }

  lemma OrderWorker(s: State, w: nat, step: WorkerStep, d: seq<TaskEvent>)
    requires WorkerEnabled(s, w, step) && InOrder(s, d)
    ensures InOrder(ApplyWorker(s, w, step), d)
  {
    hide Subseq, EraseAll;
    if step.Emit? || step.EmitFailed? {
      hide InOrder;
      OrderEmit(s, ApplyWorker(s, w, step), NextEvent(s.workers[w]), d);
    }
  }

  lemma OrderPublish(s: State, d: seq<TaskEvent>)
    requires LoopEnabled(s, Publish) && InOrder(s, d)
    ensures InOrder(ApplyLoop(s, Publish), d)
  {
    hide Subseq, EraseAll, Pipeline;
    FlowPublish(s, d);
    var x := EraseAll(d) + EraseAll(PumpHand(s.pump)) + EraseAll(s.bridge);
    SubseqDrop(x, Erase(s.loop.ev), EraseAll(s.events), s.log);
  }

  lemma OrderLoop(s: State, step: LoopStep, d: seq<TaskEvent>)
    requires LoopEnabled(s, step) && InOrder(s, d)
    ensures InOrder(ApplyLoop(s, step), d)
  {
    hide Subseq;
    match step
    case Take => FlowTake(s, d);
    case Publish => OrderPublish(s, d);
    case _ => assert EraseAll(LoopHand(ApplyLoop(s, step).loop)) == EraseAll(LoopHand(s.loop));
  }

  lemma OrderPush(s: State, d: seq<TaskEvent>)
    requires PumpEnabled(s, Push) && InOrder(s, d)
    ensures InOrder(ApplyPump(s, Push), d)
    ensures InOrder(ApplyPump(s, Push), d + [s.pump.ev])
  {
    hide Subseq, EraseAll, Pipeline;
    FlowPush(s, d);
    SubseqDrop(EraseAll(d), Erase(s.pump.ev), Pipeline(ApplyPump(s, Push)), s.log);
  }

  /** The pump hands its event to the subscriber or loses it; nothing else moves. */
  lemma OrderPump(s: State, step: PumpStep, d: seq<TaskEvent>)
    requires PumpEnabled(s, step) && InOrder(s, d)
    ensures InOrder(ApplyPump(s, step), d)
    ensures step.Push? ==> InOrder(ApplyPump(s, step), d + [s.pump.ev])
  {
    hide Subseq;
    match step
    case Pull => FlowPull(s, d);
    case Push => OrderPush(s, d);
    case _ =>
  }

  ghost predicate SameFlow(s: State, s': State) {
    s'.pump == s.pump && s'.bridge == s.bridge && s'.loop == s.loop && s'.events == s.events && s'.log == s.log
  }

  lemma SubmitFlow(s: State, step: SubmitStep)
    requires SubmitEnabled(s, step)
    ensures SameFlow(s, ApplySubmit(s, step)) && ApplySubmit(s, step).subs == s.subs
  {
  }

  lemma EnvFlow(s: State, step: EnvStep)
    requires EnvEnabled(s, step)
    ensures SameFlow(s, ApplyEnv(s, step))
    ensures forall c :: c in ApplyEnv(s, step).subs ==>
              if c in s.subs then ApplyEnv(s, step).subs[c].delivered == s.subs[c].delivered
              else ApplyEnv(s, step).subs[c].delivered == []
  {
  }

  lemma WorkerSubs(s: State, w: nat, step: WorkerStep)
    requires WorkerEnabled(s, w, step)
    ensures ApplyWorker(s, w, step).subs == s.subs
  {
  }

  lemma LoopSubs(s: State, step: LoopStep)
    requires LoopEnabled(s, step)
    ensures ApplyLoop(s, step).subs == s.subs
  {
  }

  lemma OrderedPump(s: State, step: PumpStep)
    requires Ordered(s) && PumpEnabled(s, step)
    ensures Ordered(ApplyPump(s, step))
  {
    hide InOrder;
    var s' := ApplyPump(s, step);
    OrderPump(s, step, []);
    forall c | c in s.subs ensures InOrder(s', s'.subs[c].delivered) { OrderPump(s, step, s.subs[c].delivered); }
  }

  lemma OrderedStep(s: State, step: Step)
    requires Ordered(s) && Enabled(s, step)
    ensures Ordered(Apply(s, step))
  {
    hide ApplySubmit, ApplyWorker, ApplyLoop, ApplyPump, ApplyEnv;
    hide SubmitEnabled, WorkerEnabled, LoopEnabled, PumpEnabled, EnvEnabled, Subseq;
    var s' := Apply(s, step);
    match step
    case OfSubmit(sub) => SubmitFlow(s, sub);
    case OfEnv(env) => EnvFlow(s, env);
    case OfWorker(w, work) =>
      WorkerSubs(s, w, work);
      OrderWorker(s, w, work, []);
      forall c | c in s.subs ensures InOrder(s', s.subs[c].delivered) { OrderWorker(s, w, work, s.subs[c].delivered); }
    case OfLoop(act) =>
      LoopSubs(s, act);
      OrderLoop(s, act, []);
      forall c | c in s.subs ensures InOrder(s', s.subs[c].delivered) { OrderLoop(s, act, s.subs[c].delivered); }
    case OfPump(pumping) => OrderedPump(s, pumping);
  }

  // ---- what one task emits ----

  function About(id: TaskID): TaskEvent -> bool {
    (e: TaskEvent) => e.taskID == id
  }

  /** Everything emitted so far about a task. */
  ghost function LogOf(s: State, id: TaskID): seq<TaskEvent> {
    Filter(About(id), s.log)
  }

  ghost function EmittedBy(w: Worker): seq<TaskEvent>
    requires Busy(w) && (w.Running? ==> w.pos < TraceLength(w.task)) && (w.Failing? ==> w.stage < |w.task.stages|)
  {
    if w.Running? then CompletedTrace(w.task)[..w.pos] else CompletedTrace(w.task)[..2 * w.stage + 2]
  }

  ghost predicate Traced(s: State, id: TaskID)
    requires Wellformed(s)
  {
    && (Taken(s.received, id) == 0 ==> LogOf(s, id) == [])
    && (Taken(s.received, id) > 0 && id in s.store && Held(s.workers, id) == 0 ==>
          IsFullTrace(s.store[id], LogOf(s, id), s.cancelled))
    && (forall i :: 0 <= i < |s.workers| && Busy(s.workers[i]) && s.workers[i].task.id == id ==>
          WorkerOk(s, s.workers[i]) && LogOf(s, id) == EmittedBy(s.workers[i]))
  }

  lemma FullTraceKept(a: Task, b: Task, t: seq<TaskEvent>, cancelled: bool, cancelled': bool)
    requires a.id == b.id && a.stages == b.stages && IsFullTrace(a, t, cancelled) && (cancelled ==> cancelled')
    ensures IsFullTrace(b, t, cancelled')
  {
    TraceSame(a, b);
    if t != CompletedTrace(a) {
      var k: nat :| k < |a.stages| && t == CancelledTrace(a, k);
      assert t == CancelledTrace(b, k);
    }
  }

  /** Steps that neither emit nor move a task to a worker. */
  lemma TracedSame(s: State, s': State, id: TaskID)
    requires Wellformed(s) && Wellformed(s') && Traced(s, id)
    requires s'.log == s.log && s'.workers == s.workers && s'.received == s.received
    requires s.cancelled ==> s'.cancelled
    requires Taken(s.received, id) > 0 ==> id in s.store
    requires id in s.store ==> TaskKept(s.store, s'.store, id)
    ensures Traced(s', id)
  {
    if Taken(s.received, id) > 0 && Held(s.workers, id) == 0 {
      FullTraceKept(s.store[id], s'.store[id], LogOf(s, id), s.cancelled, s'.cancelled);
    }
    forall i | 0 <= i < |s.workers| && Busy(s.workers[i]) && s.workers[i].task.id == id
      ensures WorkerOk(s', s.workers[i])
    {
      assert WorkerOk(s', s'.workers[i]);
    }
  }

  /** A task just taken by worker `w` has emitted nothing. */
  lemma TracedTake(s: State, s': State, w: nat, task: Task, id: TaskID)
    requires Wellformed(s) && Wellformed(s') && Conserved(s') && Traced(s, id)
    requires w < |s.workers| && !Busy(s.workers[w]) && s'.workers == s.workers[w := Worker.Running(task, 0)]
    requires s'.log == s.log && s'.store == s.store && s'.cancelled == s.cancelled
    requires s'.received == s.received + [task.id]
    ensures Traced(s', id)
  {
    hide Queued, Reported;
    TakenAppend(s.received, task.id, id);
    HeldUpdate(s.workers, w, s'.workers[w], id);
    assert CountedOnce(s', id);
    forall i | 0 <= i < |s'.workers| && Busy(s'.workers[i]) && s'.workers[i].task.id == id
      ensures WorkerOk(s', s'.workers[i]) && LogOf(s', id) == EmittedBy(s'.workers[i])
    {
      if i != w { assert WorkerOk(s, s.workers[i]); }
    }
  }

  /** `s'` is `s` after worker `w` emitted `e` and became `after`. */
  ghost predicate EmitStep(s: State, s': State, w: nat, after: Worker, e: TaskEvent) {
    && w < |s.workers| && Busy(s.workers[w]) && e.taskID == s.workers[w].task.id
    && (Busy(after) ==> after.task == s.workers[w].task)
    && s'.workers == s.workers[w := after] && s'.log == s.log + [e]
    && s'.received == s.received && s'.store == s.store && s'.cancelled == s.cancelled
  }

  lemma TracedOther(s: State, s': State, w: nat, after: Worker, e: TaskEvent, id: TaskID)
    requires Wellformed(s) && Wellformed(s') && Traced(s, id) && EmitStep(s, s', w, after, e)
    requires e.taskID != id
    ensures Traced(s', id)
  {
    hide Taken, Subseq;
    FilterAppend(About(id), s.log, e);
    assert LogOf(s', id) == LogOf(s, id) + [] == LogOf(s, id);
    HeldUpdate(s.workers, w, after, id);
  }

  lemma TracedSelf(s: State, s': State, w: nat, after: Worker, e: TaskEvent, id: TaskID)
    requires Conserved(s) && Wellformed(s') && Traced(s, id) && EmitStep(s, s', w, after, e)
    requires e.taskID == id && e == NextEvent(s.workers[w]) && after == AfterEmit(s.workers[w])
    ensures Traced(s', id)
  {
    hide Queued, Reported, Taken, Subseq, IsFullTrace;
    assert WorkerOk(s, s.workers[w]) && WorkerOk(s', s'.workers[w]);
    FilterAppend(About(id), s.log, e);
    HeldUpdate(s.workers, w, after, id);
    HeldMember(s.workers, w);
    assert CountedOnce(s, id);
    forall i | 0 <= i < |s.workers| && i != w && Busy(s.workers[i]) ensures s.workers[i].task.id != id {
      if s.workers[i].task.id == id { HeldOnce(s.workers, i, w); }
    }
    TracedOwn(s, w, e);
  }

  lemma TracedEmit(s: State, w: nat, step: WorkerStep, id: TaskID)
    requires Conserved(s) && Traced(s, id) && WorkerEnabled(s, w, step) && (step.Emit? || step.EmitFailed?)
    requires Wellformed(ApplyWorker(s, w, step))
    ensures Traced(ApplyWorker(s, w, step), id)
  {
    hide Traced, CountedOnce;
    var wk := s.workers[w];
    var e := NextEvent(wk);
    var s' := ApplyWorker(s, w, step);
    assert EmitStep(s, s', w, AfterEmit(wk), e);
    if e.taskID == id {
      TracedSelf(s, s', w, AfterEmit(wk), e, id);
    } else {
      TracedOther(s, s', w, AfterEmit(wk), e, id);
    }
  }

  /** Extending an emitted prefix by the next event gives the longer prefix or a full trace. */
  lemma TracedOwn(s: State, w: nat, e: TaskEvent)
    requires w < |s.workers| && Busy(s.workers[w]) && WorkerOk(s, s.workers[w]) && e == NextEvent(s.workers[w])
    requires TaskStore.WellKeyed(s.store)
    ensures var wk := s.workers[w];
            var after := AfterEmit(wk);
            if Busy(after) then EmittedBy(wk) + [e] == EmittedBy(after)
            else IsFullTrace(s.store[wk.task.id], EmittedBy(wk) + [e], s.cancelled)
  {
    var wk := s.workers[w];
    if wk.Running? {
      var c := CompletedTrace(wk.task);
      assert c[..wk.pos] + [c[wk.pos]] == c[..wk.pos + 1];
      if !Busy(AfterEmit(wk)) {
        assert c[..wk.pos + 1] == c;
        assert IsFullTrace(wk.task, c, s.cancelled);
      }
    } else {
      assert EmittedBy(wk) + [e] == CancelledTrace(wk.task, wk.stage);
      assert IsFullTrace(wk.task, EmittedBy(wk) + [e], s.cancelled);
    }
    if !Busy(AfterEmit(wk)) {
      FullTraceKept(wk.task, s.store[wk.task.id], EmittedBy(wk) + [e], s.cancelled, s.cancelled);
    }
  }

  lemma TracedCancel(s: State, w: nat, id: TaskID)
    requires Conserved(s) && Traced(s, id) && WorkerEnabled(s, w, SeeCancel)
    requires Wellformed(ApplyWorker(s, w, SeeCancel))
    ensures Traced(ApplyWorker(s, w, SeeCancel), id)
  {
    hide Taken, Subseq, IsFullTrace, CountedOnce;
    var s' := ApplyWorker(s, w, SeeCancel);
    HeldUpdate(s.workers, w, s'.workers[w], id);
    assert WorkerOk(s', s'.workers[w]) && WorkerOk(s, s.workers[w]);
    assert EmittedBy(s'.workers[w]) == EmittedBy(s.workers[w]);
  }

  lemma TracedExit(s: State, w: nat, id: TaskID)
    requires Conserved(s) && Traced(s, id) && WorkerEnabled(s, w, Exit)
    requires Wellformed(ApplyWorker(s, w, Exit))
    ensures Traced(ApplyWorker(s, w, Exit), id)
  {
    hide Taken, Subseq, IsFullTrace, CountedOnce;
    HeldUpdate(s.workers, w, Exited, id);
  }

  lemma TracedWorker(s: State, w: nat, step: WorkerStep, id: TaskID)
    requires Conserved(s) && Traced(s, id) && WorkerEnabled(s, w, step)
    requires Conserved(ApplyWorker(s, w, step))
    ensures Traced(ApplyWorker(s, w, step), id)
  {
    hide Traced, CountedOnce;
    match step
    case Receive => TracedTake(s, ApplyWorker(s, w, step), w, s.queue[0], id);
    case SeeCancel => TracedCancel(s, w, id);
    case Exit => TracedExit(s, w, id);
    case _ => TracedEmit(s, w, step, id);
  }

  /** A task that was taken is stored. */
  lemma TakenStored(s: State, id: TaskID)
    requires Conserved(s) && Taken(s.received, id) > 0
    ensures id in s.store
  {
    hide Queued, Reported, Taken, Held;
    assert CountedOnce(s, id);
  }

  lemma TracedUnchanged(s: State, step: Step, id: TaskID)
    requires Conserved(s) && Traced(s, id) && Enabled(s, step) && Wellformed(Apply(s, step))
    requires Apply(s, step).log == s.log && Apply(s, step).workers == s.workers && Apply(s, step).received == s.received
    requires s.cancelled ==> Apply(s, step).cancelled
    ensures Traced(Apply(s, step), id)
  {
    hide Apply, Enabled, Traced, CountedOnce, Taken;
    if Taken(s.received, id) > 0 { TakenStored(s, id); }
    if id in s.store { StoreStep(s, step, id); }
    TracedSame(s, Apply(s, step), id);
  }

  lemma SubmitKeepsWork(s: State, step: SubmitStep)
    requires SubmitEnabled(s, step) && !step.Handoff?
    ensures var s' := ApplySubmit(s, step);
            s'.log == s.log && s'.workers == s.workers && s'.received == s.received && s'.cancelled == s.cancelled
  {
  }

  lemma LoopKeepsWork(s: State, step: LoopStep)
    requires LoopEnabled(s, step)
    ensures var s' := ApplyLoop(s, step);
            s'.log == s.log && s'.workers == s.workers && s'.received == s.received && s'.cancelled == s.cancelled
  {
  }

  lemma TracedHandoff(s: State, i: TaskID, w: nat, id: TaskID)
    requires Conserved(s) && Traced(s, id) && SubmitEnabled(s, Handoff(i, w))
    requires Conserved(ApplySubmit(s, Handoff(i, w)))
    ensures Traced(ApplySubmit(s, Handoff(i, w)), id)
  {
    hide Traced, CountedOnce;
    TracedTake(s, ApplySubmit(s, Handoff(i, w)), w, s.submits[i].task, id);
  }

  lemma TracedStep(s: State, step: Step, id: TaskID)
    requires Conserved(s) && Traced(s, id) && Enabled(s, step) && Conserved(Apply(s, step))
    ensures Traced(Apply(s, step), id)
  {
    hide ApplySubmit, ApplyWorker, ApplyLoop, ApplyPump, ApplyEnv;
    hide SubmitEnabled, WorkerEnabled, LoopEnabled, PumpEnabled, EnvEnabled;
    hide Traced, CountedOnce;
    match step
    case OfSubmit(sub) =>
      if sub.Handoff? {
        TracedHandoff(s, sub.id, sub.w, id);
      } else {
        SubmitKeepsWork(s, sub);
        TracedUnchanged(s, step, id);
      }
    case OfWorker(w, work) => TracedWorker(s, w, work, id);
    case OfLoop(act) =>
      LoopKeepsWork(s, act);
      TracedUnchanged(s, step, id);
    case OfPump(pumping) =>
      PumpKeeps(s, pumping);
      TracedUnchanged(s, step, id);
    case OfEnv(env) =>
      EnvKeeps(s, env);
      TracedUnchanged(s, step, id);
  }

  // ---- the theorem ----

  lemma {:induction false} RunTraced(states: seq<State>, steps: seq<Step>, i: nat, id: TaskID)
    requires IsRun(states, steps) && i < |states|
    ensures Conserved(states[i]) && Traced(states[i], id)
  {
    hide Apply, Enabled;
    RunConserved(states, steps, i);
    if i > 0 {
      hide Traced;
      RunTraced(states, steps, i - 1, id);
      TracedStep(states[i-1], steps[i-1], id);
    }
  }

  lemma {:induction false} RunOrdered(states: seq<State>, steps: seq<Step>, i: nat)
    requires IsRun(states, steps) && i < |states|
    ensures Ordered(states[i])
  {
    hide Apply, Enabled;
    if i > 0 {
      hide Ordered;
      RunOrdered(states, steps, i - 1);
      OrderedStep(states[i-1], steps[i-1]);
    }
  }

  /** What was emitted about a stored task is a prefix of one of its executions, and of the
      completed one unless the context was cancelled. */
  lemma LogIsTrace(s: State, id: TaskID)
    requires Conserved(s) && Traced(s, id) && id in s.store
    ensures IsTracePrefix(s.store[id], LogOf(s, id))
    ensures !s.cancelled ==> LogOf(s, id) <= CompletedTrace(s.store[id])
  {
    var full := FullTraceOf(s, id);
    FullTraceKept(s.store[id], s.store[id], full, s.cancelled, true);
  }

  lemma {:induction false} FindHolder(workers: seq<Worker>, id: TaskID) returns (i: nat)
    requires Held(workers, id) > 0
    ensures i < |workers| && Busy(workers[i]) && workers[i].task.id == id
    decreases |workers|
  {
    var n := |workers| - 1;
    if HeldBy(workers[n], id) > 0 {
      i := n;
    } else {
      i := FindHolder(workers[..n], id);
    }
  }

  /** What subscriber `c` received about task `id`, apart from the user stamped by the manager. */
  ghost function ReceivedAbout(s: State, c: nat, id: TaskID): seq<TaskEvent>
    requires c in s.subs
  {
    Filter(About(id), EraseAll(s.subs[c].delivered))
  }

  /** In every state of every run, what any subscriber received about a task is an in-order
      subsequence of one execution of it: progress never decreases, nothing follows a terminal
      event, and (stages of at least one percent, neighbours named differently) no signature repeats. */
  lemma EndToEndOrder(states: seq<State>, steps: seq<Step>, i: nat, c: nat, id: TaskID)
    requires IsRun(states, steps) && i < |states| && c in states[i].subs
    ensures var s, got := states[i], ReceivedAbout(states[i], c, id);
            && (id !in s.store ==> got == [])
            && (id in s.store ==>
                  && (exists trace :: IsFullTrace(s.store[id], trace, s.cancelled) && Subseq(got, trace))
                  && (|s.store[id].stages| <= 100 && AdjacentNamesDiffer(s.store[id]) ==>
                        Pairwise(DifferentSignature, got)))
            && Pairwise(ProgressOrdered, got)
            && Pairwise(NothingAfterTerminal, got)
  {
    hide Apply, Enabled;
    var s, got := states[i], ReceivedAbout(states[i], c, id);
    RunOrdered(states, steps, i);
    RunTraced(states, steps, i, id);
    SubseqPrefix(EraseAll(s.subs[c].delivered), Pipeline(s), s.log);
    FilterSubseq(About(id), EraseAll(s.subs[c].delivered), s.log);
    if id in s.store {
      LogIsTrace(s, id);
      OrderConsequences(s.store[id], LogOf(s, id), got);
      assert exists trace :: IsFullTrace(s.store[id], trace, s.cancelled) && Subseq(got, trace) by {
        var full := FullTraceOf(s, id);
        SubseqOfPrefix(got, LogOf(s, id), full);
      }
    } else {
      if Taken(s.received, id) > 0 { TakenStored(s, id); }
    }
  }

  lemma OrderConsequences(task: Task, log: seq<TaskEvent>, got: seq<TaskEvent>)
    requires IsTracePrefix(task, log) && Subseq(got, log)
    ensures Pairwise(ProgressOrdered, got) && Pairwise(NothingAfterTerminal, got)
    ensures |task.stages| <= 100 && AdjacentNamesDiffer(task) ==> Pairwise(DifferentSignature, got)
  {
    TracePrefixOrder(task, log);
    SubseqPairwise(ProgressOrdered, got, log);
    SubseqPairwise(NothingAfterTerminal, got, log);
    if |task.stages| <= 100 && AdjacentNamesDiffer(task) {
      PrefixSignaturesDistinct(task, log);
      SubseqPairwise(DifferentSignature, got, log);
    }
  }

  lemma SubseqOfPrefix(a: seq<TaskEvent>, b: seq<TaskEvent>, c: seq<TaskEvent>)
    requires Subseq(a, b) && b <= c
    ensures Subseq(a, c)
  {
    assert c == b + c[|b|..];
    SubseqRefl(c);
    SubseqPrefix(b, c[|b|..], c);
    SubseqTrans(a, b, c);
  }

  lemma FullTraceOf(s: State, id: TaskID) returns (full: seq<TaskEvent>)
    requires Conserved(s) && Traced(s, id) && id in s.store
    ensures IsFullTrace(s.store[id], full, s.cancelled) && LogOf(s, id) <= full
  {
    var task := s.store[id];
    full := CompletedTrace(task);
    if Taken(s.received, id) > 0 && Held(s.workers, id) > 0 {
      var i := FindHolder(s.workers, id);
      assert WorkerOk(s, s.workers[i]);
      TraceSame(s.workers[i].task, task);
    } else if Taken(s.received, id) > 0 {
      full := LogOf(s, id);
    }
  }
}
