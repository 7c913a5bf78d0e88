/** What cancellation does to completion in Pattern 1: exactly which tasks can still settle. */
module Pattern1Stranding {
  import opened Models
  import opened Pattern1
  import opened Pattern1Conservation
  import opened Pattern1Order
  import opened Pattern1Liveness
  import opened Pattern1Store

  ghost predicate AllExited(workers: seq<Worker>) {
    forall i :: 0 <= i < |workers| ==> workers[i].Exited?
  }

  /** Submit has let go of the task, and either the event loop has stopped, or the task is queued
      and no worker is left to take it. */
  ghost predicate Doomed(s: State, id: TaskID) {
    && Submitting(s.submits, id) == 0
    && (s.loop.Stopped? || (Queued(s.queue, id) > 0 && AllExited(s.workers)))
  }

  ghost predicate Unsettled(s: State, id: TaskID) {
    id in s.store && !IsTerminal(s.store[id].status)
  }

  // ---- a doomed task stays doomed ----

  ghost predicate SameStatus(s: State, s': State, id: TaskID) {
    id in s.store && id in s'.store && s'.store[id].status == s.store[id].status
  }

  lemma DoomedSubmit(s: State, step: SubmitStep, id: TaskID)
    requires SubmitEnabled(s, step) && Doomed(s, id) && id in s.store
    ensures Doomed(ApplySubmit(s, step), id) && SameStatus(s, ApplySubmit(s, step), id)
  {
    hide Queued;
    if step.Dispatch? {
      QueuedAppend(s.queue, s.submits[step.id].task, id);
    }
  }

  lemma DoomedWorker(s: State, w: nat, step: WorkerStep, id: TaskID)
    requires WorkerEnabled(s, w, step) && Doomed(s, id) && id in s.store
    ensures Doomed(ApplyWorker(s, w, step), id) && SameStatus(s, ApplyWorker(s, w, step), id)
  {
  }

  lemma DoomedLoop(s: State, step: LoopStep, id: TaskID)
    requires LoopEnabled(s, step) && Doomed(s, id) && id in s.store && CountedOnce(s, id)
    ensures Doomed(ApplyLoop(s, step), id) && SameStatus(s, ApplyLoop(s, step), id)
  {
    hide Queued, Held, Reported, Taken;
  }

  lemma DoomedStep(s: State, step: Step, id: TaskID)
    requires Conserved(s) && Enabled(s, step) && Doomed(s, id) && id in s.store
    ensures Doomed(Apply(s, step), id) && SameStatus(s, Apply(s, step), id)
  {
    assert CountedOnce(s, id);
    hide ApplySubmit, ApplyWorker, ApplyLoop, ApplyPump, ApplyEnv;
    hide SubmitEnabled, WorkerEnabled, LoopEnabled, PumpEnabled, EnvEnabled, CountedOnce;
    match step
    case OfSubmit(sub) => DoomedSubmit(s, sub, id);
    case OfWorker(w, work) => DoomedWorker(s, w, work, id);
    case OfLoop(act) => DoomedLoop(s, act, id);
    case OfPump(pumping) => PumpKeeps(s, pumping);
    case OfEnv(env) => EnvKeeps(s, env);
  }

  /** From a state of a run, a doomed task keeps its status in every continuation. */
  lemma {:induction false} DoomedForever(states: seq<State>, steps: seq<Step>, j: nat, id: TaskID)
    requires IsExecution(states, steps) && j < |states|
    requires Conserved(states[0]) && Doomed(states[0], id) && id in states[0].store
    ensures Conserved(states[j]) && Doomed(states[j], id) && SameStatus(states[0], states[j], id)
  {
    hide Apply, Enabled, Conserved, Doomed;
    if j > 0 {
      DoomedForever(states, steps, j - 1, id);
      ConservedStep(states[j-1], steps[j-1]);
      DoomedStep(states[j-1], steps[j-1], id);
    }
  }

  // ---- a dispatched task that is not doomed can settle ----

  /** Steps that move events and tasks on, and end no component. */
  predicate Drains(step: Step) {
    match step
    case OfWorker(_, work) => work.Receive? || work.Emit? || work.EmitFailed?
    case OfLoop(act) => !act.Stop?
    case _ => false
  }

  lemma DrainsWorker(s: State, w: nat, step: WorkerStep, id: TaskID)
    requires WorkerEnabled(s, w, step) && Drains(OfWorker(w, step))
    requires Submitting(s.submits, id) == 0 && !Doomed(s, id)
    ensures Submitting(ApplyWorker(s, w, step).submits, id) == 0 && !Doomed(ApplyWorker(s, w, step), id)
  {
    hide Queued;
    var s' := ApplyWorker(s, w, step);
    assert !s'.workers[w].Exited?;
  }

  lemma DrainsLoop(s: State, step: LoopStep, id: TaskID)
    requires LoopEnabled(s, step) && Drains(OfLoop(step))
    requires Submitting(s.submits, id) == 0 && !Doomed(s, id)
    ensures Submitting(ApplyLoop(s, step).submits, id) == 0 && !Doomed(ApplyLoop(s, step), id)
  {
  }

  lemma DrainsKeep(s: State, step: Step, id: TaskID)
    requires Enabled(s, step) && Drains(step) && Submitting(s.submits, id) == 0 && !Doomed(s, id)
    ensures Submitting(Apply(s, step).submits, id) == 0 && !Doomed(Apply(s, step), id)
  {
    hide ApplyWorker, ApplyLoop, WorkerEnabled, LoopEnabled, Doomed;
    match step
    case OfWorker(w, work) => DrainsWorker(s, w, work, id);
    case OfLoop(act) => DrainsLoop(s, act, id);
  }

  /** With nothing in the event channel or the loop, the task is held or can be taken. */
  lemma SomeWorker(s: State, id: TaskID) returns (w: nat)
    requires CountedOnce(s, id) && Unsettled(s, id) && Submitting(s.submits, id) == 0 && !Doomed(s, id)
    requires s.loop.Ready? && s.events == []
    ensures w < |s.workers| && !s.workers[w].Exited? && (s.workers[w].Idle? ==> s.queue != [])
  {
    if Held(s.workers, id) > 0 {
      w := FindHolder(s.workers, id);
    } else {
      assert Queued(s.queue, id) > 0;
      w :| 0 <= w < |s.workers| && !s.workers[w].Exited?;
    }
  }

  lemma NextDrain(s: State, id: TaskID) returns (step: Step)
    requires Conserved(s) && Unsettled(s, id) && Submitting(s.submits, id) == 0 && !Doomed(s, id)
    ensures Drains(step) && Enabled(s, step)
  {
    assert CountedOnce(s, id);
    hide CountedOnce;
    if !s.loop.Ready? {
      step := OfLoop(if s.loop.Received? then Enrich else if s.loop.Enriched? then Persist(0) else Publish);
    } else if s.events != [] {
      step := OfLoop(Take);
    } else {
      var w := SomeWorker(s, id);
      assert WorkerOk(s, s.workers[w]);
      step := OfWorker(w, if s.workers[w].Idle? then Receive else if s.workers[w].Running? then Emit else EmitFailed);
    }
  }

  /** Draining goes on until the task is settled, because every step lowers the measure. */
  lemma {:induction false} Settles(states: seq<State>, steps: seq<Step>, id: TaskID)
    returns (states': seq<State>, steps': seq<Step>)
    requires IsExecution(states, steps) && Conserved(Last(states)) && id in Last(states).store
    requires Submitting(Last(states).submits, id) == 0 && !Doomed(Last(states), id)
    ensures IsExecution(states', steps') && states'[0] == states[0]
    ensures id in Last(states').store && IsTerminal(Last(states').store[id].status)
    decreases Measure(Last(states))
  {
    var s := Last(states);
    hide Apply, Enabled, Conserved, Doomed, Measure, IsExecution;
    states', steps' := states, steps;
    if !IsTerminal(s.store[id].status) {
      var step := NextDrain(s, id);
      MeasureStep(s, step);
      ConservedStep(s, step);
      StoreStep(s, step, id);
      DrainsKeep(s, step, id);
      states', steps' := Extend(states, steps, step);
      states', steps' := Settles(states', steps', id);
    }
  }

  // ---- a task still with Submit can always settle ----

  lemma {:induction false} FreshID(used: set<TaskID>) returns (id: TaskID)
    ensures forall u :: u in used ==> |u| < |id|
    decreases |used|
  {
    id := "x";
    if used != {} {
      var u :| u in used;
      id := FreshID(used - {u});
      id := id + u + "x";
    }
  }

  lemma Refused(states: seq<State>, steps: seq<Step>, id: TaskID)
    returns (states': seq<State>, steps': seq<Step>)
    requires IsExecution(states, steps) && id in Last(states).store && id in Last(states).submits
    requires Last(states).submits[id].pc.Rejecting?
    ensures IsExecution(states', steps') && states'[0] == states[0]
    ensures id in Last(states').store && IsTerminal(Last(states').store[id].status)
  {
    states', steps' := Extend(states, steps, OfSubmit(MarkFailed(id, 0)));
  }

  /** Another task is created and queued. */
  lemma OneMore(states: seq<State>, steps: seq<Step>, id: TaskID)
    returns (states': seq<State>, steps': seq<Step>)
    requires IsExecution(states, steps) && id in Last(states).store && id in Last(states).submits
    requires Last(states).submits[id].pc.Created? && |Last(states).queue| < Last(states).queueSize
    ensures IsExecution(states', steps') && states'[0] == states[0]
    ensures var s, s' := Last(states), Last(states');
            && id in s'.store && id in s'.submits && s'.submits[id] == s.submits[id]
            && |s'.queue| == |s.queue| + 1 && s'.queueSize == s.queueSize
  {
    var other := FreshID(Last(states).store.Keys);
    assert other !in Last(states).store;
    var task := Task(other, "", Pending, "", 0, None, None, []);
    states', steps' := Extend(states, steps, OfSubmit(Create(task)));
    states', steps' := Extend(states', steps', OfSubmit(Dispatch(other)));
  }

  /** Other tasks fill the queue and the task is refused. */
  lemma {:induction false} CrowdedOut(states: seq<State>, steps: seq<Step>, id: TaskID)
    returns (states': seq<State>, steps': seq<Step>)
    requires IsExecution(states, steps) && id in Last(states).store && id in Last(states).submits
    requires Last(states).submits[id].pc.Created?
    ensures IsExecution(states', steps') && states'[0] == states[0]
    ensures id in Last(states').store && IsTerminal(Last(states').store[id].status)
    decreases Last(states).queueSize - |Last(states).queue|
  {
    if |Last(states).queue| < Last(states).queueSize {
      states', steps' := OneMore(states, steps, id);
      states', steps' := CrowdedOut(states', steps', id);
    } else {
      states', steps' := Extend(states, steps, OfSubmit(DispatchFull(id)));
      states', steps' := Refused(states', steps', id);
    }
  }

  // ---- the exact condition ----

  /** Some continuation of `s` settles the task. */
  lemma CanSettle(s: State, id: TaskID) returns (states: seq<State>, steps: seq<Step>)
    requires Conserved(s) && id in s.store && !Doomed(s, id)
    ensures IsExecution(states, steps) && states[0] == s
    ensures id in Last(states).store && IsTerminal(Last(states).store[id].status)
  {
    states, steps := [s], [];
    assert IsExecution(states, steps);
    hide IsExecution, Conserved, Doomed;
    if Submitting(s.submits, id) == 0 {
      states, steps := Settles(states, steps, id);
    } else if s.submits[id].pc.Created? {
      states, steps := CrowdedOut(states, steps, id);
    } else {
      states, steps := Refused(states, steps, id);
    }
  }

  /** The task is pending in every state of every continuation of `s`. */
  ghost predicate PendingForever(s: State, id: TaskID) {
    forall more: seq<State>, acts: seq<Step>, j: nat ::
      IsExecution(more, acts) && more[0] == s && j < |more| ==>
        id in more[j].store && more[j].store[id].status.Pending?
  }

  /** In every state of every run, cancelled or not: an unsettled task never settles, whatever
      happens later, if and only if it is doomed. */
  lemma StrandedIff(states: seq<State>, steps: seq<Step>, i: nat, id: TaskID)
    requires IsRun(states, steps) && i < |states| && Unsettled(states[i], id)
    ensures PendingForever(states[i], id) <==> Doomed(states[i], id)
  {
    var s := states[i];
    RunConserved(states, steps, i);
    RunLifecycle(states, steps, i);
    assert s.store[id].status.Pending?;
    hide Conserved, Doomed, IsExecution;
    if Doomed(s, id) {
      forall more: seq<State>, acts: seq<Step>, j: nat | IsExecution(more, acts) && more[0] == s && j < |more|
        ensures id in more[j].store && more[j].store[id].status.Pending?
      {
        DoomedForever(more, acts, j, id);
      }
    } else {
      var more, acts := CanSettle(s, id);
      assert IsTerminal(more[|more|-1].store[id].status);
    }
  }
}
