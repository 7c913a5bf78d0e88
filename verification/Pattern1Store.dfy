/** What the store holds in Pattern 1: the lifecycle of every task, and the outcome of Submit. */
module Pattern1Store {
  import opened Models
  import opened Pattern1
  import opened Pattern1Conservation
  import opened TS = TaskStore
  import Manager

  /** `calls` is what the step asked of the store. */
  ghost predicate Asks(before: Table, after: Table, calls: seq<Call>) {
    AllDisciplined(calls) && after == Run(before, calls)
  }

  lemma OneCall(before: Table, call: Call)
    ensures Run(before, []) == before && Run(before, [call]) == TS.Apply(before, call)
  {
    RunAppend(before, [], call);
    assert [] + [call] == [call];
  }

  lemma SubmitAsks(s: State, step: SubmitStep) returns (calls: seq<Call>)
    requires SubmitEnabled(s, step)
    ensures Asks(s.store, ApplySubmit(s, step).store, calls)
  {
    hide Run;
    match step
    case Create(task) => calls := [TS.Create(task)]; OneCall(s.store, TS.Create(task));
    case MarkFailed(id, now) =>
      calls := [SetStatus(id, Status.Failed, now)];
      OneCall(s.store, SetStatus(id, Status.Failed, now));
    case Stamp(id, now) => calls := [SetDispatchedAt(id, now)]; OneCall(s.store, SetDispatchedAt(id, now));
    case _ => calls := []; OneCall(s.store, SetDispatchedAt("", 0));
  }

  lemma LoopAsks(s: State, step: LoopStep) returns (calls: seq<Call>)
    requires LoopEnabled(s, step)
    ensures Asks(s.store, ApplyLoop(s, step).store, calls)
  {
    hide Run;
    if step.Persist? && IsTerminalEvent(s.loop.ev) {
      var call := SetStatus(s.loop.ev.taskID, s.loop.ev.status, step.now);
      calls := [call];
      OneCall(s.store, call);
    } else {
      calls := [];
      OneCall(s.store, SetDispatchedAt("", 0));
    }
  }

  /** Every step of the system asks only disciplined calls of the store. */
  lemma StepAsks(s: State, step: Step) returns (calls: seq<Call>)
    requires Enabled(s, step)
    ensures Asks(s.store, Pattern1.Apply(s, step).store, calls)
  {
    OneCall(s.store, SetDispatchedAt("", 0));
    hide ApplySubmit, ApplyWorker, ApplyLoop, ApplyPump, ApplyEnv, Run;
    hide SubmitEnabled, WorkerEnabled, LoopEnabled, PumpEnabled, EnvEnabled;
    calls := [];
    match step
    case OfSubmit(sub) => calls := SubmitAsks(s, sub);
    case OfWorker(w, work) => StoreWorker(s, w, work);
    case OfLoop(act) => calls := LoopAsks(s, act);
    case OfPump(pumping) => PumpKeeps(s, pumping);
    case OfEnv(env) => EnvKeeps(s, env);
  }

  /** In every state of every run each stored task obeys the lifecycle. */
  lemma {:induction false} RunLifecycle(states: seq<State>, steps: seq<Step>, i: nat)
    requires IsRun(states, steps) && i < |states|
    ensures AllLifecycle(states[i].store)
  {
    hide Pattern1.Apply, Enabled;
    if i > 0 {
      hide AllLifecycle;
      RunLifecycle(states, steps, i - 1);
      var calls := StepAsks(states[i-1], steps[i-1]);
      LifecycleInvariant(states[i-1].store, calls);
    }
  }

  // ---- what Submit leaves behind ----

  /** A task whose Submit call has returned was rejected or carries a dispatch time. */
  ghost predicate Returned(s: State) {
    forall id :: id in s.store && id !in s.submits && id !in s.rejected ==> s.store[id].dispatchedAt.Some?
  }

  lemma ReturnedSubmit(s: State, step: SubmitStep)
    requires Returned(s) && SubmitEnabled(s, step)
    ensures Returned(ApplySubmit(s, step))
  {
  }

  lemma ReturnedLoop(s: State, step: LoopStep)
    requires Returned(s) && LoopEnabled(s, step)
    ensures Returned(ApplyLoop(s, step))
  {
  }

  lemma ReturnedWorker(s: State, w: nat, step: WorkerStep)
    requires Returned(s) && WorkerEnabled(s, w, step)
    ensures Returned(ApplyWorker(s, w, step))
  {
  }

  lemma ReturnedStep(s: State, step: Step)
    requires Returned(s) && Enabled(s, step)
    ensures Returned(Pattern1.Apply(s, step))
  {
    hide ApplySubmit, ApplyWorker, ApplyLoop, ApplyPump, ApplyEnv;
    hide SubmitEnabled, WorkerEnabled, LoopEnabled, PumpEnabled, EnvEnabled;
    match step
    case OfSubmit(sub) => ReturnedSubmit(s, sub);
    case OfWorker(w, work) => ReturnedWorker(s, w, work);
    case OfLoop(act) => ReturnedLoop(s, act);
    case OfPump(pumping) => PumpKeeps(s, pumping);
    case OfEnv(env) => EnvKeeps(s, env);
  }

  lemma {:induction false} RunReturned(states: seq<State>, steps: seq<Step>, i: nat)
    requires IsRun(states, steps) && i < |states|
    ensures Returned(states[i])
  {
    hide Pattern1.Apply, Enabled;
    if i > 0 {
      hide Returned;
      RunReturned(states, steps, i - 1);
      ReturnedStep(states[i-1], steps[i-1]);
    }
  }

  /** In every run, once Submit has returned for a task the task is either rejected, failed and
      never seen by a worker, or stamped and past the submitter: queued, or taken by one worker. */
  lemma SubmitOutcome(states: seq<State>, steps: seq<Step>, i: nat, id: TaskID)
    requires IsRun(states, steps) && i < |states| && id in states[i].store && id !in states[i].submits
    ensures var s := states[i];
            if id in s.rejected
            then s.store[id].status.Failed? && s.store[id].completedAt.Some? && Taken(s.received, id) == 0
            else s.store[id].dispatchedAt.Some? && Queued(s.queue, id) + Taken(s.received, id) == 1
  {
    hide Queued, Held, Reported, Taken;
    RunReturned(states, steps, i);
    RunConserved(states, steps, i);
    RunLifecycle(states, steps, i);
    assert CountedOnce(states[i], id);
  }

  // ---- dispatch time against completion time ----

  /** Submit has returned and the task was accepted. */
  ghost predicate AcceptedTask(s: State, id: TaskID) {
    id in s.store && id !in s.submits && id !in s.rejected
  }

  /** A worker's report has settled the task. */
  ghost predicate SettledTask(s: State, id: TaskID) {
    id in s.store && id !in s.rejected && IsTerminal(s.store[id].status)
  }

  /** The step is the stamp of task `id`, at time `t`. */
  predicate StampsAt(step: Step, id: TaskID, t: int) {
    step == OfSubmit(Stamp(id, t))
  }

  /** The step persists the end of task `id`, at time `t`. */
  predicate SettlesAt(s: State, step: Step, id: TaskID, t: int) {
    step == OfLoop(Persist(t)) && s.loop.Enriched? && IsTerminalEvent(s.loop.ev) && s.loop.ev.taskID == id
  }

  lemma StampSubmit(s: State, step: SubmitStep, id: TaskID)
    requires Wellformed(s) && SubmitEnabled(s, step) && AcceptedTask(ApplySubmit(s, step), id)
    ensures var s' := ApplySubmit(s, step);
            || (step.Stamp? && step.id == id && s'.store[id].dispatchedAt == Some(step.now))
            || (AcceptedTask(s, id) && s'.store[id].dispatchedAt == s.store[id].dispatchedAt)
  {
  }

  lemma SettleSubmit(s: State, step: SubmitStep, id: TaskID)
    requires SubmitEnabled(s, step) && SettledTask(ApplySubmit(s, step), id)
    ensures SettledTask(s, id) && ApplySubmit(s, step).store[id].completedAt == s.store[id].completedAt
  {
  }

  lemma StampLoop(s: State, step: LoopStep, id: TaskID)
    requires LoopEnabled(s, step) && id in ApplyLoop(s, step).store
    ensures var s' := ApplyLoop(s, step);
            && s'.submits == s.submits && s'.rejected == s.rejected
            && id in s.store && s'.store[id].dispatchedAt == s.store[id].dispatchedAt
    ensures var s' := ApplyLoop(s, step);
            SettledTask(s', id) ==>
              if step.Persist? && SettlesAt(s, OfLoop(step), id, step.now)
              then s'.store[id].completedAt == Some(step.now)
              else SettledTask(s, id) && s'.store[id].completedAt == s.store[id].completedAt
  {
  }

  /** A dispatch time stays, or is the step's reading. */
  lemma StampStep(s: State, step: Step, id: TaskID)
    requires Wellformed(s) && Enabled(s, step) && AcceptedTask(Pattern1.Apply(s, step), id)
    ensures var s' := Pattern1.Apply(s, step);
            || (s'.store[id].dispatchedAt.Some? && StampsAt(step, id, s'.store[id].dispatchedAt.value))
            || (AcceptedTask(s, id) && s'.store[id].dispatchedAt == s.store[id].dispatchedAt)
  {
    hide ApplySubmit, ApplyWorker, ApplyLoop, ApplyPump, ApplyEnv, Wellformed;
    hide SubmitEnabled, WorkerEnabled, LoopEnabled, PumpEnabled, EnvEnabled;
    match step
    case OfSubmit(sub) => StampSubmit(s, sub, id);
    case OfWorker(w, work) => StoreWorker(s, w, work); WorkerSubmits(s, w, work);
    case OfLoop(act) => StampLoop(s, act, id);
    case OfPump(pumping) => PumpKeeps(s, pumping);
    case OfEnv(env) => EnvKeeps(s, env);
  }

  lemma WorkerSubmits(s: State, w: nat, step: WorkerStep)
    requires WorkerEnabled(s, w, step)
    ensures ApplyWorker(s, w, step).submits == s.submits
  {
  }

  /** A completion time stays, or is the step's reading. */
  lemma SettleStep(s: State, step: Step, id: TaskID)
    requires Enabled(s, step) && SettledTask(Pattern1.Apply(s, step), id)
    ensures var s' := Pattern1.Apply(s, step);
            || (s'.store[id].completedAt.Some? && SettlesAt(s, step, id, s'.store[id].completedAt.value))
            || (SettledTask(s, id) && s'.store[id].completedAt == s.store[id].completedAt)
  {
    hide ApplySubmit, ApplyWorker, ApplyLoop, ApplyPump, ApplyEnv;
    hide SubmitEnabled, WorkerEnabled, LoopEnabled, PumpEnabled, EnvEnabled;
    match step
    case OfSubmit(sub) => SettleSubmit(s, sub, id);
    case OfWorker(w, work) => StoreWorker(s, w, work);
    case OfLoop(act) => StampLoop(s, act, id);
    case OfPump(pumping) => PumpKeeps(s, pumping);
    case OfEnv(env) => EnvKeeps(s, env);
  }

  lemma {:induction false} StampedBy(states: seq<State>, steps: seq<Step>, i: nat, id: TaskID) returns (a: nat)
    requires IsRun(states, steps) && i < |states| && AcceptedTask(states[i], id)
    ensures a < i && states[i].store[id].dispatchedAt.Some?
    ensures StampsAt(steps[a], id, states[i].store[id].dispatchedAt.value)
  {
    hide Pattern1.Apply, Enabled, StampsAt;
    assert i > 0;
    RunConserved(states, steps, i - 1);
    StampStep(states[i-1], steps[i-1], id);
    a := i - 1;
    if !(states[i].store[id].dispatchedAt.Some? && StampsAt(steps[a], id, states[i].store[id].dispatchedAt.value)) {
      a := StampedBy(states, steps, i - 1, id);
    }
  }

  lemma {:induction false} SettledBy(states: seq<State>, steps: seq<Step>, i: nat, id: TaskID) returns (b: nat)
    requires IsRun(states, steps) && i < |states| && SettledTask(states[i], id)
    ensures b < i && states[i].store[id].completedAt.Some?
    ensures SettlesAt(states[b], steps[b], id, states[i].store[id].completedAt.value)
  {
    hide Pattern1.Apply, Enabled, SettlesAt;
    assert i > 0;
    SettleStep(states[i-1], steps[i-1], id);
    b := i - 1;
    if !(states[i].store[id].completedAt.Some?
         && SettlesAt(states[b], steps[b], id, states[i].store[id].completedAt.value)) {
      b := SettledBy(states, steps, i - 1, id);
    }
  }

  /** What the clock shows at a step that reads it. */
  function Reading(step: Step): Option<int> {
    match step
    case OfSubmit(Stamp(_, now)) => Some(now)
    case OfSubmit(MarkFailed(_, now)) => Some(now)
    case OfLoop(Persist(now)) => Some(now)
    case _ => None
  }

  ghost predicate MonotoneClock(steps: seq<Step>) {
    forall a, b :: 0 <= a < b < |steps| && Reading(steps[a]).Some? && Reading(steps[b]).Some? ==>
      Reading(steps[a]).value <= Reading(steps[b]).value
  }

  /** An accepted and settled task was stamped by one step and settled by another. With a monotone
      clock its dispatch time is not after its completion time if and only if Submit's stamp came
      before the loop's persist, or the clock did not move between the two. */
  lemma DispatchTimeFirstIff(states: seq<State>, steps: seq<Step>, i: nat, id: TaskID) returns (a: nat, b: nat)
    requires IsRun(states, steps) && i < |states| && MonotoneClock(steps)
    requires AcceptedTask(states[i], id) && SettledTask(states[i], id)
    ensures var task := states[i].store[id];
            && a < i && b < i && task.dispatchedAt.Some? && task.completedAt.Some?
            && StampsAt(steps[a], id, task.dispatchedAt.value)
            && SettlesAt(states[b], steps[b], id, task.completedAt.value)
            && (task.dispatchedAt.value <= task.completedAt.value <==>
                  a < b || task.dispatchedAt == task.completedAt)
  {
    hide Pattern1.Apply, Enabled;
    a := StampedBy(states, steps, i, id);
    b := SettledBy(states, steps, i, id);
    assert Reading(steps[a]) == states[i].store[id].dispatchedAt;
    assert Reading(steps[b]) == states[i].store[id].completedAt;
  }

  // ---- the steps against the manager's methods ----

  /** The steps of one Submit call without interference leave the store as Manager.Submit does. */
  lemma UndisturbedSubmit(s: State, task: Task, now: int)
    requires SubmitEnabled(s, SubmitStep.Create(task)) && task.id !in s.submits
    ensures var s1 := ApplySubmit(s, SubmitStep.Create(task));
            && (|s.queue| < s.queueSize ==>
                  && SubmitEnabled(s1, Dispatch(task.id))
                  && var s2 := ApplySubmit(s1, Dispatch(task.id));
                  && SubmitEnabled(s2, Stamp(task.id, now))
                  && var s3 := ApplySubmit(s2, Stamp(task.id, now));
                  && s3.store == Manager.Submitted(s.store, task, Manager.Accepted, now, now)
                  && s3.queue == s.queue + [task] && s3.submits == s.submits)
            && (|s.queue| >= s.queueSize ==>
                  && SubmitEnabled(s1, DispatchFull(task.id))
                  && var s2 := ApplySubmit(s1, DispatchFull(task.id));
                  && SubmitEnabled(s2, MarkFailed(task.id, now))
                  && var s3 := ApplySubmit(s2, MarkFailed(task.id, now));
                  && s3.store == Manager.Submitted(s.store, task, Manager.QueueFull, now, now)
                  && s3.queue == s.queue && s3.submits == s.submits && s3.rejected == s.rejected + {task.id})
  {
  }

  /** The steps of one turn of the event loop without interference publish and persist what
      Manager.HandleEvent does. */
  lemma UndisturbedTurn(s: State, now: int)
    requires LoopEnabled(s, Take)
    ensures var ev := s.events[0];
            var s1 := ApplyLoop(s, Take);
            && LoopEnabled(s1, Enrich)
            && var s2 := ApplyLoop(s1, Enrich);
            && LoopEnabled(s2, Persist(now))
            && var s3 := ApplyLoop(s2, Persist(now));
            && LoopEnabled(s3, Publish)
            && var s4 := ApplyLoop(s3, Publish);
            && s4.loop.Ready? && s4.events == s.events[1..]
            && s4.published == s.published + [WithOwner(s.store, ev)]
            && s4.store == Manager.HandledOne(s.store, ev, now)
  {
  }
}
