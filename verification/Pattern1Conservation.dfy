/** Conservation in Pattern 1: in every interleaving, every created task is in exactly one place. */
module Pattern1Conservation {
  import opened Models
  import opened Transport
  import opened Executor
  import opened Pattern1
  import TaskStore

  // ---- how often a task id occurs in each place ----

  /** Still with its call of Submit: created, or refused and not yet marked failed. */
  ghost function Submitting(submits: map<TaskID, Submission>, id: TaskID): nat {
    if id in submits && !submits[id].pc.Dispatched? then 1 else 0
  }

  ghost function Queued(queue: seq<Task>, id: TaskID): nat
    decreases |queue|
  {
    if queue == [] then 0
    else Queued(queue[..|queue|-1], id) + if queue[|queue|-1].id == id then 1 else 0
  }

  ghost function HeldBy(w: Worker, id: TaskID): nat {
    if Busy(w) && w.task.id == id then 1 else 0
  }

  ghost function Held(workers: seq<Worker>, id: TaskID): nat
    decreases |workers|
  {
    if workers == [] then 0
    else Held(workers[..|workers|-1], id) + HeldBy(workers[|workers|-1], id)
  }

  ghost function TerminalFor(e: TaskEvent, id: TaskID): nat {
    if IsTerminalEvent(e) && e.taskID == id then 1 else 0
  }

  /** Terminal events waiting in the event channel. */
  ghost function Reported(events: seq<TaskEvent>, id: TaskID): nat
    decreases |events|
  {
    if events == [] then 0
    else Reported(events[..|events|-1], id) + TerminalFor(events[|events|-1], id)
  }

  /** A terminal event in the event loop's hands and not yet persisted. */
  ghost function InLoop(loop: Loop, id: TaskID): nat {
    if loop.Received? || loop.Enriched? then TerminalFor(loop.ev, id) else 0
  }

  ghost function Final(store: TaskStore.Table, id: TaskID): nat {
    if id in store && IsTerminal(store[id].status) then 1 else 0
  }

  ghost function Taken(received: seq<TaskID>, id: TaskID): nat
    decreases |received|
  {
    if received == [] then 0
    else Taken(received[..|received|-1], id) + if received[|received|-1] == id then 1 else 0
  }

  ghost function Places(s: State, id: TaskID): nat {
    Submitting(s.submits, id) + Queued(s.queue, id) + Held(s.workers, id)
    + Reported(s.events, id) + InLoop(s.loop, id) + Final(s.store, id)
  }

  /** With Submit, queued, taken by a worker, or rejected. */
  ghost function Fates(s: State, id: TaskID): nat {
    Submitting(s.submits, id) + Queued(s.queue, id) + Taken(s.received, id) + (if id in s.rejected then 1 else 0)
  }

  // ---- the invariant ----

  /** The copy of a task that travels agrees with the stored one on what never changes. */
  ghost predicate Known(store: TaskStore.Table, t: Task) {
    t.id in store && store[t.id].stages == t.stages
  }

  ghost predicate WorkerOk(s: State, w: Worker) {
    && (Busy(w) ==> Known(s.store, w.task))
    && (w.Running? ==> w.pos < TraceLength(w.task))
    && (w.Failing? ==> w.stage < |w.task.stages| && s.cancelled)
  }

  ghost predicate Wellformed(s: State) {
    && TaskStore.WellKeyed(s.store)
    && (forall id :: id in s.submits ==> s.submits[id].task.id == id && Known(s.store, s.submits[id].task))
    && (forall i :: 0 <= i < |s.queue| ==> Known(s.store, s.queue[i]))
    && (forall i :: 0 <= i < |s.workers| ==> WorkerOk(s, s.workers[i]))
  }

  ghost predicate CountedOnce(s: State, id: TaskID) {
    && Places(s, id) == (if id in s.store then 1 else 0)
    && Fates(s, id) == (if id in s.store then 1 else 0)
  }

  ghost predicate Counted(s: State) {
    && (forall id :: CountedOnce(s, id))
    && (forall id :: id in s.rejected ==> id in s.store && s.store[id].status.Failed?)
  }

  ghost predicate Conserved(s: State) {
    Wellformed(s) && Counted(s)
  }

  // ---- how the counts change ----

  lemma {:induction false} QueuedSplit(queue: seq<Task>, id: TaskID)
    requires queue != []
    ensures Queued(queue, id) == (if queue[0].id == id then 1 else 0) + Queued(queue[1..], id)
    decreases |queue|
  {
    if |queue| > 1 {
      var front := queue[..|queue|-1];
      QueuedSplit(front, id);
      assert front[1..] == queue[1..][..|queue[1..]|-1];
    }
  }

  lemma QueuedAppend(queue: seq<Task>, t: Task, id: TaskID)
    ensures Queued(queue + [t], id) == Queued(queue, id) + if t.id == id then 1 else 0
  {
    assert (queue + [t])[..|queue|] == queue;
  }

  lemma {:induction false} ReportedSplit(events: seq<TaskEvent>, id: TaskID)
    requires events != []
    ensures Reported(events, id) == TerminalFor(events[0], id) + Reported(events[1..], id)
    decreases |events|
  {
    if |events| > 1 {
      var front := events[..|events|-1];
      ReportedSplit(front, id);
      assert front[1..] == events[1..][..|events[1..]|-1];
    }
  }

  lemma ReportedOffer(events: seq<TaskEvent>, e: TaskEvent, id: TaskID)
    requires !EmitOutcomeOf(events, e).Blocks?
    ensures Reported(Offer(events, EVENT_BUFFER, e), id) == Reported(events, id) + TerminalFor(e, id)
  {
    assert (events + [e])[..|events|] == events;
  }

  lemma {:induction false} HeldUpdate(workers: seq<Worker>, i: nat, w: Worker, id: TaskID)
    requires i < |workers|
    ensures Held(workers[i := w], id) + HeldBy(workers[i], id) == Held(workers, id) + HeldBy(w, id)
    decreases |workers|
  {
    var n := |workers| - 1;
    if i == n {
      assert workers[i := w][..n] == workers[..n];
    } else {
      HeldUpdate(workers[..n], i, w, id);
      assert workers[i := w][..n] == workers[..n][i := w];
    }
  }

  lemma {:induction false} HeldMember(workers: seq<Worker>, i: nat)
    requires i < |workers| && Busy(workers[i])
    ensures Held(workers, workers[i].task.id) >= 1
    decreases |workers|
  {
    if i < |workers| - 1 { HeldMember(workers[..|workers|-1], i); }
  }

  /** Two workers with the same task would count twice. */
  lemma HeldOnce(workers: seq<Worker>, i: nat, j: nat)
    requires i < |workers| && j < |workers| && i != j
    requires Busy(workers[i]) && Busy(workers[j]) && workers[i].task.id == workers[j].task.id
    ensures Held(workers, workers[i].task.id) >= 2
  {
    HeldUpdate(workers, i, Idle, workers[i].task.id);
    HeldMember(workers[i := Idle], j);
  }

  lemma TakenAppend(received: seq<TaskID>, x: TaskID, id: TaskID)
    ensures Taken(received + [x], id) == Taken(received, id) + if x == id then 1 else 0
  {
    assert (received + [x])[..|received|] == received;
  }

  // ---- preservation ----

  lemma CountSubmit(s: State, step: SubmitStep, id: TaskID)
    requires Wellformed(s) && SubmitEnabled(s, step) && CountedOnce(s, id)
    ensures CountedOnce(ApplySubmit(s, step), id)
  {
    hide Queued, Held, Reported, Taken;
    match step
    case Dispatch(i) =>
      hide CountedOnce;
      CountDispatch(s, step, id);
    case Handoff(i, w) =>
      hide CountedOnce;
      CountDispatch(s, step, id);
    case _ =>
  }

  lemma CountDispatch(s: State, step: SubmitStep, id: TaskID)
    requires Wellformed(s) && SubmitEnabled(s, step) && CountedOnce(s, id) && (step.Dispatch? || step.Handoff?)
    ensures CountedOnce(ApplySubmit(s, step), id)
  {
    var task := s.submits[step.id].task;
    assert task.id == step.id;
    hide Queued, Held, Reported, Taken, Wellformed;
    if step.Dispatch? {
      QueuedAppend(s.queue, task, id);
    } else {
      HeldUpdate(s.workers, step.w, Worker.Running(task, 0), id);
      TakenAppend(s.received, task.id, id);
    }
  }

  lemma CountWorker(s: State, w: nat, step: WorkerStep, id: TaskID)
    requires WorkerEnabled(s, w, step) && CountedOnce(s, id)
    ensures CountedOnce(ApplyWorker(s, w, step), id)
  {
    hide Queued, Held, Reported, Taken;
    var wk := s.workers[w];
    match step
    case Receive =>
      HeldUpdate(s.workers, w, Worker.Running(s.queue[0], 0), id);
      QueuedSplit(s.queue, id);
      TakenAppend(s.received, s.queue[0].id, id);
    case SeeCancel => HeldUpdate(s.workers, w, Failing(wk.task, wk.pos / 2 - 1), id);
    case Exit => HeldUpdate(s.workers, w, Exited, id);
    case _ =>
      HeldUpdate(s.workers, w, AfterEmit(wk), id);
      ReportedOffer(s.events, NextEvent(wk), id);
  }

  lemma CountLoop(s: State, step: LoopStep, id: TaskID)
    requires LoopEnabled(s, step) && CountedOnce(s, id)
    ensures CountedOnce(ApplyLoop(s, step), id)
  {
    if step.Take? { ReportedSplit(s.events, id); }
  }

  /** The pump and the environment leave everything upstream alone. */
  ghost predicate SameUpstream(s: State, s': State) {
    && s'.submits == s.submits && s'.queue == s.queue && s'.workers == s.workers && s'.events == s.events
    && s'.loop == s.loop && s'.store == s.store && s'.received == s.received && s'.rejected == s.rejected
    && s'.log == s.log && s'.published == s.published && (s.cancelled ==> s'.cancelled)
  }

  lemma PumpKeeps(s: State, step: PumpStep)
    requires PumpEnabled(s, step)
    ensures SameUpstream(s, ApplyPump(s, step))
  {
  }

  lemma EnvKeeps(s: State, step: EnvStep)
    requires EnvEnabled(s, step)
    ensures SameUpstream(s, ApplyEnv(s, step))
  {
  }

  lemma CountStep(s: State, step: Step, id: TaskID)
    requires Conserved(s) && Enabled(s, step)
    ensures CountedOnce(Apply(s, step), id)
  {
    hide ApplySubmit, ApplyWorker, ApplyLoop, ApplyPump, ApplyEnv;
    hide SubmitEnabled, WorkerEnabled, LoopEnabled, PumpEnabled, EnvEnabled;
    hide CountedOnce, Wellformed;
    assert CountedOnce(s, id);
    match step
    case OfSubmit(sub) => CountSubmit(s, sub, id);
    case OfWorker(w, work) => CountWorker(s, w, work, id);
    case OfLoop(act) => CountLoop(s, act, id);
    case OfPump(pumping) =>
      PumpKeeps(s, pumping);
      CountOther(s, ApplyPump(s, pumping), id);
    case OfEnv(env) =>
      EnvKeeps(s, env);
      CountOther(s, ApplyEnv(s, env), id);
  }

  lemma CountOther(s: State, s': State, id: TaskID)
    requires CountedOnce(s, id) && SameUpstream(s, s')
    ensures CountedOnce(s', id)
  {
  }

  /** What a step may do to the stored task `id`. */
  ghost predicate TaskKept(store: TaskStore.Table, store': TaskStore.Table, id: TaskID)
    requires id in store
  {
    && id in store'
    && store'[id].userID == store[id].userID && store'[id].stages == store[id].stages
    && store'[id].id == store[id].id
    && (IsTerminal(store[id].status) ==> store'[id].status == store[id].status)
  }

  lemma StoreSubmit(s: State, step: SubmitStep, id: TaskID)
    requires CountedOnce(s, id) && SubmitEnabled(s, step) && id in s.store
    ensures TaskKept(s.store, ApplySubmit(s, step).store, id)
  {
    hide Queued, Held, Reported, Taken;
  }

  lemma StoreLoop(s: State, step: LoopStep, id: TaskID)
    requires CountedOnce(s, id) && LoopEnabled(s, step) && id in s.store
    ensures TaskKept(s.store, ApplyLoop(s, step).store, id)
  {
    hide Queued, Held, Reported, Taken;
  }

  lemma StoreWorker(s: State, w: nat, step: WorkerStep)
    requires WorkerEnabled(s, w, step)
    ensures ApplyWorker(s, w, step).store == s.store && ApplyWorker(s, w, step).rejected == s.rejected
  {
  }

  /** Once settled, a stored task keeps its status whatever happens: only the one unsettled
      place of a task can settle it. Of the rest only the dispatch stamp changes. */
  lemma StoreStep(s: State, step: Step, id: TaskID)
    requires Conserved(s) && Enabled(s, step) && id in s.store
    ensures TaskKept(s.store, Apply(s, step).store, id)
  {
    hide ApplySubmit, ApplyWorker, ApplyLoop, ApplyPump, ApplyEnv;
    hide SubmitEnabled, WorkerEnabled, LoopEnabled, PumpEnabled, EnvEnabled;
    hide CountedOnce, Wellformed;
    assert CountedOnce(s, id);
    match step
    case OfSubmit(sub) => StoreSubmit(s, sub, id);
    case OfWorker(w, work) => StoreWorker(s, w, work);
    case OfLoop(act) => StoreLoop(s, act, id);
    case OfPump(pumping) => PumpKeeps(s, pumping);
    case OfEnv(env) => EnvKeeps(s, env);
  }

  lemma WellformedParts(s: State, s': State)
    requires Wellformed(s)
    requires forall t :: Known(s.store, t) ==> Known(s'.store, t)
    requires TaskStore.WellKeyed(s'.store) && (s.cancelled ==> s'.cancelled)
    requires forall id :: id in s'.submits ==>
               s'.submits[id].task.id == id &&
               ((id in s.submits && s'.submits[id].task == s.submits[id].task) || Known(s'.store, s'.submits[id].task))
    requires forall i :: 0 <= i < |s'.queue| ==> Known(s.store, s'.queue[i])
    requires forall i :: 0 <= i < |s'.workers| ==>
               (i < |s.workers| && s'.workers[i] == s.workers[i]) || WorkerOk(s', s'.workers[i])
    ensures Wellformed(s')
  {
    forall i | 0 <= i < |s'.workers| ensures WorkerOk(s', s'.workers[i]) {
      if i < |s.workers| && s'.workers[i] == s.workers[i] {
        assert WorkerOk(s, s.workers[i]);
      }
    }
  }

  lemma WellformedWorker(s: State, w: nat, step: WorkerStep)
    requires Wellformed(s) && WorkerEnabled(s, w, step)
    ensures Wellformed(ApplyWorker(s, w, step))
  {
    assert WorkerOk(s, s.workers[w]);
    var s' := ApplyWorker(s, w, step);
    assert s'.store == s.store && s'.submits == s.submits && s'.cancelled == s.cancelled;
    assert WorkerOk(s', s'.workers[w]);
    hide Known, WorkerOk;
    WellformedParts(s, s');
  }

  lemma WellformedCreate(s: State, task: Task)
    requires Wellformed(s) && SubmitEnabled(s, Create(task))
    ensures Wellformed(ApplySubmit(s, Create(task)))
  {
    WellformedParts(s, ApplySubmit(s, Create(task)));
  }

  lemma WellformedStore(s: State, step: SubmitStep)
    requires Wellformed(s) && SubmitEnabled(s, step) && (step.MarkFailed? || step.Stamp?)
    ensures Wellformed(ApplySubmit(s, step))
  {
    var s' := ApplySubmit(s, step);
    assert forall t :: Known(s.store, t) ==> Known(s'.store, t);
    WellformedParts(s, s');
  }

  lemma WellformedDispatch(s: State, step: SubmitStep)
    requires Wellformed(s) && SubmitEnabled(s, step)
    requires step.Dispatch? || step.Handoff? || step.DispatchFull?
    ensures Wellformed(ApplySubmit(s, step))
  {
    assert Known(s.store, s.submits[step.id].task);
    hide Known;
    WellformedParts(s, ApplySubmit(s, step));
  }

  lemma WellformedSubmit(s: State, step: SubmitStep)
    requires Wellformed(s) && SubmitEnabled(s, step)
    ensures Wellformed(ApplySubmit(s, step))
  {
    hide Wellformed;
    match step
    case Create(task) => WellformedCreate(s, task);
    case MarkFailed(_, _) => WellformedStore(s, step);
    case Stamp(_, _) => WellformedStore(s, step);
    case _ => WellformedDispatch(s, step);
  }

  lemma WellformedLoop(s: State, step: LoopStep)
    requires Wellformed(s) && LoopEnabled(s, step)
    ensures Wellformed(ApplyLoop(s, step))
  {
    WellformedParts(s, ApplyLoop(s, step));
  }

  lemma WellformedStep(s: State, step: Step)
    requires Wellformed(s) && Enabled(s, step)
    ensures Wellformed(Apply(s, step))
  {
    hide ApplySubmit, ApplyWorker, ApplyLoop, ApplyPump, ApplyEnv;
    hide SubmitEnabled, WorkerEnabled, LoopEnabled, PumpEnabled, EnvEnabled;
    match step
    case OfSubmit(sub) => WellformedSubmit(s, sub);
    case OfWorker(w, work) => WellformedWorker(s, w, work);
    case OfLoop(act) => WellformedLoop(s, act);
    case OfPump(pumping) =>
      PumpKeeps(s, pumping);
      WellformedParts(s, ApplyPump(s, pumping));
    case OfEnv(env) =>
      EnvKeeps(s, env);
      WellformedParts(s, ApplyEnv(s, env));
  }

  lemma RejectedSubmit(s: State, step: SubmitStep)
    requires Wellformed(s) && SubmitEnabled(s, step)
    ensures forall id :: id in ApplySubmit(s, step).rejected && id !in s.rejected ==>
              id in ApplySubmit(s, step).store && ApplySubmit(s, step).store[id].status.Failed?
  {
  }

  lemma RejectedLoop(s: State, step: LoopStep)
    requires LoopEnabled(s, step)
    ensures ApplyLoop(s, step).rejected == s.rejected
  {
  }

  lemma RejectedStep(s: State, step: Step, id: TaskID)
    requires Conserved(s) && Enabled(s, step) && id in Apply(s, step).rejected
    ensures id in Apply(s, step).store && Apply(s, step).store[id].status.Failed?
  {
    hide ApplySubmit, ApplyWorker, ApplyLoop, ApplyPump, ApplyEnv;
    hide SubmitEnabled, WorkerEnabled, LoopEnabled, PumpEnabled, EnvEnabled;
    hide CountedOnce, Wellformed;
    if id in s.rejected {
      StoreStep(s, step, id);
    } else {
      match step
      case OfSubmit(sub) => RejectedSubmit(s, sub);
      case OfWorker(w, work) => StoreWorker(s, w, work);
      case OfLoop(act) => RejectedLoop(s, act);
      case OfPump(pumping) => PumpKeeps(s, pumping);
      case OfEnv(env) => EnvKeeps(s, env);
    }
  }

  lemma ConservedStep(s: State, step: Step)
    requires Conserved(s) && Enabled(s, step)
    ensures Conserved(Apply(s, step))
  {
    hide Apply, Enabled, CountedOnce, Wellformed;
    var s' := Apply(s, step);
    WellformedStep(s, step);
    forall id ensures CountedOnce(s', id) {
      CountStep(s, step, id);
    }
    forall id | id in s'.rejected ensures id in s'.store && s'.store[id].status.Failed? {
      RejectedStep(s, step, id);
    }
  }

  lemma {:induction false} NobodyHolds(workers: seq<Worker>, id: TaskID)
    requires forall i :: 0 <= i < |workers| ==> !Busy(workers[i])
    ensures Held(workers, id) == 0
    decreases |workers|
  {
    if workers != [] { NobodyHolds(workers[..|workers|-1], id); }
  }

  lemma InitConserved(s: State)
    requires Init(s)
    ensures Conserved(s)
  {
    forall id ensures CountedOnce(s, id) {
      NobodyHolds(s.workers, id);
    }
  }

  lemma {:induction false} RunConserved(states: seq<State>, steps: seq<Step>, i: nat)
    requires IsRun(states, steps) && i < |states|
    ensures Conserved(states[i])
  {
    if i == 0 {
      InitConserved(states[0]);
    } else {
      RunConserved(states, steps, i - 1);
      ConservedStep(states[i-1], steps[i-1]);
    }
  }

  // ---- the theorems ----

  /** In every state of every run a created task is in exactly one place; a worker takes it at
      most once and never if it was rejected; and once taken it is held by one worker, or its
      single terminal event is on its way, or it is final: nothing is executed twice or lost. */
  lemma ExactlyOnePlace(states: seq<State>, steps: seq<Step>, i: nat, id: TaskID)
    requires IsRun(states, steps) && i < |states|
    ensures var s := states[i];
            && Places(s, id) == (if id in s.store then 1 else 0)
            && Taken(s.received, id) <= 1
            && (Taken(s.received, id) == 1 ==>
                  Held(s.workers, id) + Reported(s.events, id) + InLoop(s.loop, id) + Final(s.store, id) == 1)
            && (id in s.rejected ==>
                  Taken(s.received, id) == 0 && id in s.store && s.store[id].status.Failed?)
  {
    hide Queued, Held, Reported, Taken;
    RunConserved(states, steps, i);
    assert CountedOnce(states[i], id);
  }

  /** A stored task never changes owner or stages, and a terminal status never changes at all. */
  lemma {:induction false} SettledForever(states: seq<State>, steps: seq<Step>, i: nat, j: nat, id: TaskID)
    requires IsRun(states, steps) && i <= j < |states| && id in states[i].store
    ensures TaskKept(states[i].store, states[j].store, id)
    decreases j
  {
    hide Apply, Enabled, Conserved;
    if i < j {
      SettledForever(states, steps, i, j - 1, id);
      RunConserved(states, steps, j - 1);
      StoreStep(states[j-1], steps[j-1], id);
    }
  }
}
