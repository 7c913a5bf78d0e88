/** Pattern 1 as a step machine: every channel operation and every store call is one step, and
    any interleaving of submitters, workers, the manager's event loop, the pump and the
    subscribers is a run. */
module Pattern1 {
  import opened Models
  import opened Transport
  import opened Executor
  import EventBus
  import TaskStore

  const BRIDGE_BUFFER := EventBus.SUBSCRIBER_BUFFER
  const HUB_BUFFER := EventBus.SUBSCRIBER_BUFFER

  /** Where a call of Submit stands after its task was created. */
  datatype SubmitPc = Created | Rejecting | Dispatched
  datatype Submission = Submission(task: Task, pc: SubmitPc)

  /** `Running(task, pos)` has emitted the first `pos` events of the task's trace;
      `Failing(task, stage)` saw the cancellation while sleeping in `stage`. */
  datatype Worker = Idle | Running(task: Task, pos: nat) | Failing(task: Task, stage: nat) | Exited

  /** The manager's event loop between its four operations. */
  datatype Loop = Ready | Received(ev: TaskEvent) | Enriched(ev: TaskEvent) | Persisted(ev: TaskEvent) | Stopped

  datatype Pump = Waiting | Holding(ev: TaskEvent) | Finished

  /** A subscriber of the hub; `delivered` is everything its channel ever accepted. */
  datatype Subscriber = Subscriber(user: UserID, active: bool, buffer: seq<TaskEvent>, delivered: seq<TaskEvent>)

  datatype State = State(
    queueSize: nat,
    cancelled: bool,
    store: TaskStore.Table,
    submits: map<TaskID, Submission>,
    queue: seq<Task>,
    workers: seq<Worker>,
    events: seq<TaskEvent>,
    loop: Loop,
    live: bool,                   // the pump's channel is in the bridge's live set
    closed: bool,                 // the pump's channel is closed
    bridge: seq<TaskEvent>,       // the pump's channel
    pump: Pump,
    subs: map<nat, Subscriber>,
    // history
    received: seq<TaskID>,        // task ids workers took from the queue
    rejected: set<TaskID>,        // task ids marked failed by Submit
    log: seq<TaskEvent>,          // every event a worker emitted
    published: seq<TaskEvent>)    // every event the manager published

  /** A call of Submit. Creating a task whose id exists changes nothing and is not a step. */
  datatype SubmitStep =
    | Create(task: Task)
    | Dispatch(id: TaskID)
    | Handoff(id: TaskID, w: nat)
    | DispatchFull(id: TaskID)
    | MarkFailed(id: TaskID, now: int)
    | Stamp(id: TaskID, now: int)

  datatype WorkerStep = Receive | Emit | SeeCancel | EmitFailed | Exit

  datatype LoopStep = Take | Enrich | Persist(now: int) | Publish | Stop

  /** The pump, and the goroutine that ends its subscription. */
  datatype PumpStep = Pull | Push | Unsubscribe | CloseChannel | Finish

  datatype EnvStep =
    | HubSubscribe(c: nat, user: UserID)
    | HubUnsubscribe(c: nat)
    | ClientRead(c: nat)
    | Cancel

  datatype Step =
    | OfSubmit(sub: SubmitStep)
    | OfWorker(w: nat, work: WorkerStep)
    | OfLoop(act: LoopStep)
    | OfPump(pumping: PumpStep)
    | OfEnv(env: EnvStep)

  function Initial(queueSize: nat, workers: nat): State {
    State(queueSize, false, map[], map[], [], seq(workers, _ => Idle), [], Ready,
          true, false, [], Waiting, map[], [], {}, [], [])
  }

  predicate Init(s: State) {
    s == Initial(s.queueSize, |s.workers|)
  }

  predicate Busy(w: Worker) { w.Running? || w.Failing? }

  /** The event a busy worker emits next. */
  function NextEvent(w: Worker): TaskEvent
    requires Busy(w) && (w.Running? ==> w.pos < TraceLength(w.task))
  {
    if w.Running? then EventAt(w.task, w.pos) else StatusEvent(w.task, Status.Failed)
  }

  predicate SubmitEnabled(s: State, step: SubmitStep) {
    match step
    case Create(task) => task.status.Pending? && task.completedAt.None? && task.id !in s.store
    case Dispatch(id) => id in s.submits && s.submits[id].pc.Created? && |s.queue| < s.queueSize
    // A send to an empty channel may go straight to a waiting receiver.
    case Handoff(id, w) =>
      id in s.submits && s.submits[id].pc.Created? && s.queue == [] && w < |s.workers| && s.workers[w].Idle?
    case DispatchFull(id) => id in s.submits && s.submits[id].pc.Created? && |s.queue| >= s.queueSize
    case MarkFailed(id, _) => id in s.submits && s.submits[id].pc.Rejecting?
    case Stamp(id, _) => id in s.submits && s.submits[id].pc.Dispatched?
  }

  function ApplySubmit(s: State, step: SubmitStep): State
    requires SubmitEnabled(s, step)
  {
    match step
    case Create(task) =>
      s.(store := TaskStore.Apply(s.store, TaskStore.Create(task)),
         submits := s.submits[task.id := Submission(task, Created)])
    case Dispatch(id) =>
      s.(queue := s.queue + [s.submits[id].task],
         submits := s.submits[id := s.submits[id].(pc := Dispatched)])
    case Handoff(id, w) =>
      s.(workers := s.workers[w := Worker.Running(s.submits[id].task, 0)],
         received := s.received + [s.submits[id].task.id],
         submits := s.submits[id := s.submits[id].(pc := Dispatched)])
    case DispatchFull(id) =>
      s.(submits := s.submits[id := s.submits[id].(pc := Rejecting)])
    case MarkFailed(id, now) =>
      s.(store := TaskStore.Apply(s.store, TaskStore.SetStatus(id, Status.Failed, now)),
         submits := s.submits - {id},
         rejected := s.rejected + {id})
    case Stamp(id, now) =>
      s.(store := TaskStore.Apply(s.store, TaskStore.SetDispatchedAt(id, now)),
         submits := s.submits - {id})
  }

  predicate WorkerEnabled(s: State, w: nat, step: WorkerStep) {
    w < |s.workers| &&
    var wk := s.workers[w];
    match step
    case Receive => wk.Idle? && s.queue != []
    // A terminal event waits for room in the channel.
    case Emit => wk.Running? && wk.pos < TraceLength(wk.task) && !EmitOutcomeOf(s.events, NextEvent(wk)).Blocks?
    // Only the sleep inside a stage watches the context.
    case SeeCancel => s.cancelled && wk.Running? && wk.pos % 2 == 0 && 0 < wk.pos < TraceLength(wk.task) - 1
    case EmitFailed => wk.Failing? && !EmitOutcomeOf(s.events, NextEvent(wk)).Blocks?
    case Exit => s.cancelled && wk.Idle?
  }

  /** The worker after its next Emit: the last event of a trace ends the run. */
  function AfterEmit(wk: Worker): Worker
    requires Busy(wk)
  {
    if wk.Running? && wk.pos + 1 < TraceLength(wk.task) then Worker.Running(wk.task, wk.pos + 1) else Idle
  }

  function ApplyWorker(s: State, w: nat, step: WorkerStep): State
    requires WorkerEnabled(s, w, step)
  {
    var wk := s.workers[w];
    match step
    case Receive =>
      s.(queue := s.queue[1..],
         workers := s.workers[w := Worker.Running(s.queue[0], 0)],
         received := s.received + [s.queue[0].id])
    case SeeCancel => s.(workers := s.workers[w := Failing(wk.task, wk.pos / 2 - 1)])
    case Exit => s.(workers := s.workers[w := Exited])
    case _ =>
      s.(workers := s.workers[w := AfterEmit(wk)],
         events := Offer(s.events, EVENT_BUFFER, NextEvent(wk)),
         log := s.log + [NextEvent(wk)])
  }

  predicate LoopEnabled(s: State, step: LoopStep) {
    match step
    case Take => s.loop.Ready? && s.events != []
    case Enrich => s.loop.Received?
    case Persist(_) => s.loop.Enriched?
    case Publish => s.loop.Persisted?
    case Stop => s.loop.Ready? && s.cancelled
  }

  function ApplyLoop(s: State, step: LoopStep): State
    requires LoopEnabled(s, step)
  {
    match step
    case Take => s.(loop := Received(s.events[0]), events := s.events[1..])
    case Enrich => s.(loop := Enriched(TaskStore.WithOwner(s.store, s.loop.ev)))
    case Persist(now) =>
      var ev := s.loop.ev;
      s.(loop := Persisted(ev),
         store := if IsTerminalEvent(ev)
                  then TaskStore.Apply(s.store, TaskStore.SetStatus(ev.taskID, ev.status, now))
                  else s.store)
    case Publish =>
      s.(loop := Ready,
         bridge := if s.live then Offer(s.bridge, BRIDGE_BUFFER, s.loop.ev) else s.bridge,
         published := s.published + [s.loop.ev])
    case Stop => s.(loop := Stopped)
  }

  predicate PumpEnabled(s: State, step: PumpStep) {
    match step
    case Pull => s.pump.Waiting? && s.bridge != []
    case Push => s.pump.Holding?
    case Unsubscribe => s.cancelled && s.live
    case CloseChannel => s.cancelled && !s.live && !s.closed
    case Finish => s.pump.Waiting? && s.bridge == [] && s.closed
  }

  /** Hub.Publish as one subscriber sees it: an offer to its channel if the event is its user's. */
  function Deliver(sub: Subscriber, ev: TaskEvent): Subscriber {
    if sub.active && sub.user == ev.userID && |sub.buffer| < HUB_BUFFER
    then sub.(buffer := Offer(sub.buffer, HUB_BUFFER, ev), delivered := sub.delivered + [ev])
    else sub
  }

  function ApplyPump(s: State, step: PumpStep): State
    requires PumpEnabled(s, step)
  {
    match step
    case Pull => s.(pump := Holding(s.bridge[0]), bridge := s.bridge[1..])
    case Push => s.(pump := Waiting, subs := map c | c in s.subs :: Deliver(s.subs[c], s.pump.ev))
    case Unsubscribe => s.(live := false)
    case CloseChannel => s.(closed := true)
    case Finish => s.(pump := Finished)
  }

  predicate EnvEnabled(s: State, step: EnvStep) {
    match step
    case HubSubscribe(c, _) => c !in s.subs
    case HubUnsubscribe(c) => c in s.subs && s.subs[c].active
    case ClientRead(c) => c in s.subs && s.subs[c].buffer != []
    case Cancel => !s.cancelled
  }

  function ApplyEnv(s: State, step: EnvStep): State
    requires EnvEnabled(s, step)
  {
    match step
    case HubSubscribe(c, user) => s.(subs := s.subs[c := Subscriber(user, true, [], [])])
    case HubUnsubscribe(c) => s.(subs := s.subs[c := s.subs[c].(active := false)])
    case ClientRead(c) => s.(subs := s.subs[c := s.subs[c].(buffer := s.subs[c].buffer[1..])])
    case Cancel => s.(cancelled := true)
  }

  predicate Enabled(s: State, step: Step) {
    match step
    case OfSubmit(sub) => SubmitEnabled(s, sub)
    case OfWorker(w, work) => WorkerEnabled(s, w, work)
    case OfLoop(act) => LoopEnabled(s, act)
    case OfPump(pumping) => PumpEnabled(s, pumping)
    case OfEnv(env) => EnvEnabled(s, env)
  }

  function Apply(s: State, step: Step): State
    requires Enabled(s, step)
  {
    match step
    case OfSubmit(sub) => ApplySubmit(s, sub)
    case OfWorker(w, work) => ApplyWorker(s, w, work)
    case OfLoop(act) => ApplyLoop(s, act)
    case OfPump(pumping) => ApplyPump(s, pumping)
    case OfEnv(env) => ApplyEnv(s, env)
  }

  /** A run: `states[i+1]` follows from `states[i]` by `steps[i]`. */
  ghost predicate IsExecution(states: seq<State>, steps: seq<Step>) {
    && |states| == |steps| + 1
    && forall i :: 0 <= i < |steps| ==> Enabled(states[i], steps[i]) && states[i+1] == Apply(states[i], steps[i])
  }

  ghost predicate IsRun(states: seq<State>, steps: seq<Step>) {
    IsExecution(states, steps) && Init(states[0])
  }

  // ---- building executions ----

  ghost function Last(states: seq<State>): State
    requires states != []
  {
    states[|states|-1]
  }

  lemma Extend(states: seq<State>, steps: seq<Step>, step: Step) returns (states': seq<State>, steps': seq<Step>)
    requires IsExecution(states, steps) && Enabled(Last(states), step)
    ensures IsExecution(states', steps') && Last(states') == Apply(Last(states), step)
    ensures states' == states + [Last(states')] && steps' == steps + [step]
  {
    hide Enabled, Apply;
    states', steps' := states + [Apply(Last(states), step)], steps + [step];
  }
}
