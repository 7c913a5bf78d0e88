/** Runs of Pattern 1 that show what it does not promise: a subscriber that misses the end of a
    task, a task stamped after it completed, and tasks stranded by cancellation. */
module Pattern1Runs {
  import opened Models
  import opened Transport
  import opened Executor
  import opened Pattern1
  import opened Pattern1Conservation
  import opened Pattern1Order
  import opened Pattern1Liveness
  import opened Pattern1Delivery
  import opened Pattern1Stranding
  import opened Subsequences

  /** Nothing is under way; the only worker is in state `w`, and the only subscriber was given the
      events `d` and has read none of them. */
  ghost predicate Rests(s: State, user: UserID, w: Worker, d: seq<TaskEvent>) {
    && s.queueSize == 1 && !s.cancelled && s.queue == [] && s.workers == [w]
    && s.events == [] && s.loop.Ready? && s.live && s.bridge == [] && s.pump.Waiting?
    && s.subs == map[0 := Subscriber(user, true, d, d)] && |d| <= HUB_BUFFER
  }

  ghost predicate Owns(s: State, user: UserID, id: TaskID) {
    id in s.store && s.store[id].userID == user
  }

  /** These runs persist every end at time 0. */
  ghost predicate Ended(task: Task, status: Status) {
    task.status == status && task.completedAt == Some(0)
  }

  /** A run that goes on from another. */
  ghost predicate Continues(states: seq<State>, steps: seq<Step>, states': seq<State>, steps': seq<Step>) {
    IsRun(states', steps') && states <= states' && steps <= steps'
  }

  /** The parts of a state that reporting an event leaves alone. */
  ghost predicate SameSubmits(s: State, s': State) {
    s'.submits == s.submits && s'.rejected == s.rejected && s'.store.Keys == s.store.Keys
  }

  // ---- submitting a task and taking it ----

  lemma Takes(states: seq<State>, steps: seq<Step>, user: UserID, d: seq<TaskEvent>, task: Task)
    returns (states': seq<State>, steps': seq<Step>)
    requires IsRun(states, steps) && Rests(Last(states), user, Idle, d) && Last(states).submits == map[]
    requires task.status.Pending? && task.completedAt.None? && task.userID == user
    requires task.id !in Last(states).store
    ensures Continues(states, steps, states', steps')
    ensures Rests(Last(states'), user, Worker.Running(task, 0), d) && Owns(Last(states'), user, task.id)
    ensures Last(states').submits == map[task.id := Submission(task, Dispatched)]
    ensures Last(states').rejected == Last(states).rejected
    ensures Last(states').store.Keys == Last(states).store.Keys + {task.id}
  {
    states', steps' := Extend(states, steps, OfSubmit(Create(task)));
    states', steps' := Extend(states', steps', OfSubmit(Dispatch(task.id)));
    states', steps' := Extend(states', steps', OfWorker(0, Receive));
  }

  lemma Stamps(states: seq<State>, steps: seq<Step>, user: UserID, w: Worker, d: seq<TaskEvent>, task: Task, now: int)
    returns (states': seq<State>, steps': seq<Step>)
    requires IsRun(states, steps) && Rests(Last(states), user, w, d) && Owns(Last(states), user, task.id)
    requires Last(states).submits == map[task.id := Submission(task, Dispatched)]
    ensures Continues(states, steps, states', steps')
    ensures var s, s' := Last(states), Last(states');
            && Rests(s', user, w, d) && s'.submits == map[] && s'.rejected == s.rejected
            && s'.store == s.store[task.id := s.store[task.id].(dispatchedAt := Some(now))]
  {
    states', steps' := Extend(states, steps, OfSubmit(Stamp(task.id, now)));
  }

  // ---- one event on its way from the worker to the subscriber ----

  lemma Emits(states: seq<State>, steps: seq<Step>, user: UserID, d: seq<TaskEvent>, w: Worker)
    returns (states': seq<State>, steps': seq<Step>)
    requires IsRun(states, steps) && Rests(Last(states), user, w, d) && w.Running? && w.pos < TraceLength(w.task)
    ensures Continues(states, steps, states', steps')
    ensures Rests(Last(states').(loop := Ready), user, AfterEmit(w), d)
    ensures Last(states').loop == Received(NextEvent(w)) && Last(states').store == Last(states).store
    ensures SameSubmits(Last(states), Last(states'))
  {
    states', steps' := Extend(states, steps, OfWorker(0, Emit));
    states', steps' := Extend(states', steps', OfLoop(Take));
  }

  lemma Publishes(states: seq<State>, steps: seq<Step>, user: UserID, d: seq<TaskEvent>, w: Worker)
    returns (states': seq<State>, steps': seq<Step>)
    requires IsRun(states, steps) && Rests(Last(states).(loop := Ready), user, w, d) && Last(states).loop.Received?
    requires Owns(Last(states), user, Last(states).loop.ev.taskID)
    ensures Continues(states, steps, states', steps')
    ensures var s, s' := Last(states), Last(states'); var e := s.loop.ev.(userID := user);
            && s'.bridge == [e] && Rests(s'.(bridge := []), user, w, d)
            && Owns(s', user, e.taskID) && SameSubmits(s, s')
            && (IsTerminalEvent(e) ==> Ended(s'.store[e.taskID], e.status))
  {
    states', steps' := Extend(states, steps, OfLoop(Enrich));
    states', steps' := Extend(states', steps', OfLoop(Persist(0)));
    states', steps' := Extend(states', steps', OfLoop(Publish));
  }

  lemma Delivers(states: seq<State>, steps: seq<Step>, user: UserID, d: seq<TaskEvent>, w: Worker, e: TaskEvent)
    returns (states': seq<State>, steps': seq<Step>)
    requires IsRun(states, steps) && Rests(Last(states).(bridge := []), user, w, d)
    requires Last(states).bridge == [e] && e.userID == user
    ensures Continues(states, steps, states', steps')
    ensures Rests(Last(states'), user, w, Offer(d, HUB_BUFFER, e))
    ensures Last(states').store == Last(states).store && SameSubmits(Last(states), Last(states'))
  {
    states', steps' := Extend(states, steps, OfPump(Pull));
    states', steps' := Extend(states', steps', OfPump(Push));
  }

  /** The worker's next event goes all the way, and is dropped if the subscriber's channel is full. */
  lemma Round(states: seq<State>, steps: seq<Step>, user: UserID, d: seq<TaskEvent>, w: Worker)
    returns (states': seq<State>, steps': seq<Step>)
    requires IsRun(states, steps) && Rests(Last(states), user, w, d) && w.Running? && w.pos < TraceLength(w.task)
    requires Owns(Last(states), user, w.task.id)
    ensures Continues(states, steps, states', steps')
    ensures var s, s' := Last(states), Last(states'); var e := NextEvent(w).(userID := user);
            && Rests(s', user, AfterEmit(w), Offer(d, HUB_BUFFER, e))
            && Owns(s', user, w.task.id) && SameSubmits(s, s')
            && (IsTerminalEvent(e) ==> Ended(s'.store[w.task.id], e.status))
  {
    hide Rests, IsRun;
    states', steps' := Emits(states, steps, user, d, w);
    states', steps' := Publishes(states', steps', user, d, AfterEmit(w));
    states', steps' := Delivers(states', steps', user, d, AfterEmit(w), NextEvent(w).(userID := user));
  }

  // ---- a whole task ----

  /** Events in `d` are about ids shorter than `n`, or about `id` and not terminal. */
  ghost predicate OlderOrOpen(d: seq<TaskEvent>, n: nat, id: TaskID) {
    forall e :: e in d ==> |e.taskID| < n || (e.taskID == id && !IsTerminalEvent(e))
  }

  ghost function Min(a: int, b: int): int { if a < b then a else b }

  /** The rest of an execution; its end is lost if that much does not fit. */
  lemma {:induction false} Executes(states: seq<State>, steps: seq<Step>, user: UserID, d: seq<TaskEvent>, w: Worker)
    returns (states': seq<State>, steps': seq<Step>, d': seq<TaskEvent>)
    requires IsRun(states, steps) && Rests(Last(states), user, w, d) && w.Running? && w.pos < TraceLength(w.task)
    requires Owns(Last(states), user, w.task.id)
    requires OlderOrOpen(d, |w.task.id|, w.task.id)
    ensures Continues(states, steps, states', steps')
    ensures var s, s' := Last(states), Last(states'); var total := |d| + TraceLength(w.task) - w.pos;
            && Rests(s', user, Idle, d') && |d'| == Min(HUB_BUFFER, total)
            && Owns(s', user, w.task.id) && SameSubmits(s, s') && Ended(s'.store[w.task.id], Completed)
            && OlderOrOpen(d', |w.task.id| + 1, w.task.id)
            && (total > HUB_BUFFER ==> OlderOrOpen(d', |w.task.id|, w.task.id))
    decreases TraceLength(w.task) - w.pos
  {
    var e := NextEvent(w).(userID := user);
    states', steps' := Round(states, steps, user, d, w);
    d' := Offer(d, HUB_BUFFER, e);
    assert |d'| == Min(HUB_BUFFER, |d| + 1);
    if w.pos + 1 < TraceLength(w.task) {
      states', steps', d' := Executes(states', steps', user, d', AfterEmit(w));
    }
  }

  /** A task is submitted, stamped and executed. */
  lemma Completes(states: seq<State>, steps: seq<Step>, user: UserID, d: seq<TaskEvent>, task: Task)
    returns (states': seq<State>, steps': seq<Step>, d': seq<TaskEvent>)
    requires IsRun(states, steps) && Rests(Last(states), user, Idle, d) && Last(states).submits == map[]
    requires task.status.Pending? && task.completedAt.None? && task.userID == user
    requires task.id !in Last(states).store && OlderOrOpen(d, |task.id|, task.id)
    ensures Continues(states, steps, states', steps')
    ensures var s, s' := Last(states), Last(states'); var total := |d| + TraceLength(task);
            && Rests(s', user, Idle, d') && |d'| == Min(HUB_BUFFER, total)
            && s'.submits == map[] && s'.rejected == s.rejected && s'.store.Keys == s.store.Keys + {task.id}
            && Owns(s', user, task.id) && Ended(s'.store[task.id], Completed)
            && OlderOrOpen(d', |task.id| + 1, task.id)
            && (total > HUB_BUFFER ==> OlderOrOpen(d', |task.id|, task.id))
  {
    hide Rests, IsRun, OlderOrOpen;
    states', steps' := Takes(states, steps, user, d, task);
    states', steps' := Stamps(states', steps', user, Worker.Running(task, 0), d, task, 0);
    states', steps', d' := Executes(states', steps', user, d, Worker.Running(task, 0));
  }

  // ---- four tasks of the largest size ----

  /** A task as NewTask makes it for eight stages; its id is `n` letters long. */
  function NthTask(user: UserID, n: nat): Task {
    Task(seq(n, _ => 'x'), "", Pending, user, 0, None, None,
         seq(|STAGE_NAMES|, i requires 0 <= i < |STAGE_NAMES| => Stage(i, STAGE_NAMES[i])))
  }

  /** The subscriber comes first. */
  lemma Subscribes(user: UserID) returns (states: seq<State>, steps: seq<Step>)
    ensures IsRun(states, steps) && |states| == 2 && Rests(states[1], user, Idle, [])
    ensures var s := states[1]; s.store == map[] && s.submits == map[] && s.rejected == {} && s.log == []
  {
    states, steps := [Initial(1, 1)], [];
    assert IsExecution(states, steps);
    states, steps := Extend(states, steps, OfEnv(HubSubscribe(0, user)));
  }

  /** The first `n` tasks have run, one after the other. */
  ghost predicate Backlog(states: seq<State>, steps: seq<Step>, user: UserID, d: seq<TaskEvent>, n: nat) {
    && IsRun(states, steps) && |states| >= 2 && 0 in states[1].subs && states[1].log == []
    && Rests(Last(states), user, Idle, d) && Last(states).submits == map[] && Last(states).rejected == {}
    && |d| == Min(HUB_BUFFER, 18 * n)
    && (forall id :: id in Last(states).store ==> |id| < n)
    && (forall e :: e in d ==> |e.taskID| < n)
  }

  lemma RunsTask(states: seq<State>, steps: seq<Step>, user: UserID, d: seq<TaskEvent>, n: nat)
    returns (states': seq<State>, steps': seq<Step>, d': seq<TaskEvent>)
    requires Backlog(states, steps, user, d, n)
    ensures Backlog(states', steps', user, d', n + 1)
    ensures Owns(Last(states'), user, NthTask(user, n).id)
    ensures Ended(Last(states').store[NthTask(user, n).id], Completed)
    ensures 18 * n + 18 > HUB_BUFFER ==> OlderOrOpen(d', n, NthTask(user, n).id)
  {
    var task := NthTask(user, n);
    assert |task.id| == n && TraceLength(task) == 18;
    hide Rests, IsRun;
    states', steps', d' := Completes(states, steps, user, d, task);
    hide OlderOrOpen, NthTask, Backlog;
    GrowsBacklog(states, steps, states', steps', user, d, d', n);
  }

  /** What `Completes` leaves is a backlog longer by one. */
  lemma GrowsBacklog(
      states: seq<State>, steps: seq<Step>, states': seq<State>, steps': seq<Step>,
      user: UserID, d: seq<TaskEvent>, d': seq<TaskEvent>, n: nat)
    requires Backlog(states, steps, user, d, n) && Continues(states, steps, states', steps')
    requires var s, s', id := Last(states), Last(states'), NthTask(user, n).id;
             && Rests(s', user, Idle, d') && |d'| == Min(HUB_BUFFER, |d| + 18)
             && s'.submits == map[] && s'.rejected == s.rejected && s'.store.Keys == s.store.Keys + {id}
             && OlderOrOpen(d', n + 1, id)
    ensures Backlog(states', steps', user, d', n + 1)
  {
    hide Rests, IsRun;
    assert |NthTask(user, n).id| == n;
    assert states'[1] == states[1];
  }

  lemma {:induction false} BuildsBacklog(user: UserID, n: nat)
    returns (states: seq<State>, steps: seq<Step>, d: seq<TaskEvent>)
    ensures Backlog(states, steps, user, d, n)
  {
    if n == 0 {
      states, steps := Subscribes(user);
      d := [];
    } else {
      states, steps, d := BuildsBacklog(user, n - 1);
      states, steps, d := RunsTask(states, steps, user, d, n - 1);
    }
  }

  /** A subscriber that was there before the first task and is still subscribed, in an uncancelled
      run that has come to rest with the task completed in the store, has not received the task's
      terminal event, which a step has lost. */
  lemma SlowSubscriberMissesTheEnd(user: UserID) returns (states: seq<State>, steps: seq<Step>, id: TaskID)
    ensures IsRun(states, steps) && |states| >= 2 && 0 in states[1].subs && LogOf(states[1], id) == []
    ensures var s := Last(states);
            && Quiescent(s) && !s.cancelled && id !in s.rejected
            && Owns(s, user, id) && s.store[id].status.Completed?
            && 0 in s.subs && s.subs[0].active && s.subs[0].user == user
            && (forall e :: e in s.subs[0].delivered && e.taskID == id ==> !IsTerminalEvent(e))
    ensures exists k :: 1 <= k < |steps| && Loses(states[k], steps[k], 0, id)
  {
    var d: seq<TaskEvent>;
    states, steps, d := BuildsBacklog(user, 3);
    states, steps, d := RunsTask(states, steps, user, d, 3);
    id := NthTask(user, 3).id;
    var s := Last(states);
    assert |id| == 3 && s.subs[0].delivered == d;
    NoFullTrace(s, id);
    EveryEventArrives(states, steps, 1, |states| - 1, 0, id);
  }

  /** Without its terminal event what was received is not a whole execution. */
  lemma NoFullTrace(s: State, id: TaskID)
    requires 0 in s.subs && id in s.store
    requires forall e :: e in s.subs[0].delivered && e.taskID == id ==> !IsTerminalEvent(e)
    ensures ReceivedAbout(s, 0, id) != CompletedTrace(s.store[id])
  {
    var d, got, trace := s.subs[0].delivered, ReceivedAbout(s, 0, id), CompletedTrace(s.store[id]);
    FilterMembers(About(id), EraseAll(d));
    forall e | e in got ensures !IsTerminalEvent(e) {
      var k :| 0 <= k < |d| && EraseAll(d)[k] == e;
      assert d[k] in d;
    }
    assert IsTerminalEvent(trace[|trace|-1]) && trace[|trace|-1] in trace;
  }

  // ---- a late stamp ----

  /** Whatever the task: Submit may be so late with its stamp that the task has long completed. */
  lemma StampedAfterCompletion(task: Task) returns (states: seq<State>, steps: seq<Step>)
    requires task.status.Pending? && task.completedAt.None?
    ensures IsRun(states, steps)
    ensures var s := Last(states);
            && task.id in s.store && s.store[task.id].status.Completed?
            && s.store[task.id].completedAt == Some(0) && s.store[task.id].dispatchedAt == Some(1)
  {
    var d: seq<TaskEvent>;
    states, steps := Subscribes(task.userID);
    hide Rests, IsRun;
    states, steps := Takes(states, steps, task.userID, [], task);
    states, steps, d := Executes(states, steps, task.userID, [], Worker.Running(task, 0));
    states, steps := Stamps(states, steps, task.userID, Idle, d, task, 1);
  }

  // ---- a cancelled execution ----

  /** The worker goes on as far as position `pos`. */
  lemma {:induction false} ExecutesTo(
      states: seq<State>, steps: seq<Step>, user: UserID, d: seq<TaskEvent>, w: Worker, pos: nat)
    returns (states': seq<State>, steps': seq<Step>, d': seq<TaskEvent>)
    requires IsRun(states, steps) && Rests(Last(states), user, w, d) && w.Running?
    requires w.pos <= pos < TraceLength(w.task) && Owns(Last(states), user, w.task.id)
    ensures Continues(states, steps, states', steps')
    ensures Rests(Last(states'), user, Worker.Running(w.task, pos), d') && Owns(Last(states'), user, w.task.id)
    decreases pos - w.pos
  {
    states', steps', d' := states, steps, d;
    if w.pos < pos {
      hide Rests, IsRun;
      states', steps' := Round(states, steps, user, d, w);
      d' := Offer(d, HUB_BUFFER, NextEvent(w).(userID := user));
      states', steps', d' := ExecutesTo(states', steps', user, d', AfterEmit(w), pos);
    }
  }

  lemma FailsAfter(states: seq<State>, steps: seq<Step>, user: UserID, d: seq<TaskEvent>, w: Worker)
    returns (states': seq<State>, steps': seq<Step>)
    requires IsRun(states, steps) && Rests(Last(states), user, w, d) && w.Running?
    requires w.pos % 2 == 0 && 0 < w.pos < TraceLength(w.task) - 1 && Owns(Last(states), user, w.task.id)
    ensures IsRun(states', steps')
    ensures Last(states').log == Last(states).log + [StatusEvent(w.task, Status.Failed)]
    ensures w.task.id in Last(states').store && Last(states').store[w.task.id].status.Failed?
  {
    states', steps' := Extend(states, steps, OfEnv(Cancel));
    states', steps' := Extend(states', steps', OfWorker(0, SeeCancel));
    states', steps' := Extend(states', steps', OfWorker(0, EmitFailed));
    states', steps' := Extend(states', steps', OfLoop(Take));
    states', steps' := Extend(states', steps', OfLoop(Enrich));
    states', steps' := Extend(states', steps', OfLoop(Persist(0)));
  }

  /** Whatever the task and the stage: a context cancelled during that stage makes the worker emit
      exactly the trace cancelled there, and the task fails. */
  lemma CancelledInStage(task: Task, stage: nat) returns (states: seq<State>, steps: seq<Step>)
    requires task.status.Pending? && task.completedAt.None? && stage < |task.stages|
    ensures IsRun(states, steps)
    ensures LogOf(Last(states), task.id) == CancelledTrace(task, stage)
    ensures task.id in Last(states).store && Last(states).store[task.id].status.Failed?
  {
    var d: seq<TaskEvent>;
    var w := Worker.Running(task, 2 * stage + 2);
    states, steps := Subscribes(task.userID);
    hide Rests, IsRun, Filter, CompletedTrace, EventAt, Last;
    states, steps := Takes(states, steps, task.userID, [], task);
    states, steps, d := ExecutesTo(states, steps, task.userID, [], Worker.Running(task, 0), w.pos);
    var s := Last(states);
    EmittedSoFar(states, steps, task.userID, d, w);
    states, steps := FailsAfter(states, steps, task.userID, d, w);
    FilterAppend(About(task.id), s.log, StatusEvent(task, Status.Failed));
  }

  lemma EmittedSoFar(states: seq<State>, steps: seq<Step>, user: UserID, d: seq<TaskEvent>, w: Worker)
    requires IsRun(states, steps) && Rests(Last(states), user, w, d)
    requires w.Running? && w.pos < TraceLength(w.task)
    ensures LogOf(Last(states), w.task.id) == CompletedTrace(w.task)[..w.pos]
  {
    RunTraced(states, steps, |states| - 1, w.task.id);
    assert Last(states).workers[0] == w;
  }

  // ---- a handed over task ----

  /** Whatever the size of the queue, zero included, a task can go straight to a waiting worker. */
  lemma HandedOver(task: Task, queueSize: nat, workers: nat, w: nat) returns (states: seq<State>, steps: seq<Step>)
    requires task.status.Pending? && task.completedAt.None? && w < workers
    ensures IsRun(states, steps) && states[0] == Initial(queueSize, workers)
    ensures var s := Last(states);
            && s.queue == [] && s.workers == seq(workers, _ => Idle)[w := Worker.Running(task, 0)]
            && s.submits == map[task.id := Submission(task, Dispatched)]
  {
    states, steps := [Initial(queueSize, workers)], [];
    assert IsExecution(states, steps);
    states, steps := Extend(states, steps, OfSubmit(Create(task)));
    states, steps := Extend(states, steps, OfSubmit(Handoff(task.id, w)));
  }

  // ---- a subscriber that reads and leaves ----

  /** From every state a subscriber can read all that waits in its channel, and leave. */
  lemma {:induction false} ReadsAndLeaves(states: seq<State>, steps: seq<Step>, c: nat)
    returns (states': seq<State>, steps': seq<Step>)
    requires IsExecution(states, steps) && c in Last(states).subs
    ensures IsExecution(states', steps') && states'[0] == states[0] && c in Last(states').subs
    ensures var sub, sub' := Last(states).subs[c], Last(states').subs[c];
            sub'.buffer == [] && !sub'.active && sub'.delivered == sub.delivered && sub'.user == sub.user
    decreases |Last(states).subs[c].buffer|, Last(states).subs[c].active
  {
    states', steps' := states, steps;
    if Last(states).subs[c].buffer != [] {
      states', steps' := Extend(states, steps, OfEnv(ClientRead(c)));
      states', steps' := ReadsAndLeaves(states', steps', c);
    } else if Last(states).subs[c].active {
      states', steps' := Extend(states, steps, OfEnv(HubUnsubscribe(c)));
    }
  }

  // ---- the end of the pump ----

  /** Once its channel is closed the pump passes on what is left and ends. */
  lemma {:induction false} PumpDrains(states: seq<State>, steps: seq<Step>)
    returns (states': seq<State>, steps': seq<Step>)
    requires IsExecution(states, steps) && Last(states).closed && !Last(states).pump.Finished?
    ensures IsExecution(states', steps') && states'[0] == states[0]
    ensures Last(states').closed && Last(states').pump.Finished?
    decreases 2 * |Last(states).bridge| + if Last(states).pump.Holding? then 1 else 0
  {
    if Last(states).pump.Holding? {
      states', steps' := Extend(states, steps, OfPump(Push));
      states', steps' := PumpDrains(states', steps');
    } else if Last(states).bridge != [] {
      states', steps' := Extend(states, steps, OfPump(Pull));
      states', steps' := PumpDrains(states', steps');
    } else {
      states', steps' := Extend(states, steps, OfPump(Finish));
    }
  }

  /** From every cancelled state in which the pump runs, its channel can be removed and closed, and
      the pump ends. */
  lemma PumpCanEnd(s: State) returns (states: seq<State>, steps: seq<Step>)
    requires s.cancelled && !s.pump.Finished?
    ensures IsExecution(states, steps) && states[0] == s
    ensures Last(states).pump.Finished? && Last(states).closed
  {
    states, steps := [s], [];
    assert IsExecution(states, steps);
    if s.live {
      states, steps := Extend(states, steps, OfPump(Unsubscribe));
    }
    if !s.closed {
      states, steps := Extend(states, steps, OfPump(CloseChannel));
    }
    states, steps := PumpDrains(states, steps);
  }

  // ---- stranded tasks ----

  /** The context is cancelled while the only task is queued. */
  lemma QueuedThenCancelled(task: Task, queueSize: nat, workers: nat) returns (states: seq<State>, steps: seq<Step>)
    requires task.status.Pending? && task.completedAt.None? && queueSize > 0
    ensures IsRun(states, steps) && states[0] == Initial(queueSize, workers)
    ensures var s := Last(states);
            && s.cancelled && s.loop.Ready? && s.queue == [task] && s.workers == seq(workers, _ => Idle)
            && Unsettled(s, task.id) && Submitting(s.submits, task.id) == 0
  {
    states, steps := [Initial(queueSize, workers)], [];
    assert IsExecution(states, steps);
    states, steps := Extend(states, steps, OfSubmit(Create(task)));
    states, steps := Extend(states, steps, OfSubmit(Dispatch(task.id)));
    states, steps := Extend(states, steps, OfEnv(Cancel));
  }

  /** From every cancelled state of every run, the event loop may stop at the end of its turn,
      whatever is in its channel, and then no dispatched task that is unsettled ever settles. */
  lemma LoopMayStop(states: seq<State>, steps: seq<Step>, id: TaskID)
    returns (states': seq<State>, steps': seq<Step>)
    requires IsRun(states, steps) && Last(states).cancelled && Last(states).loop.Ready?
    requires Unsettled(Last(states), id) && Submitting(Last(states).submits, id) == 0
    ensures Continues(states, steps, states', steps') && |steps'| == |steps| + 1
    ensures Last(states') == Last(states).(loop := Stopped) && PendingForever(Last(states'), id)
  {
    states', steps' := Extend(states, steps, OfLoop(Stop));
    hide PendingForever;
    StrandedIff(states', steps', |states'| - 1, id);
  }

  /** Whatever the task, the queue and the number of workers: the event loop may stop with the task
      queued, and then it is pending in every later state. */
  lemma StoppedLoopStrands(task: Task, queueSize: nat, workers: nat) returns (states: seq<State>, steps: seq<Step>)
    requires task.status.Pending? && task.completedAt.None? && queueSize > 0
    ensures IsRun(states, steps) && states[0] == Initial(queueSize, workers)
    ensures Last(states).loop.Stopped? && PendingForever(Last(states), task.id)
  {
    states, steps := QueuedThenCancelled(task, queueSize, workers);
    hide PendingForever;
    states, steps := LoopMayStop(states, steps, task.id);
  }

  /** The workers from the first to the `n`-th leave. */
  lemma {:induction false} WorkersExit(states: seq<State>, steps: seq<Step>, n: nat)
    returns (states': seq<State>, steps': seq<Step>)
    requires IsRun(states, steps) && Last(states).cancelled && n <= |Last(states).workers|
    requires forall i :: 0 <= i < |Last(states).workers| ==> Last(states).workers[i].Idle?
    ensures IsRun(states', steps') && states'[0] == states[0]
    ensures var s, s' := Last(states), Last(states');
            && s' == s.(workers := s'.workers) && |s'.workers| == |s.workers|
            && forall i :: 0 <= i < |s.workers| ==> s'.workers[i] == if i < n then Exited else Idle
  {
    states', steps' := states, steps;
    if n > 0 {
      states', steps' := WorkersExit(states, steps, n - 1);
      states', steps' := Extend(states', steps', OfWorker(n - 1, Exit));
    }
  }

  /** The other way: all workers leave before one takes the task. The loop still runs. */
  lemma ExitedWorkersStrand(task: Task, queueSize: nat, workers: nat) returns (states: seq<State>, steps: seq<Step>)
    requires task.status.Pending? && task.completedAt.None? && queueSize > 0
    ensures IsRun(states, steps) && states[0] == Initial(queueSize, workers)
    ensures Last(states).loop.Ready? && PendingForever(Last(states), task.id)
  {
    states, steps := QueuedThenCancelled(task, queueSize, workers);
    var before := Last(states);
    states, steps := WorkersExit(states, steps, workers);
    QueuedAppend([], task, task.id);
    assert Last(states).queue == [] + [task];
    hide PendingForever;
    StrandedIff(states, steps, |states| - 1, task.id);
  }
}
