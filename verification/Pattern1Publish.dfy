/** Persist before publish in Pattern 1, and whom an event reaches. */
module Pattern1Publish {
  import opened Models
  import opened Pattern1
  import opened Pattern1Conservation
  import TaskStore

  /** The event carries the owner of its task, and a terminal status the store already holds. */
  ghost predicate Backed(store: TaskStore.Table, e: TaskEvent) {
    && e.taskID in store
    && e.userID == store[e.taskID].userID
    && (IsTerminalEvent(e) ==> store[e.taskID].status == e.status)
  }

  ghost predicate StoredTask(store: TaskStore.Table, e: TaskEvent) {
    e.taskID in store
  }

  ghost predicate LoopBacked(s: State) {
    && (s.loop.Received? ==> StoredTask(s.store, s.loop.ev))
    && (s.loop.Enriched? ==> StoredTask(s.store, s.loop.ev) && s.loop.ev.userID == s.store[s.loop.ev.taskID].userID)
    && (s.loop.Persisted? ==> Backed(s.store, s.loop.ev))
  }

  ghost predicate AllPublished(published: seq<TaskEvent>, es: seq<TaskEvent>) {
    forall i :: 0 <= i < |es| ==> es[i] in published
  }

  /** What waits in a subscriber's channel is the latest part of what it accepted. */
  ghost predicate BufferedLast(sub: Subscriber) {
    && |sub.buffer| <= HUB_BUFFER && |sub.buffer| <= |sub.delivered|
    && sub.buffer == sub.delivered[|sub.delivered| - |sub.buffer|..]
  }

  ghost predicate SubScoped(published: seq<TaskEvent>, sub: Subscriber) {
    && AllPublished(published, sub.delivered) && BufferedLast(sub)
    && forall i :: 0 <= i < |sub.delivered| ==> sub.delivered[i].userID == sub.user
  }

  ghost predicate Upstream(s: State) {
    && (forall i :: 0 <= i < |s.events| ==> StoredTask(s.store, s.events[i]))
    && LoopBacked(s)
    && (forall i :: 0 <= i < |s.published| ==> Backed(s.store, s.published[i]))
  }

  ghost predicate Delivery(s: State) {
    && AllPublished(s.published, s.bridge)
    && (s.pump.Holding? ==> s.pump.ev in s.published)
    && (s.live ==> !s.closed)
    && (forall c :: c in s.subs ==> SubScoped(s.published, s.subs[c]))
  }

  /** Every kept task keeps every backed event backed. */
  ghost predicate StoreKept(store: TaskStore.Table, store': TaskStore.Table) {
    forall id :: id in store ==> TaskKept(store, store', id)
  }

  lemma StoreKeptStep(s: State, step: Step)
    requires Conserved(s) && Enabled(s, step)
    ensures StoreKept(s.store, Apply(s, step).store)
  {
    hide Apply, Enabled, Conserved;
    forall id | id in s.store ensures TaskKept(s.store, Apply(s, step).store, id) {
      StoreStep(s, step, id);
    }
  }

  lemma BackedKept(store: TaskStore.Table, store': TaskStore.Table, e: TaskEvent)
    requires StoreKept(store, store') && Backed(store, e)
    ensures Backed(store', e)
  {
    assert TaskKept(store, store', e.taskID);
  }

  /** A step that leaves the channel, the loop and the history alone. */
  lemma UpstreamSame(s: State, s': State)
    requires Upstream(s) && StoreKept(s.store, s'.store)
    requires s'.events == s.events && s'.loop == s.loop && s'.published == s.published
    ensures Upstream(s')
  {
    forall e | Backed(s.store, e) ensures Backed(s'.store, e) { BackedKept(s.store, s'.store, e); }
    forall e | StoredTask(s.store, e)
      ensures StoredTask(s'.store, e) && s'.store[e.taskID].userID == s.store[e.taskID].userID
    {
      assert TaskKept(s.store, s'.store, e.taskID);
    }
  }

  lemma UpstreamWorker(s: State, w: nat, step: WorkerStep)
    requires Upstream(s) && Wellformed(s) && WorkerEnabled(s, w, step)
    ensures Upstream(ApplyWorker(s, w, step))
  {
    assert WorkerOk(s, s.workers[w]);
    hide Wellformed, Upstream;
    if step.Emit? || step.EmitFailed? {
      UpstreamEmit(s, ApplyWorker(s, w, step), [NextEvent(s.workers[w])]);
    } else {
      UpstreamEmit(s, ApplyWorker(s, w, step), []);
    }
  }

  lemma UpstreamEmit(s: State, s': State, es: seq<TaskEvent>)
    requires Upstream(s) && s'.store == s.store && s'.loop == s.loop && s'.published == s.published
    requires s'.events == s.events || s'.events == s.events + es
    requires forall i :: 0 <= i < |es| ==> StoredTask(s.store, es[i])
    ensures Upstream(s')
  {
  }

  lemma UpstreamLoop(s: State, step: LoopStep)
    requires Upstream(s) && LoopEnabled(s, step) && StoreKept(s.store, ApplyLoop(s, step).store)
    ensures Upstream(ApplyLoop(s, step))
  {
    var s' := ApplyLoop(s, step);
    forall e | Backed(s.store, e) ensures Backed(s'.store, e) { BackedKept(s.store, s'.store, e); }
    if step.Take? {
      assert StoredTask(s.store, s.events[0]);
    } else if step.Persist? {
      assert TaskKept(s.store, s'.store, s.loop.ev.taskID);
    }
  }

  lemma UpstreamSubmit(s: State, step: SubmitStep)
    requires SubmitEnabled(s, step)
    ensures var s' := ApplySubmit(s, step);
            && s'.events == s.events && s'.loop == s.loop && s'.published == s.published
            && s'.bridge == s.bridge && s'.pump == s.pump && s'.subs == s.subs
            && s'.live == s.live && s'.closed == s.closed
  {
  }

  lemma UpstreamStep(s: State, step: Step)
    requires Conserved(s) && Upstream(s) && Enabled(s, step)
    ensures Upstream(Apply(s, step))
  {
    hide ApplySubmit, ApplyWorker, ApplyLoop, ApplyPump, ApplyEnv;
    hide SubmitEnabled, WorkerEnabled, LoopEnabled, PumpEnabled, EnvEnabled;
    hide Upstream, CountedOnce;
    StoreKeptStep(s, step);
    match step
    case OfSubmit(sub) =>
      UpstreamSubmit(s, sub);
      UpstreamSame(s, Apply(s, step));
    case OfWorker(w, work) => UpstreamWorker(s, w, work);
    case OfLoop(act) => UpstreamLoop(s, act);
    case OfPump(pumping) =>
      PumpKeeps(s, pumping);
      UpstreamSame(s, Apply(s, step));
    case OfEnv(env) =>
      EnvKeeps(s, env);
      UpstreamSame(s, Apply(s, step));
  }

  lemma ScopedGrows(published: seq<TaskEvent>, published': seq<TaskEvent>, sub: Subscriber)
    requires SubScoped(published, sub) && published <= published'
    ensures SubScoped(published', sub)
  {
    forall i | 0 <= i < |sub.delivered| ensures sub.delivered[i] in published' {
      assert sub.delivered[i] in published;
    }
  }

  lemma ScopedDeliver(published: seq<TaskEvent>, sub: Subscriber, ev: TaskEvent)
    requires SubScoped(published, sub) && ev in published
    ensures SubScoped(published, Deliver(sub, ev))
  {
  }

  lemma ScopedRead(published: seq<TaskEvent>, sub: Subscriber)
    requires SubScoped(published, sub) && sub.buffer != []
    ensures SubScoped(published, sub.(buffer := sub.buffer[1..]))
  {
  }

  lemma DeliverySame(s: State, s': State)
    requires Delivery(s) && s.published <= s'.published
    requires s'.bridge == s.bridge && s'.pump == s.pump && s'.subs == s.subs
    requires s'.live == s.live && s'.closed == s.closed
    ensures Delivery(s')
  {
    hide SubScoped;
    forall e | e in s.published ensures e in s'.published { PrefixMember(s.published, s'.published, e); }
    forall c | c in s'.subs ensures SubScoped(s'.published, s'.subs[c]) {
      ScopedGrows(s.published, s'.published, s.subs[c]);
    }
  }

  lemma PrefixMember(a: seq<TaskEvent>, b: seq<TaskEvent>, e: TaskEvent)
    requires a <= b && e in a
    ensures e in b
  {
  }

  lemma DeliveryWorker(s: State, w: nat, step: WorkerStep)
    requires Delivery(s) && WorkerEnabled(s, w, step)
    ensures Delivery(ApplyWorker(s, w, step))
  {
    hide Delivery;
    DeliverySame(s, ApplyWorker(s, w, step));
  }

  lemma DeliveryLoop(s: State, step: LoopStep)
    requires Delivery(s) && LoopEnabled(s, step)
    ensures Delivery(ApplyLoop(s, step))
  {
    hide SubScoped;
    var s' := ApplyLoop(s, step);
    forall e | e in s.published ensures e in s'.published { PrefixMember(s.published, s'.published, e); }
    forall c | c in s'.subs ensures SubScoped(s'.published, s'.subs[c]) {
      ScopedGrows(s.published, s'.published, s.subs[c]);
    }
  }

  lemma DeliveryPump(s: State, step: PumpStep)
    requires Delivery(s) && PumpEnabled(s, step)
    ensures Delivery(ApplyPump(s, step))
  {
    hide SubScoped, Deliver;
    var s' := ApplyPump(s, step);
    forall c | c in s'.subs ensures SubScoped(s'.published, s'.subs[c]) {
      if step.Push? { ScopedDeliver(s.published, s.subs[c], s.pump.ev); }
    }
  }

  lemma DeliveryEnv(s: State, step: EnvStep)
    requires Delivery(s) && EnvEnabled(s, step)
    ensures Delivery(ApplyEnv(s, step))
  {
    match step
    case HubSubscribe(_, _) =>
    case HubUnsubscribe(c) => assert SubScoped(s.published, s.subs[c].(active := false));
    case ClientRead(c) =>
      ScopedRead(s.published, s.subs[c]);
      hide SubScoped;
    case Cancel =>
  }

  lemma DeliveryStep(s: State, step: Step)
    requires Delivery(s) && Enabled(s, step)
    ensures Delivery(Apply(s, step))
  {
    hide ApplySubmit, ApplyWorker, ApplyLoop, ApplyPump, ApplyEnv;
    hide SubmitEnabled, WorkerEnabled, LoopEnabled, PumpEnabled, EnvEnabled;
    hide Delivery;
    match step
    case OfSubmit(sub) =>
      UpstreamSubmit(s, sub);
      DeliverySame(s, Apply(s, step));
    case OfWorker(w, work) => DeliveryWorker(s, w, work);
    case OfLoop(act) => DeliveryLoop(s, act);
    case OfPump(pumping) => DeliveryPump(s, pumping);
    case OfEnv(env) => DeliveryEnv(s, env);
  }

  lemma {:induction false} RunPublished(states: seq<State>, steps: seq<Step>, i: nat)
    requires IsRun(states, steps) && i < |states|
    ensures Upstream(states[i]) && Delivery(states[i])
  {
    hide Apply, Enabled;
    if i > 0 {
      hide Upstream, Delivery;
      RunPublished(states, steps, i - 1);
      RunConserved(states, steps, i - 1);
      UpstreamStep(states[i-1], steps[i-1]);
      DeliveryStep(states[i-1], steps[i-1]);
    }
  }

  /** When the loop publishes an event its task is stored, the event names the task's owner, a
      terminal status is already in the store, and it is there in every later state. */
  lemma PersistBeforePublish(states: seq<State>, steps: seq<Step>, i: nat, j: nat)
    requires IsRun(states, steps) && i < |steps| && steps[i] == OfLoop(Publish) && i <= j < |states|
    ensures states[i].loop.Persisted? && Backed(states[j].store, states[i].loop.ev)
  {
    hide Conserved;
    assert LoopEnabled(states[i], Publish);
    RunPublished(states, steps, i);
    SettledForever(states, steps, i, j, states[i].loop.ev.taskID);
  }

  /** Whatever a subscriber ever received is about its own user's tasks, as the store has them now. */
  lemma SubscribersScoped(states: seq<State>, steps: seq<Step>, i: nat, c: nat, k: nat)
    requires IsRun(states, steps) && i < |states| && c in states[i].subs && k < |states[i].subs[c].delivered|
    ensures var s := states[i]; var e := s.subs[c].delivered[k];
            && Backed(s.store, e)
            && s.store[e.taskID].userID == s.subs[c].user
            && BufferedLast(s.subs[c])
  {
    hide Apply, Enabled;
    RunPublished(states, steps, i);
    var s := states[i];
    assert SubScoped(s.published, s.subs[c]);
    assert s.subs[c].delivered[k] in s.published;
    var n :| 0 <= n < |s.published| && s.published[n] == s.subs[c].delivered[k];
  }

  /** Whenever the manager publishes to a live bridge channel that channel is open, although the
      goroutine that ends the subscription deletes and closes it in two steps. */
  lemma NoSendOnClosedBridge(states: seq<State>, steps: seq<Step>, i: nat)
    requires IsRun(states, steps) && i < |steps| && steps[i] == OfLoop(Publish)
    ensures states[i].live ==> !states[i].closed
    ensures states[i+1].bridge != states[i].bridge ==> !states[i].closed && |states[i+1].bridge| <= BRIDGE_BUFFER
  {
    RunPublished(states, steps, i);
  }
}
