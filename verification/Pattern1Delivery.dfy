/** Completeness of delivery in Pattern 1: loss is the only thing that keeps an event from a
    subscriber of its user. */
module Pattern1Delivery {
  import opened Models
  import opened Transport
  import opened Executor
  import opened Subsequences
  import opened Pattern1
  import opened Pattern1Conservation
  import opened Pattern1Order
  import opened Pattern1Publish
  import opened Pattern1Liveness

  /** The step loses an event about task `id` on its way to subscriber `c`: it meets a full event
      channel, a bridge channel that is full or no longer live, or a subscriber that is gone or full. */
  ghost predicate Loses(s: State, step: Step, c: nat, id: TaskID)
    requires Enabled(s, step)
  {
    match step
    case OfWorker(w, work) =>
      (work.Emit? || work.EmitFailed?) && NextEvent(s.workers[w]).taskID == id && |s.events| >= EVENT_BUFFER
    case OfLoop(act) =>
      act.Publish? && s.loop.ev.taskID == id && (!s.live || |s.bridge| >= BRIDGE_BUFFER)
    case OfPump(pumping) =>
      pumping.Push? && s.pump.ev.taskID == id &&
      !(c in s.subs && s.subs[c].active && |s.subs[c].buffer| < HUB_BUFFER)
    case _ => false
  }

  ghost function Lost(s: State, step: Step, c: nat, id: TaskID): nat
    requires Enabled(s, step)
  {
    if Loses(s, step, c, id) then 1 else 0
  }

  /** What was delivered to `c` about the task or is under way. */
  ghost function FlowOf(s: State, c: nat, id: TaskID): seq<TaskEvent>
    requires c in s.subs
  {
    Filter(About(id), Flow(s, s.subs[c].delivered))
  }

  /** Everything emitted about the task was delivered to `c` or is under way, in order. */
  ghost predicate CompleteFor(s: State, c: nat, id: TaskID) {
    c in s.subs && FlowOf(s, c, id) == LogOf(s, id)
  }

  /** How many events were emitted about the task and neither delivered to `c` nor under way. */
  ghost function Missing(s: State, c: nat, id: TaskID): int
    requires c in s.subs
  {
    |LogOf(s, id)| - |FlowOf(s, c, id)|
  }

  /** The task is the subscriber's, or not created yet. */
  ghost predicate Wants(s: State, c: nat, id: TaskID) {
    c in s.subs && (id in s.store ==> s.store[id].userID == s.subs[c].user)
  }

  // ---- subscribers keep their user ----

  lemma PumpUsers(s: State, step: PumpStep, c: nat)
    requires PumpEnabled(s, step) && c in s.subs
    ensures c in ApplyPump(s, step).subs && ApplyPump(s, step).subs[c].user == s.subs[c].user
  {
  }

  lemma EnvUsers(s: State, step: EnvStep, c: nat)
    requires EnvEnabled(s, step) && c in s.subs
    ensures c in ApplyEnv(s, step).subs && ApplyEnv(s, step).subs[c].user == s.subs[c].user
    ensures ApplyEnv(s, step).subs[c].delivered == s.subs[c].delivered
  {
  }

  lemma UsersKept(s: State, step: Step, c: nat)
    requires Enabled(s, step) && c in s.subs
    ensures c in Apply(s, step).subs && Apply(s, step).subs[c].user == s.subs[c].user
  {
    hide ApplySubmit, ApplyWorker, ApplyLoop, ApplyPump, ApplyEnv;
    hide SubmitEnabled, WorkerEnabled, LoopEnabled, PumpEnabled, EnvEnabled;
    match step
    case OfSubmit(sub) => SubmitFlow(s, sub);
    case OfWorker(w, work) => WorkerSubs(s, w, work);
    case OfLoop(act) => LoopSubs(s, act);
    case OfPump(pumping) => PumpUsers(s, pumping, c);
    case OfEnv(env) => EnvUsers(s, env, c);
  }

  // ---- every lost event widens the gap by one, and nothing else does ----

  lemma FilterMiddle(x: seq<TaskEvent>, e: TaskEvent, y: seq<TaskEvent>, id: TaskID)
    ensures |Filter(About(id), x + [e] + y)| == |Filter(About(id), x + y)| + if e.taskID == id then 1 else 0
  {
    FilterAppend(About(id), x, e);
    FilterConcat(About(id), x + [e], y);
    FilterConcat(About(id), x, y);
  }

  lemma MissingEmit(s: State, w: nat, step: WorkerStep, c: nat, id: TaskID)
    requires WorkerEnabled(s, w, step) && c in s.subs && (step.Emit? || step.EmitFailed?)
    ensures Missing(ApplyWorker(s, w, step), c, id) == Missing(s, c, id) + Lost(s, OfWorker(w, step), c, id)
  {
    hide EraseAll, Filter;
    var e := NextEvent(s.workers[w]);
    var d := s.subs[c].delivered;
    FilterAppend(About(id), s.log, e);
    if |s.events| < EVENT_BUFFER {
      hide Pipeline;
      FlowEmit(s, ApplyWorker(s, w, step), e, d);
      FilterAppend(About(id), Flow(s, d), e);
    }
  }

  lemma MissingWorker(s: State, w: nat, step: WorkerStep, c: nat, id: TaskID)
    requires WorkerEnabled(s, w, step) && c in s.subs
    ensures c in ApplyWorker(s, w, step).subs
    ensures Missing(ApplyWorker(s, w, step), c, id) == Missing(s, c, id) + Lost(s, OfWorker(w, step), c, id)
  {
    hide EraseAll, Filter;
    if step.Emit? || step.EmitFailed? {
      hide Missing;
      MissingEmit(s, w, step, c, id);
    }
  }

  lemma MissingPublish(s: State, c: nat, id: TaskID)
    requires LoopEnabled(s, Publish) && c in s.subs
    ensures Missing(ApplyLoop(s, Publish), c, id) == Missing(s, c, id) + Lost(s, OfLoop(Publish), c, id)
  {
    hide EraseAll, Filter, Pipeline;
    var d := s.subs[c].delivered;
    FlowPublish(s, d);
    var x := EraseAll(d) + EraseAll(PumpHand(s.pump)) + EraseAll(s.bridge);
    FilterMiddle(x, Erase(s.loop.ev), EraseAll(s.events), id);
  }

  lemma MissingLoop(s: State, step: LoopStep, c: nat, id: TaskID)
    requires LoopEnabled(s, step) && c in s.subs
    ensures c in ApplyLoop(s, step).subs
    ensures Missing(ApplyLoop(s, step), c, id) == Missing(s, c, id) + Lost(s, OfLoop(step), c, id)
  {
    hide Filter;
    match step
    case Take => FlowTake(s, s.subs[c].delivered);
    case Publish =>
      hide Missing;
      MissingPublish(s, c, id);
    case _ => assert EraseAll(LoopHand(ApplyLoop(s, step).loop)) == EraseAll(LoopHand(s.loop));
  }

  /** The event in the pump's hand is delivered or lost, or it is about somebody else's task. */
  lemma MissingPush(s: State, c: nat, id: TaskID)
    requires PumpEnabled(s, Push) && Backed(s.store, s.pump.ev) && Wants(s, c, id)
    ensures Missing(ApplyPump(s, Push), c, id) == Missing(s, c, id) + Lost(s, OfPump(Push), c, id)
  {
    hide EraseAll, Pipeline, Filter;
    var s' := ApplyPump(s, Push);
    var d, ev := s.subs[c].delivered, s.pump.ev;
    FlowPush(s, d);
    if s'.subs[c].delivered == d {
      FilterMiddle(EraseAll(d), Erase(ev), Pipeline(s'), id);
    } else {
      assert s'.subs[c].delivered == d + [ev];
    }
  }

  lemma MissingPump(s: State, step: PumpStep, c: nat, id: TaskID)
    requires PumpEnabled(s, step) && Wants(s, c, id) && (step.Push? ==> Backed(s.store, s.pump.ev))
    ensures c in ApplyPump(s, step).subs
    ensures Missing(ApplyPump(s, step), c, id) == Missing(s, c, id) + Lost(s, OfPump(step), c, id)
  {
    hide EraseAll, Filter;
    match step
    case Pull => FlowPull(s, s.subs[c].delivered);
    case Push =>
      hide Missing;
      MissingPush(s, c, id);
    case _ =>
  }

  lemma PumpBacked(s: State)
    requires Upstream(s) && Delivery(s) && s.pump.Holding?
    ensures Backed(s.store, s.pump.ev)
  {
    var n :| 0 <= n < |s.published| && s.published[n] == s.pump.ev;
  }

  lemma MissingSame(s: State, s': State, c: nat, id: TaskID)
    requires SameFlow(s, s') && c in s.subs && c in s'.subs && s'.subs[c].delivered == s.subs[c].delivered
    ensures Missing(s', c, id) == Missing(s, c, id)
  {
  }

  lemma MissingStep(s: State, step: Step, c: nat, id: TaskID)
    requires Upstream(s) && Delivery(s) && Enabled(s, step) && Wants(s, c, id)
    ensures c in Apply(s, step).subs
    ensures Missing(Apply(s, step), c, id) == Missing(s, c, id) + Lost(s, step, c, id)
  {
    hide ApplySubmit, ApplyWorker, ApplyLoop, ApplyPump, ApplyEnv;
    hide SubmitEnabled, WorkerEnabled, LoopEnabled, EnvEnabled, Missing, Upstream, Delivery;
    match step
    case OfSubmit(sub) =>
      SubmitFlow(s, sub);
      MissingSame(s, Apply(s, step), c, id);
    case OfWorker(w, work) => MissingWorker(s, w, work, c, id);
    case OfLoop(act) => MissingLoop(s, act, c, id);
    case OfPump(pumping) =>
      if pumping.Push? { PumpBacked(s); }
      MissingPump(s, pumping, c, id);
    case OfEnv(env) =>
      EnvFlow(s, env);
      EnvUsers(s, env, c);
      MissingSame(s, Apply(s, step), c, id);
  }

  lemma WantsBefore(s: State, step: Step, c: nat, id: TaskID)
    requires Conserved(s) && Enabled(s, step) && c in s.subs && Wants(Apply(s, step), c, id)
    ensures Wants(s, c, id)
  {
    hide Apply, Enabled, Conserved;
    UsersKept(s, step, c);
    if id in s.store { StoreStep(s, step, id); }
  }

  /** How many of the steps from `i` to `j` lose an event about the task. */
  ghost function Losses(states: seq<State>, steps: seq<Step>, i: nat, j: nat, c: nat, id: TaskID): (n: nat)
    requires IsExecution(states, steps) && i <= j < |states|
    ensures n == 0 <==> forall k :: i <= k < j ==> !Loses(states[k], steps[k], c, id)
    decreases j
  {
    if i == j then 0
    else Losses(states, steps, i, j - 1, c, id) + Lost(states[j-1], steps[j-1], c, id)
  }

  lemma {:induction false} StaysSubscribed(states: seq<State>, steps: seq<Step>, i: nat, j: nat, c: nat)
    requires IsExecution(states, steps) && i <= j < |states| && c in states[i].subs
    ensures c in states[j].subs
    decreases j
  {
    hide Apply, Enabled;
    if i < j {
      StaysSubscribed(states, steps, i, j - 1, c);
      UsersKept(states[j-1], steps[j-1], c);
    }
  }

  /** In every run, exactly as many events about a task of its user go missing for a subscriber
      as there are losing steps. */
  lemma {:induction false} MissingCountsLosses(
      states: seq<State>, steps: seq<Step>, i: nat, j: nat, c: nat, id: TaskID)
    requires IsRun(states, steps) && i <= j < |states| && c in states[i].subs && Wants(states[j], c, id)
    ensures Missing(states[j], c, id) == Missing(states[i], c, id) + Losses(states, steps, i, j, c, id)
    decreases j
  {
    hide Apply, Enabled, Conserved, Upstream, Delivery, Loses, Lost, Missing;
    if i < j {
      RunConserved(states, steps, j - 1);
      RunPublished(states, steps, j - 1);
      StaysSubscribed(states, steps, i, j - 1, c);
      WantsBefore(states[j-1], steps[j-1], c, id);
      MissingCountsLosses(states, steps, i, j - 1, c, id);
      MissingStep(states[j-1], steps[j-1], c, id);
    }
  }

  lemma CompleteIff(s: State, c: nat, id: TaskID)
    requires Ordered(s) && c in s.subs
    ensures Missing(s, c, id) >= 0
    ensures CompleteFor(s, c, id) <==> Missing(s, c, id) == 0
  {
    assert InOrder(s, s.subs[c].delivered);
    FilterSubseq(About(id), Flow(s, s.subs[c].delivered), s.log);
    SubseqLength(FlowOf(s, c, id), LogOf(s, id));
  }

  /** All that was emitted about a task of its user has been delivered to the subscriber or is
      under way to it, in order, if and only if that was so at an earlier state and no step since
      then lost an event about the task. It is so when nothing was emitted about the task yet. */
  lemma CompleteDelivery(states: seq<State>, steps: seq<Step>, i: nat, j: nat, c: nat, id: TaskID)
    requires IsRun(states, steps) && i <= j < |states| && c in states[i].subs && Wants(states[j], c, id)
    ensures CompleteFor(states[j], c, id) <==>
              CompleteFor(states[i], c, id) && forall k :: i <= k < j ==> !Loses(states[k], steps[k], c, id)
    ensures LogOf(states[i], id) == [] ==> CompleteFor(states[i], c, id)
  {
    hide Apply, Enabled, Loses;
    RunOrdered(states, steps, i);
    RunOrdered(states, steps, j);
    hide Ordered, CompleteFor;
    CompleteIff(states[i], c, id);
    CompleteIff(states[j], c, id);
    MissingCountsLosses(states, steps, i, j, c, id);
  }

  /** When the system is quiescent, a subscriber that was there before its user's task started has
      received every event of the completed execution, in order, if and only if none was lost. */
  lemma EveryEventArrives(states: seq<State>, steps: seq<Step>, i: nat, j: nat, c: nat, id: TaskID)
    requires IsRun(states, steps) && i <= j < |states| && c in states[i].subs && c in states[j].subs
    requires LogOf(states[i], id) == [] && id in states[j].store && id !in states[j].rejected
    requires states[j].store[id].userID == states[j].subs[c].user
    requires Quiescent(states[j]) && !states[j].cancelled
    ensures ReceivedAbout(states[j], c, id) == CompletedTrace(states[j].store[id]) <==>
              forall k :: i <= k < j ==> !Loses(states[k], steps[k], c, id)
  {
    hide Apply, Enabled, Loses;
    var s := states[j];
    CompleteDelivery(states, steps, i, j, c, id);
    RunTraced(states, steps, j, id);
    assert CountedOnce(s, id);
    NobodyHolds(s.workers, id);
    assert Pipeline(s) == [];
    assert Flow(s, s.subs[c].delivered) == EraseAll(s.subs[c].delivered);
  }

  // ---- unsubscribing ----

  lemma {:induction false} InactiveStaysQuiet(states: seq<State>, steps: seq<Step>, i: nat, j: nat, c: nat)
    requires IsExecution(states, steps) && i <= j < |states| && c in states[i].subs && !states[i].subs[c].active
    ensures c in states[j].subs && !states[j].subs[c].active
    ensures states[j].subs[c].delivered == states[i].subs[c].delivered
    decreases j
  {
    hide Apply, Enabled;
    if i < j {
      InactiveStaysQuiet(states, steps, i, j - 1, c);
      QuietStep(states[j-1], steps[j-1], c);
    }
  }

  lemma QuietPump(s: State, step: PumpStep, c: nat)
    requires PumpEnabled(s, step) && c in s.subs && !s.subs[c].active
    ensures c in ApplyPump(s, step).subs && ApplyPump(s, step).subs[c] == s.subs[c]
  {
  }

  lemma QuietEnv(s: State, step: EnvStep, c: nat)
    requires EnvEnabled(s, step) && c in s.subs && !s.subs[c].active
    ensures var s' := ApplyEnv(s, step);
            c in s'.subs && !s'.subs[c].active && s'.subs[c].delivered == s.subs[c].delivered
  {
  }

  lemma QuietStep(s: State, step: Step, c: nat)
    requires Enabled(s, step) && c in s.subs && !s.subs[c].active
    ensures var s' := Apply(s, step);
            c in s'.subs && !s'.subs[c].active && s'.subs[c].delivered == s.subs[c].delivered
  {
    hide ApplySubmit, ApplyWorker, ApplyLoop, ApplyPump, ApplyEnv;
    hide SubmitEnabled, WorkerEnabled, LoopEnabled, PumpEnabled, EnvEnabled;
    match step
    case OfSubmit(sub) => SubmitFlow(s, sub);
    case OfWorker(w, work) => WorkerSubs(s, w, work);
    case OfLoop(act) => LoopSubs(s, act);
    case OfPump(pumping) => QuietPump(s, pumping, c);
    case OfEnv(env) => QuietEnv(s, env, c);
  }
}
