/** The channels of Pattern 1 as its steps see them: tasks are taken in the order in which they
    were dispatched, and subscribers read in the order of delivery. */
module Pattern1Queue {
  import opened Models
  import opened Transport
  import opened Executor
  import opened Pattern1
  import opened Pattern1Conservation
  import opened Pattern1Order
  import opened Pattern1Publish
  import opened Pattern1Delivery

  // ---- the task queue ----

  /** The ids whose dispatch has succeeded in the first `n` steps, in order. */
  ghost function DispatchedIds(steps: seq<Step>, n: nat): seq<TaskID>
    requires n <= |steps|
  {
    if n == 0 then []
    else DispatchedIds(steps, n - 1) +
         match steps[n-1]
         case OfSubmit(Dispatch(id)) => [id]
         case OfSubmit(Handoff(id, _)) => [id]
         case _ => []
  }

  ghost function Ids(queue: seq<Task>): (ids: seq<TaskID>)
    ensures |ids| == |queue|
  {
    seq(|queue|, i requires 0 <= i < |queue| => queue[i].id)
  }

  /** What was taken, followed by what waits. */
  ghost function TakenAndQueued(s: State): seq<TaskID> {
    s.received + Ids(s.queue)
  }

  lemma QueueSubmit(s: State, step: SubmitStep)
    requires Wellformed(s) && SubmitEnabled(s, step)
    ensures TakenAndQueued(ApplySubmit(s, step)) == TakenAndQueued(s) +
              match step case Dispatch(id) => [id] case Handoff(id, _) => [id] case _ => []
    ensures |s.queue| <= s.queueSize ==> |ApplySubmit(s, step).queue| <= s.queueSize
    ensures ApplySubmit(s, step).queueSize == s.queueSize
  {
    var s' := ApplySubmit(s, step);
    match step
    case Dispatch(id) => assert Ids(s'.queue) == Ids(s.queue) + [id];
    case Handoff(id, w) => assert Ids(s.queue) == [] && s.submits[id].task.id == id;
    case _ => assert s'.received == s.received && s'.queue == s.queue;
  }

  lemma QueueWorker(s: State, w: nat, step: WorkerStep)
    requires WorkerEnabled(s, w, step)
    ensures TakenAndQueued(ApplyWorker(s, w, step)) == TakenAndQueued(s)
    ensures |ApplyWorker(s, w, step).queue| <= |s.queue|
    ensures ApplyWorker(s, w, step).queueSize == s.queueSize
  {
    if step.Receive? {
      assert Ids(s.queue) == [s.queue[0].id] + Ids(s.queue[1..]);
    }
  }

  lemma QueueLoop(s: State, step: LoopStep)
    requires LoopEnabled(s, step)
    ensures var s' := ApplyLoop(s, step);
            s'.queue == s.queue && s'.received == s.received && s'.queueSize == s.queueSize
  {
  }

  lemma QueuePump(s: State, step: PumpStep)
    requires PumpEnabled(s, step)
    ensures ApplyPump(s, step).queueSize == s.queueSize
  {
  }

  lemma QueueEnv(s: State, step: EnvStep)
    requires EnvEnabled(s, step)
    ensures ApplyEnv(s, step).queueSize == s.queueSize
  {
  }

  lemma QueueStep(s: State, step: Step)
    requires Wellformed(s) && Enabled(s, step)
    ensures TakenAndQueued(Apply(s, step)) == TakenAndQueued(s) +
              match step
              case OfSubmit(Dispatch(id)) => [id]
              case OfSubmit(Handoff(id, _)) => [id]
              case _ => []
    ensures |s.queue| <= s.queueSize ==> |Apply(s, step).queue| <= s.queueSize
    ensures Apply(s, step).queueSize == s.queueSize
  {
    hide ApplySubmit, ApplyWorker, ApplyLoop, ApplyPump, ApplyEnv, Wellformed;
    hide SubmitEnabled, WorkerEnabled, LoopEnabled, PumpEnabled, EnvEnabled, Ids;
    assert TakenAndQueued(s) + [] == TakenAndQueued(s);
    match step
    case OfSubmit(sub) => QueueSubmit(s, sub);
    case OfWorker(w, work) => QueueWorker(s, w, work);
    case OfLoop(act) => QueueLoop(s, act);
    case OfPump(pumping) =>
      PumpKeeps(s, pumping);
      QueuePump(s, pumping);
    case OfEnv(env) =>
      EnvKeeps(s, env);
      QueueEnv(s, env);
  }

  /** In every run the ids taken by workers, followed by the ids in the queue, are the ids whose
      dispatch succeeded, in the order of their dispatch; and the queue keeps to its size. */
  lemma {:induction false} FirstDispatchedFirstTaken(states: seq<State>, steps: seq<Step>, i: nat)
    requires IsRun(states, steps) && i < |states|
    ensures DispatchedIds(steps, i) == states[i].received + Ids(states[i].queue)
    ensures |states[i].queue| <= states[i].queueSize == states[0].queueSize
  {
    hide Apply, Enabled;
    if i == 0 {
      assert Ids([]) == [];
    } else {
      hide Conserved;
      FirstDispatchedFirstTaken(states, steps, i - 1);
      RunConserved(states, steps, i - 1);
      assert Wellformed(states[i-1]) by { WellformedPart(states[i-1]); }
      QueueStep(states[i-1], steps[i-1]);
    }
  }

  lemma WellformedPart(s: State)
    requires Conserved(s)
    ensures Wellformed(s)
  {
  }

  /** Who takes which task, and when a dispatch is refused: a worker that receives starts the task
      dispatched first among those not yet taken, one it is handed starts that task, and Submit is
      refused only when the queue holds as many tasks as it has room for. */
  lemma TakesTheOldest(states: seq<State>, steps: seq<Step>, i: nat, w: nat)
    requires IsRun(states, steps) && i < |steps|
    ensures steps[i] == OfWorker(w, Receive) ==>
              var taken := |states[i].received|;
              && taken < |DispatchedIds(steps, i)| && w < |states[i+1].workers|
              && states[i+1].workers[w].Running? && states[i+1].workers[w].pos == 0
              && states[i+1].workers[w].task.id == DispatchedIds(steps, i)[taken]
    ensures steps[i].OfSubmit? && steps[i].sub.Handoff? && steps[i].sub.w == w ==>
              && w < |states[i+1].workers|
              && states[i+1].workers[w].Running? && states[i+1].workers[w].pos == 0
              && states[i+1].workers[w].task.id == steps[i].sub.id
    ensures steps[i].OfSubmit? && steps[i].sub.DispatchFull? ==> |states[i].queue| == states[i].queueSize
  {
    FirstDispatchedFirstTaken(states, steps, i);
    RunConserved(states, steps, i);
    WellformedPart(states[i]);
    hide DispatchedIds, Conserved;
    assert Enabled(states[i], steps[i]) && states[i+1] == Apply(states[i], steps[i]);
  }

  /** A running worker is held up exactly when the event channel is full and its event the last one:
      any other event goes out at once, and is lost when the channel is full. */
  lemma EmitWaitsIff(states: seq<State>, steps: seq<Step>, i: nat, w: nat)
    requires IsRun(states, steps) && i < |states| && w < |states[i].workers| && states[i].workers[w].Running?
    ensures var s, wk := states[i], states[i].workers[w];
            && (Enabled(s, OfWorker(w, Emit)) <==>
                  |s.events| < EVENT_BUFFER || wk.pos < TraceLength(wk.task) - 1)
            && (Enabled(s, OfWorker(w, Emit)) ==>
                  var s' := Apply(s, OfWorker(w, Emit));
                  && s'.log == s.log + [EventAt(wk.task, wk.pos)]
                  && s'.events == s.events + if |s.events| < EVENT_BUFFER then [EventAt(wk.task, wk.pos)] else [])
  {
    RunConserved(states, steps, i);
    var s, wk := states[i], states[i].workers[w];
    assert WorkerOk(s, wk);
    hide Conserved;
    TerminalLast(wk.task, wk.pos);
    assert s.events + [] == s.events;
  }

  // ---- a subscriber's channel ----

  ghost predicate Happened(steps: seq<Step>, n: nat, step: Step)
    requires n <= |steps|
  {
    exists k :: 0 <= k < n && steps[k] == step
  }

  ghost function Reads(steps: seq<Step>, n: nat, c: nat): nat
    requires n <= |steps|
  {
    if n == 0 then 0
    else Reads(steps, n - 1, c) + if steps[n-1] == OfEnv(ClientRead(c)) then 1 else 0
  }

  /** What the steps so far say about subscriber `c`. */
  ghost predicate SubscriberHistory(s: State, steps: seq<Step>, n: nat, c: nat)
    requires n <= |steps|
  {
    if c in s.subs then
      && Happened(steps, n, OfEnv(HubSubscribe(c, s.subs[c].user)))
      && (s.subs[c].active <==> !Happened(steps, n, OfEnv(HubUnsubscribe(c))))
      && |s.subs[c].delivered| == |s.subs[c].buffer| + Reads(steps, n, c)
    else
      && (forall user :: !Happened(steps, n, OfEnv(HubSubscribe(c, user))))
      && !Happened(steps, n, OfEnv(HubUnsubscribe(c)))
      && Reads(steps, n, c) == 0
  }

  lemma HappenedNext(steps: seq<Step>, n: nat, step: Step)
    requires n < |steps|
    ensures Happened(steps, n + 1, step) <==> Happened(steps, n, step) || steps[n] == step
  {
  }

  ghost predicate SameSub(s: State, s': State, c: nat) {
    && (c in s.subs <==> c in s'.subs)
    && (c in s.subs ==>
          && s'.subs[c].user == s.subs[c].user && s'.subs[c].active == s.subs[c].active
          && |s'.subs[c].delivered| - |s'.subs[c].buffer| == |s.subs[c].delivered| - |s.subs[c].buffer|)
  }

  lemma SamePump(s: State, step: PumpStep, c: nat)
    requires PumpEnabled(s, step)
    ensures SameSub(s, ApplyPump(s, step), c)
  {
  }

  lemma SameStep(s: State, step: Step, c: nat)
    requires Enabled(s, step) && !step.OfEnv?
    ensures SameSub(s, Apply(s, step), c)
  {
    hide ApplySubmit, ApplyWorker, ApplyLoop, ApplyPump;
    hide SubmitEnabled, WorkerEnabled, LoopEnabled, PumpEnabled;
    match step
    case OfSubmit(sub) => SubmitFlow(s, sub);
    case OfWorker(w, work) => WorkerSubs(s, w, work);
    case OfLoop(act) => LoopSubs(s, act);
    case OfPump(pumping) => SamePump(s, pumping, c);
  }

  lemma HistoryKept(s: State, s': State, steps: seq<Step>, n: nat, c: nat)
    requires n < |steps| && SubscriberHistory(s, steps, n, c) && SameSub(s, s', c) && !steps[n].OfEnv?
    ensures SubscriberHistory(s', steps, n + 1, c)
  {
    hide Happened;
    forall user ensures Happened(steps, n + 1, OfEnv(HubSubscribe(c, user))) <==>
                        Happened(steps, n, OfEnv(HubSubscribe(c, user)))
    {
      HappenedNext(steps, n, OfEnv(HubSubscribe(c, user)));
    }
    HappenedNext(steps, n, OfEnv(HubUnsubscribe(c)));
  }

  /** What a step of the environment does to subscriber `c`. */
  ghost predicate EnvSub(s: State, env: EnvStep, s': State, c: nat) {
    && (c in s'.subs <==> c in s.subs || (env.HubSubscribe? && env.c == c))
    && (c in s.subs ==>
          && !(env.HubSubscribe? && env.c == c)
          && s'.subs[c].user == s.subs[c].user
          && (s'.subs[c].active <==> s.subs[c].active && env != HubUnsubscribe(c))
          && |s'.subs[c].delivered| - |s'.subs[c].buffer| ==
               |s.subs[c].delivered| - |s.subs[c].buffer| + if env == ClientRead(c) then 1 else 0)
    && (c !in s.subs ==>
          && env != HubUnsubscribe(c) && env != ClientRead(c)
          && (c in s'.subs ==> env.HubSubscribe? && s'.subs[c] == Subscriber(env.user, true, [], [])))
  }

  lemma EnvSubs(s: State, env: EnvStep, c: nat)
    requires EnvEnabled(s, env)
    ensures EnvSub(s, env, ApplyEnv(s, env), c)
  {
  }

  lemma HistoryEnv(s: State, s': State, steps: seq<Step>, n: nat, c: nat)
    requires n < |steps| && SubscriberHistory(s, steps, n, c)
    requires steps[n].OfEnv? && EnvSub(s, steps[n].env, s', c)
    ensures SubscriberHistory(s', steps, n + 1, c)
  {
    hide Happened;
    forall user ensures Happened(steps, n + 1, OfEnv(HubSubscribe(c, user))) <==>
                        Happened(steps, n, OfEnv(HubSubscribe(c, user))) || steps[n] == OfEnv(HubSubscribe(c, user))
    {
      HappenedNext(steps, n, OfEnv(HubSubscribe(c, user)));
    }
    HappenedNext(steps, n, OfEnv(HubUnsubscribe(c)));
  }

  /** In every run: a subscriber is there, with the user it gave, exactly from its subscription on,
      it is active until it unsubscribes, and it has read as many of the events delivered to it as
      it made reads, the oldest first: the others wait in its channel, in order. */
  lemma {:induction false} SubscriberSteps(states: seq<State>, steps: seq<Step>, i: nat, c: nat)
    requires IsRun(states, steps) && i < |states|
    ensures SubscriberHistory(states[i], steps, i, c)
    ensures c in states[i].subs ==>
              var sub := states[i].subs[c];
              Reads(steps, i, c) <= |sub.delivered| && sub.buffer == sub.delivered[Reads(steps, i, c)..]
  {
    hide Apply, Enabled;
    if i > 0 {
      SubscriberSteps(states, steps, i - 1, c);
      hide SubscriberHistory, Reads, EnvSub;
      if steps[i-1].OfEnv? {
        EnvIsStep(states[i-1], steps[i-1]);
        EnvSubs(states[i-1], steps[i-1].env, c);
        HistoryEnv(states[i-1], states[i], steps, i - 1, c);
      } else {
        SameStep(states[i-1], steps[i-1], c);
        HistoryKept(states[i-1], states[i], steps, i - 1, c);
      }
    }
    RunPublished(states, steps, i);
    UnreadLast(states[i], steps, i, c);
  }

  lemma UnreadLast(s: State, steps: seq<Step>, n: nat, c: nat)
    requires n <= |steps| && SubscriberHistory(s, steps, n, c) && Delivery(s)
    ensures c in s.subs ==>
              var sub := s.subs[c];
              Reads(steps, n, c) <= |sub.delivered| && sub.buffer == sub.delivered[Reads(steps, n, c)..]
  {
    if c in s.subs { assert SubScoped(s.published, s.subs[c]); }
  }

  lemma EnvIsStep(s: State, step: Step)
    requires Enabled(s, step) && step.OfEnv?
    ensures EnvEnabled(s, step.env) && Apply(s, step) == ApplyEnv(s, step.env)
  {
  }

  /** After it has unsubscribed nothing more is delivered to a subscriber. */
  lemma UnsubscribedStaysQuiet(states: seq<State>, steps: seq<Step>, i: nat, j: nat, c: nat)
    requires IsRun(states, steps) && i < j < |states| && steps[i] == OfEnv(HubUnsubscribe(c))
    ensures c in states[i].subs && c in states[j].subs
    ensures states[j].subs[c].delivered == states[i].subs[c].delivered
  {
    EnvIsStep(states[i], steps[i]);
    InactiveStaysQuiet(states, steps, i + 1, j, c);
  }
}
