/** Termination and completion in Pattern 1. */
module Pattern1Liveness {
  import opened Models
  import opened Executor
  import opened Pattern1
  import opened Pattern1Conservation

  // ---- the measure ----

  /** Upper bound on the steps an unexecuted task can still cause, apart from the Submit call. */
  ghost function TaskWork(task: Task): nat { 8 * TraceLength(task) + 1 }

  ghost function SubmissionWork(sub: Submission): nat {
    if sub.pc.Created? then TaskWork(sub.task) + 2 else 1
  }

  ghost function SubmitsWork(submits: map<TaskID, Submission>): nat
    decreases |submits|
  {
    if submits == map[] then 0
    else var id :| id in submits; SubmissionWork(submits[id]) + SubmitsWork(submits - {id})
  }

  ghost function QueueWork(queue: seq<Task>): nat
    decreases |queue|
  {
    if queue == [] then 0 else QueueWork(queue[..|queue|-1]) + TaskWork(queue[|queue|-1])
  }

  ghost function WorkerWork(w: Worker): nat {
    match w
    case Idle => 1
    case Running(task, pos) => if pos < TraceLength(task) then 1 + 8 * (TraceLength(task) - pos) else 1
    case Failing(_, _) => 9
    case Exited => 0
  }

  ghost function WorkersWork(workers: seq<Worker>): nat
    decreases |workers|
  {
    if workers == [] then 0 else WorkersWork(workers[..|workers|-1]) + WorkerWork(workers[|workers|-1])
  }

  ghost function LoopWork(loop: Loop): nat {
    match loop
    case Ready => 1
    case Received(_) => 6
    case Enriched(_) => 5
    case Persisted(_) => 4
    case Stopped => 0
  }

  ghost function PumpWork(pump: Pump): nat {
    match pump
    case Waiting => 1
    case Holding(_) => 2
    case Finished => 0
  }

  /** Weights: an event not yet emitted 8, in the event channel 6, in the loop 5 to 3, in the
      bridge 2, with the pump 1. */
  ghost function Measure(s: State): nat {
    SubmitsWork(s.submits) + QueueWork(s.queue) + WorkersWork(s.workers) + 6 * |s.events| + LoopWork(s.loop)
    + 2 * |s.bridge| + PumpWork(s.pump) + (if s.live then 1 else 0) + (if s.closed then 0 else 1)
  }

  /** Everything but new submissions and the environment. */
  predicate IsSystem(step: Step) {
    !step.OfEnv? && !(step.OfSubmit? && step.sub.Create?)
  }

  lemma {:induction false} SubmitsWorkRemove(submits: map<TaskID, Submission>, id: TaskID)
    requires id in submits
    ensures SubmitsWork(submits) == SubmissionWork(submits[id]) + SubmitsWork(submits - {id})
    decreases |submits|
  {
    var first :| first in submits &&
                 SubmitsWork(submits) == SubmissionWork(submits[first]) + SubmitsWork(submits - {first});
    if first != id {
      SubmitsWorkRemove(submits - {first}, id);
      SubmitsWorkRemove(submits - {id}, first);
      assert submits - {first} - {id} == submits - {id} - {first};
    }
  }

  lemma SubmitsWorkUpdate(submits: map<TaskID, Submission>, id: TaskID, sub: Submission)
    requires id in submits
    ensures SubmitsWork(submits[id := sub]) + SubmissionWork(submits[id]) == SubmitsWork(submits) + SubmissionWork(sub)
  {
    SubmitsWorkRemove(submits, id);
    SubmitsWorkRemove(submits[id := sub], id);
    assert submits[id := sub] - {id} == submits - {id};
  }

  lemma {:induction false} QueueWorkSplit(queue: seq<Task>)
    requires queue != []
    ensures QueueWork(queue) == TaskWork(queue[0]) + QueueWork(queue[1..])
    decreases |queue|
  {
    if |queue| > 1 {
      var front := queue[..|queue|-1];
      QueueWorkSplit(front);
      assert front[1..] == queue[1..][..|queue[1..]|-1];
    }
  }

  lemma QueueWorkAppend(queue: seq<Task>, t: Task)
    ensures QueueWork(queue + [t]) == QueueWork(queue) + TaskWork(t)
  {
    assert (queue + [t])[..|queue|] == queue;
  }

  lemma {:induction false} WorkersWorkUpdate(workers: seq<Worker>, i: nat, w: Worker)
    requires i < |workers|
    ensures WorkersWork(workers[i := w]) + WorkerWork(workers[i]) == WorkersWork(workers) + WorkerWork(w)
    decreases |workers|
  {
    var n := |workers| - 1;
    if i == n {
      assert workers[i := w][..n] == workers[..n];
    } else {
      WorkersWorkUpdate(workers[..n], i, w);
      assert workers[i := w][..n] == workers[..n][i := w];
    }
  }

  lemma MeasureSubmit(s: State, step: SubmitStep)
    requires SubmitEnabled(s, step) && !step.Create?
    ensures Measure(ApplySubmit(s, step)) < Measure(s)
  {
    hide SubmitsWork, QueueWork, WorkersWork;
    match step
    case Dispatch(id) =>
      SubmitsWorkUpdate(s.submits, id, s.submits[id].(pc := Dispatched));
      QueueWorkAppend(s.queue, s.submits[id].task);
    case Handoff(id, w) =>
      SubmitsWorkUpdate(s.submits, id, s.submits[id].(pc := Dispatched));
      WorkersWorkUpdate(s.workers, w, Worker.Running(s.submits[id].task, 0));
    case DispatchFull(id) => SubmitsWorkUpdate(s.submits, id, s.submits[id].(pc := Rejecting));
    case MarkFailed(id, _) => SubmitsWorkRemove(s.submits, id);
    case Stamp(id, _) => SubmitsWorkRemove(s.submits, id);
  }

  lemma MeasureWorker(s: State, w: nat, step: WorkerStep)
    requires WorkerEnabled(s, w, step)
    ensures Measure(ApplyWorker(s, w, step)) < Measure(s)
  {
    hide SubmitsWork, QueueWork, WorkersWork;
    var wk := s.workers[w];
    match step
    case Receive =>
      QueueWorkSplit(s.queue);
      WorkersWorkUpdate(s.workers, w, Worker.Running(s.queue[0], 0));
    case SeeCancel => WorkersWorkUpdate(s.workers, w, Failing(wk.task, wk.pos / 2 - 1));
    case Exit => WorkersWorkUpdate(s.workers, w, Exited);
    case _ => WorkersWorkUpdate(s.workers, w, AfterEmit(wk));
  }

  lemma MeasureLoop(s: State, step: LoopStep)
    requires LoopEnabled(s, step)
    ensures Measure(ApplyLoop(s, step)) < Measure(s)
  {
    hide SubmitsWork, QueueWork, WorkersWork;
  }

  lemma MeasurePump(s: State, step: PumpStep)
    requires PumpEnabled(s, step)
    ensures Measure(ApplyPump(s, step)) < Measure(s)
  {
    hide SubmitsWork, QueueWork, WorkersWork;
  }

  lemma MeasureEnv(s: State, step: EnvStep)
    requires EnvEnabled(s, step)
    ensures Measure(ApplyEnv(s, step)) == Measure(s)
  {
    hide SubmitsWork, QueueWork, WorkersWork;
  }

  lemma MeasureStep(s: State, step: Step)
    requires Enabled(s, step)
    ensures IsSystem(step) ==> Measure(Apply(s, step)) < Measure(s)
    ensures step.OfEnv? ==> Measure(Apply(s, step)) == Measure(s)
  {
    hide ApplySubmit, ApplyWorker, ApplyLoop, ApplyPump, ApplyEnv;
    hide SubmitEnabled, WorkerEnabled, LoopEnabled, PumpEnabled, EnvEnabled, Measure;
    match step
    case OfSubmit(sub) => if !sub.Create? { MeasureSubmit(s, sub); }
    case OfWorker(w, work) => MeasureWorker(s, w, work);
    case OfLoop(act) => MeasureLoop(s, act);
    case OfPump(pumping) => MeasurePump(s, pumping);
    case OfEnv(env) => MeasureEnv(s, env);
  }

  ghost function SystemSteps(steps: seq<Step>): nat
    decreases |steps|
  {
    if steps == [] then 0
    else SystemSteps(steps[..|steps|-1]) + if IsSystem(steps[|steps|-1]) then 1 else 0
  }

  /** Without new submissions, every run from any state whatever, cancelled or not and with any
      number of subscriber steps in between, makes at most `Measure` system steps. */
  lemma {:induction false} Terminates(states: seq<State>, steps: seq<Step>)
    requires IsExecution(states, steps)
    requires forall i :: 0 <= i < |steps| ==> IsSystem(steps[i]) || steps[i].OfEnv?
    ensures SystemSteps(steps) + Measure(states[|steps|]) <= Measure(states[0])
    decreases |steps|
  {
    hide Measure, Apply, Enabled;
    if steps != [] {
      var n := |steps| - 1;
      Terminates(states[..n+1], steps[..n]);
      MeasureStep(states[n], steps[n]);
    }
  }

  // ---- uncancelled runs ----

  ghost predicate NotFailed(e: TaskEvent) {
    IsTerminalEvent(e) ==> e.status.Completed?
  }

  /** Until cancellation every component runs and nothing but a full queue fails a task. */
  ghost predicate Healthy(s: State) {
    !s.cancelled ==>
      && (forall i :: 0 <= i < |s.workers| ==> !s.workers[i].Exited?)
      && !s.loop.Stopped? && s.live && !s.closed && !s.pump.Finished?
      && (forall i :: 0 <= i < |s.events| ==> NotFailed(s.events[i]))
      && (s.loop.Received? || s.loop.Enriched? ==> NotFailed(s.loop.ev))
      && (forall id :: id in s.store && IsTerminal(s.store[id].status) && id !in s.rejected ==>
            s.store[id].status.Completed?)
  }

  lemma HealthySubmit(s: State, step: SubmitStep)
    requires Wellformed(s) && Healthy(s) && SubmitEnabled(s, step)
    ensures Healthy(ApplySubmit(s, step))
  {
  }

  lemma HealthyWorker(s: State, w: nat, step: WorkerStep)
    requires Wellformed(s) && Healthy(s) && WorkerEnabled(s, w, step)
    ensures Healthy(ApplyWorker(s, w, step))
  {
    assert WorkerOk(s, s.workers[w]);
    if !s.cancelled && step.Emit? {
      assert NotFailed(NextEvent(s.workers[w]));
    }
  }

  lemma HealthyLoop(s: State, step: LoopStep)
    requires Healthy(s) && LoopEnabled(s, step)
    ensures Healthy(ApplyLoop(s, step))
  {
    if !s.cancelled && step.Take? { assert NotFailed(s.events[0]); }
  }

  lemma HealthyPump(s: State, step: PumpStep)
    requires Healthy(s) && PumpEnabled(s, step)
    ensures Healthy(ApplyPump(s, step))
  {
  }

  lemma HealthyEnv(s: State, step: EnvStep)
    requires Healthy(s) && EnvEnabled(s, step)
    ensures Healthy(ApplyEnv(s, step))
  {
  }

  lemma HealthyStep(s: State, step: Step)
    requires Wellformed(s) && Healthy(s) && Enabled(s, step)
    ensures Healthy(Apply(s, step))
  {
    hide ApplySubmit, ApplyWorker, ApplyLoop, ApplyPump, ApplyEnv;
    hide SubmitEnabled, WorkerEnabled, LoopEnabled, PumpEnabled, EnvEnabled, Healthy, Wellformed;
    match step
    case OfSubmit(sub) => HealthySubmit(s, sub);
    case OfWorker(w, work) => HealthyWorker(s, w, work);
    case OfLoop(act) => HealthyLoop(s, act);
    case OfPump(pumping) => HealthyPump(s, pumping);
    case OfEnv(env) => HealthyEnv(s, env);
  }

  lemma {:induction false} RunHealthy(states: seq<State>, steps: seq<Step>, i: nat)
    requires IsRun(states, steps) && i < |states|
    ensures Conserved(states[i]) && Healthy(states[i]) && |states[i].workers| == |states[0].workers|
  {
    hide Apply, Enabled, Conserved, CountedOnce;
    RunConserved(states, steps, i);
    if i > 0 {
      hide Healthy;
      RunHealthy(states, steps, i - 1);
      RunConserved(states, steps, i - 1);
      ConservedIsWellformed(states[i-1]);
      HealthyStep(states[i-1], steps[i-1]);
      FrameStep(states[i-1], steps[i-1]);
    }
  }

  lemma ConservedIsWellformed(s: State)
    requires Conserved(s)
    ensures Wellformed(s)
  {
  }

  lemma SubmitFrame(s: State, step: SubmitStep)
    requires SubmitEnabled(s, step)
    ensures |ApplySubmit(s, step).workers| == |s.workers| && ApplySubmit(s, step).cancelled == s.cancelled
    ensures ApplySubmit(s, step).loop == s.loop
  {
  }

  lemma WorkerFrame(s: State, w: nat, step: WorkerStep)
    requires WorkerEnabled(s, w, step)
    ensures |ApplyWorker(s, w, step).workers| == |s.workers| && ApplyWorker(s, w, step).cancelled == s.cancelled
    ensures ApplyWorker(s, w, step).loop == s.loop && ApplyWorker(s, w, step).submits == s.submits
  {
  }

  lemma LoopFrame(s: State, step: LoopStep)
    requires LoopEnabled(s, step)
    ensures ApplyLoop(s, step).workers == s.workers && ApplyLoop(s, step).cancelled == s.cancelled
  {
  }

  lemma PumpFrame(s: State, step: PumpStep)
    requires PumpEnabled(s, step)
    ensures ApplyPump(s, step).cancelled == s.cancelled
  {
  }

  /** The number of workers never changes, and only the environment cancels the context. */
  lemma FrameStep(s: State, step: Step)
    requires Enabled(s, step)
    ensures |Apply(s, step).workers| == |s.workers|
    ensures !step.OfEnv? ==> Apply(s, step).cancelled == s.cancelled
  {
    hide ApplySubmit, ApplyWorker, ApplyLoop, ApplyPump, ApplyEnv;
    hide SubmitEnabled, WorkerEnabled, LoopEnabled, PumpEnabled, EnvEnabled;
    match step
    case OfSubmit(sub) => SubmitFrame(s, sub);
    case OfWorker(w, work) => WorkerFrame(s, w, work);
    case OfLoop(act) => LoopFrame(s, act);
    case OfPump(pumping) =>
      PumpKeeps(s, pumping);
      PumpFrame(s, pumping);
    case OfEnv(env) => EnvKeeps(s, env);
  }

  /** Nothing is left to do: no call of Submit in flight and every channel and hand empty. */
  ghost predicate Quiescent(s: State) {
    && s.submits == map[] && s.queue == [] && s.events == [] && s.loop.Ready?
    && s.bridge == [] && s.pump.Waiting?
    && forall i :: 0 <= i < |s.workers| ==> s.workers[i].Idle?
  }

  /** The step the system can make next. */
  lemma SomeStepEnabled(s: State) returns (step: Step)
    requires Conserved(s) && Healthy(s) && !s.cancelled && |s.workers| > 0 && !Quiescent(s)
    ensures IsSystem(step) && Enabled(s, step)
  {
    hide CountedOnce;
    if s.submits != map[] {
      var id :| id in s.submits;
      step := OfSubmit(match s.submits[id].pc
                       case Created => if |s.queue| < s.queueSize then Dispatch(id) else DispatchFull(id)
                       case Rejecting => MarkFailed(id, 0)
                       case Dispatched => Stamp(id, 0));
    } else if !s.pump.Waiting? {
      step := OfPump(Push);
    } else if s.bridge != [] {
      step := OfPump(Pull);
    } else if !s.loop.Ready? {
      step := OfLoop(if s.loop.Received? then Enrich else if s.loop.Enriched? then Persist(0) else Publish);
    } else if s.events != [] {
      step := OfLoop(Take);
    } else if i :| 0 <= i < |s.workers| && !s.workers[i].Idle? {
      assert WorkerOk(s, s.workers[i]);
      step := OfWorker(i, Emit);
    } else {
      step := OfWorker(0, Receive);
    }
  }

  /** In a quiescent uncancelled state every task is completed, or rejected and failed. */
  lemma QuiescentComplete(s: State, id: TaskID)
    requires Conserved(s) && Healthy(s) && !s.cancelled && Quiescent(s) && id in s.store
    ensures if id in s.rejected then s.store[id].status.Failed? else s.store[id].status.Completed?
  {
    NobodyHolds(s.workers, id);
    assert CountedOnce(s, id);
    assert Final(s.store, id) == 1;
  }

  /** From every reachable uncancelled state with a worker: as long as something is left to do some
      system step is enabled, and when none is, every accepted task is completed in the store. */
  lemma StuckMeansDone(states: seq<State>, steps: seq<Step>, i: nat)
    requires IsRun(states, steps) && i < |states| && !states[i].cancelled && |states[0].workers| > 0
    ensures var s := states[i];
            && (Quiescent(s) || exists step :: IsSystem(step) && Enabled(s, step))
            && ((forall step :: IsSystem(step) ==> !Enabled(s, step)) ==>
                  Quiescent(s) && forall id :: id in s.store ==>
                    if id in s.rejected then s.store[id].status.Failed? else s.store[id].status.Completed?)
  {
    hide Apply, Enabled, Quiescent, Healthy, Conserved;
    RunHealthy(states, steps, i);
    var s := states[i];
    if Quiescent(s) {
      forall id | id in s.store
        ensures if id in s.rejected then s.store[id].status.Failed? else s.store[id].status.Completed?
      {
        QuiescentComplete(s, id);
      }
    } else {
      var step := SomeStepEnabled(s);
    }
  }

  /** A run that drains the system, so completion is not vacuous. */
  lemma Drain(s: State) returns (states: seq<State>, steps: seq<Step>)
    requires Conserved(s) && Healthy(s) && !s.cancelled && |s.workers| > 0
    ensures IsExecution(states, steps) && states[0] == s
    ensures forall i :: 0 <= i < |steps| ==> IsSystem(steps[i])
    ensures Quiescent(states[|steps|]) && !states[|steps|].cancelled
    ensures Conserved(states[|steps|]) && Healthy(states[|steps|])
    decreases Measure(s)
  {
    hide Apply, Enabled, Quiescent, Healthy, Conserved, Measure;
    if Quiescent(s) {
      states, steps := [s], [];
    } else {
      var step := SomeStepEnabled(s);
      var s' := Apply(s, step);
      MeasureStep(s, step);
      ConservedStep(s, step);
      ConservedIsWellformed(s);
      HealthyStep(s, step);
      FrameStep(s, step);
      var states', steps' := Drain(s');
      states, steps := [s] + states', [step] + steps';
      forall i | 0 <= i < |steps|
        ensures Enabled(states[i], steps[i]) && states[i+1] == Apply(states[i], steps[i]) && IsSystem(steps[i])
      {
        if i > 0 {
          assert steps[i] == steps'[i-1] && states[i] == states'[i-1];
        }
      }
    }
  }

  /** From every reachable uncancelled state the system can be drained, and then every task that
      was not rejected is completed; by `Terminates` no schedule can avoid that for ever. */
  lemma EveryAcceptedTaskCompletes(states: seq<State>, steps: seq<Step>, i: nat)
    requires IsRun(states, steps) && i < |states| && !states[i].cancelled && |states[0].workers| > 0
    ensures exists more: seq<State>, acts: seq<Step> ::
              && IsExecution(more, acts) && more[0] == states[i] && |acts| <= Measure(states[i])
              && (forall k :: 0 <= k < |acts| ==> IsSystem(acts[k]))
              && Quiescent(more[|acts|])
              && var end := more[|acts|];
              forall id :: id in end.store && id !in end.rejected ==> end.store[id].status.Completed?
  {
    hide Apply, Enabled, Quiescent, Healthy, Conserved, Measure;
    RunHealthy(states, steps, i);
    var more, acts := Drain(states[i]);
    Terminates(more, acts);
    AllSystem(acts);
    var end := more[|acts|];
    forall id | id in end.store && id !in end.rejected ensures end.store[id].status.Completed? {
      QuiescentComplete(end, id);
    }
  }

  lemma {:induction false} AllSystem(steps: seq<Step>)
    requires forall k :: 0 <= k < |steps| ==> IsSystem(steps[k])
    ensures SystemSteps(steps) == |steps|
    decreases |steps|
  {
    if steps != [] { AllSystem(steps[..|steps|-1]); }
  }
}
