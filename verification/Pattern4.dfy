/** The gRPC dispatch loop of Pattern 4: availability tokens, re-queueing and what it conserves. */
module Pattern4 {
  import opened Models

  const PENDING_BUFFER := 100
  const AVAILABLE_BUFFER := 100

  type WorkerID = string
  /** Identity of a worker's stream. Worker ids may be reused, streams are not. */
  type StreamID = nat

  /** The dispatch loop between its operations. */
  datatype Loop =
    | Receiving
    | Holding(task: Task)
    | Matched(task: Task, worker: WorkerID)
    | Sending(task: Task, worker: WorkerID, stream: StreamID)
    | Requeueing(task: Task, remove: Option<WorkerID>)
    | Removing(worker: WorkerID)

  datatype State = State(
    streams: map<WorkerID, StreamID>,
    available: seq<WorkerID>,
    pending: seq<Task>,
    loop: Loop,
    arriving: multiset<WorkerID>,  // registered, first token not yet pushed
    // history
    accepted: multiset<Task>,
    sent: multiset<Task>,
    connects: nat,
    terminals: nat)

  datatype Step =
    | Enqueue(task: Task)                       // Dispatch or Submit, with room
    | Connect(worker: WorkerID, stream: StreamID)
    | PushToken(worker: WorkerID)               // blocking send after Connect
    | Terminal(worker: WorkerID)                // a terminal event read from that worker's stream
    | Disconnect(worker: WorkerID)
    | TakeTask
    | TakeToken
    | LookUp
    | SendOk
    | SendFails
    | Requeue                                   // blocking send back to pendingTasks
    | RemoveFailed

  const INITIAL := State(map[], [], [], Receiving, multiset{}, multiset{}, multiset{}, 0, 0)

  predicate Enabled(s: State, step: Step) {
    match step
    case Enqueue(_) => |s.pending| < PENDING_BUFFER
    case Connect(_, _) => true
    case PushToken(w) => w in s.arriving && |s.available| < AVAILABLE_BUFFER
    case Terminal(_) => true
    case Disconnect(_) => true
    case TakeTask => s.loop.Receiving? && s.pending != []
    case TakeToken => s.loop.Holding? && s.available != []
    case LookUp => s.loop.Matched?
    case SendOk => s.loop.Sending?
    case SendFails => s.loop.Sending?
    case Requeue => s.loop.Requeueing? && |s.pending| < PENDING_BUFFER
    case RemoveFailed => s.loop.Removing?
  }

  function Apply(s: State, step: Step): State
    requires Enabled(s, step)
  {
    match step
    case Enqueue(task) => s.(pending := s.pending + [task], accepted := s.accepted + multiset{task})
    case Connect(w, stream) =>
      s.(streams := s.streams[w := stream], arriving := s.arriving + multiset{w}, connects := s.connects + 1)
    case PushToken(w) => s.(available := s.available + [w], arriving := s.arriving - multiset{w})
    // The event itself may be dropped on its way to the manager; the token too.
    case Terminal(w) =>
      s.(available := if |s.available| < AVAILABLE_BUFFER then s.available + [w] else s.available,
         terminals := s.terminals + 1)
    case Disconnect(w) => s.(streams := s.streams - {w})
    case TakeTask => s.(loop := Holding(s.pending[0]), pending := s.pending[1..])
    case TakeToken => s.(loop := Matched(s.loop.task, s.available[0]), available := s.available[1..])
    case LookUp =>
      s.(loop := if s.loop.worker in s.streams
                 then Sending(s.loop.task, s.loop.worker, s.streams[s.loop.worker])
                 else Requeueing(s.loop.task, None))
    case SendOk => s.(loop := Receiving, sent := s.sent + multiset{s.loop.task})
    case SendFails => s.(loop := Requeueing(s.loop.task, Some(s.loop.worker)))
    case Requeue =>
      s.(pending := s.pending + [s.loop.task],
         loop := if s.loop.remove.Some? then Removing(s.loop.remove.value) else Receiving)
    case RemoveFailed => s.(streams := s.streams - {s.loop.worker}, loop := Receiving)
  }

  ghost predicate IsRun(states: seq<State>, steps: seq<Step>) {
    && |states| == |steps| + 1
    && forall i :: 0 <= i < |steps| ==> Enabled(states[i], steps[i]) && states[i+1] == Apply(states[i], steps[i])
  }

  // ---- conservation and capacity ----

  ghost function InHand(loop: Loop): multiset<Task> {
    if loop.Receiving? || loop.Removing? then multiset{} else multiset{loop.task}
  }

  ghost predicate Conserves(s: State) {
    s.accepted == multiset(s.pending) + InHand(s.loop) + s.sent
  }

  /** Tokens that could still let a task be sent. */
  ghost function Tokens(s: State): nat {
    |s.available| + |s.arriving| + (if s.loop.Matched? || s.loop.Sending? then 1 else 0)
  }

  ghost predicate WithinCapacity(s: State) {
    |s.sent| + Tokens(s) <= s.connects + s.terminals
  }

  lemma ConservesTake(s: State)
    requires Conserves(s) && Enabled(s, TakeTask)
    ensures Conserves(Apply(s, TakeTask))
  {
    assert s.pending == [s.pending[0]] + s.pending[1..];
    assert multiset(s.pending) == multiset{s.pending[0]} + multiset(s.pending[1..]);
  }

  lemma ConservesPush(s: State, step: Step)
    requires Conserves(s) && Enabled(s, step) && (step.Enqueue? || step.Requeue?)
    ensures Conserves(Apply(s, step))
  {
    var task := if step.Enqueue? then step.task else s.loop.task;
    assert multiset(s.pending + [task]) == multiset(s.pending) + multiset{task};
  }

  lemma ConservesSend(s: State)
    requires Conserves(s) && Enabled(s, SendOk)
    ensures Conserves(Apply(s, SendOk))
  {
  }

  lemma ConservesStep(s: State, step: Step)
    requires Conserves(s) && Enabled(s, step)
    ensures Conserves(Apply(s, step))
  {
    match step
    case TakeTask => ConservesTake(s);
    case Enqueue(_) => ConservesPush(s, step);
    case Requeue => ConservesPush(s, step);
    case SendOk => ConservesSend(s);
    case _ =>
      var s' := Apply(s, step);
      assert s'.accepted == s.accepted && s'.pending == s.pending && s'.sent == s.sent;
      assert InHand(s'.loop) == InHand(s.loop);
  }

  lemma CapacityStep(s: State, step: Step)
    requires WithinCapacity(s) && Enabled(s, step)
    ensures WithinCapacity(Apply(s, step))
  {
  }

  /** In every run, whatever ids, stale tokens, failures and re-queues occur: what was accepted is
      pending, in the loop's hand, or sent, each exactly as often as it was accepted; and no more
      tasks are sent than workers connected plus terminal events received. */
  lemma {:induction false} ConservationAndCapacity(states: seq<State>, steps: seq<Step>, i: nat)
    requires IsRun(states, steps) && states[0] == INITIAL && i < |states|
    ensures Conserves(states[i]) && WithinCapacity(states[i])
    ensures |states[i].sent| <= states[i].connects + states[i].terminals
  {
    if i > 0 {
      hide Apply, Enabled, Conserves, WithinCapacity;
      ConservationAndCapacity(states, steps, i - 1);
      ConservesStep(states[i-1], steps[i-1]);
      CapacityStep(states[i-1], steps[i-1]);
      CapacityBounds(states[i]);
    }
  }

  lemma CapacityBounds(s: State)
    requires WithinCapacity(s)
    ensures |s.sent| <= s.connects + s.terminals
  {
  }

  // ---- when the loop gets stuck ----

  ghost predicate Stuck(s: State) {
    s.loop.Requeueing? && |s.pending| == PENDING_BUFFER
  }

  lemma StuckStep(s: State, step: Step)
    requires Stuck(s) && Enabled(s, step)
    ensures Stuck(Apply(s, step)) && Apply(s, step).loop == s.loop
    ensures Apply(s, step).sent == s.sent && Apply(s, step).pending == s.pending
  {
  }

  /** The loop is the only receiver of `pendingTasks`, so a re-queue that finds the channel full
      never finishes: from then on nothing is sent and nothing is accepted. */
  lemma {:induction false} RequeueIntoFullChannelNeverEnds(states: seq<State>, steps: seq<Step>, j: nat)
    requires IsRun(states, steps) && Stuck(states[0]) && j < |states|
    ensures Stuck(states[j]) && states[j].loop == states[0].loop
    ensures states[j].sent == states[0].sent && states[j].pending == states[0].pending
  {
    if j > 0 {
      hide Apply, Enabled, Stuck;
      RequeueIntoFullChannelNeverEnds(states, steps, j - 1);
      StuckStep(states[j-1], steps[j-1]);
    }
  }

  ghost function Last(states: seq<State>): State
    requires states != []
  {
    states[|states|-1]
  }

  lemma Extend(states: seq<State>, steps: seq<Step>, step: Step) returns (states': seq<State>, steps': seq<Step>)
    requires IsRun(states, steps) && Enabled(Last(states), step)
    ensures IsRun(states', steps') && states'[0] == states[0] && Last(states') == Apply(Last(states), step)
  {
    states', steps' := states + [Apply(Last(states), step)], steps + [step];
  }

  /** Accepting tasks until the channel is full. */
  lemma {:induction false} Fill(states: seq<State>, steps: seq<Step>, task: Task)
    returns (states': seq<State>, steps': seq<Step>)
    requires IsRun(states, steps) && |Last(states).pending| <= PENDING_BUFFER
    ensures IsRun(states', steps') && states'[0] == states[0]
    ensures var s, s' := Last(states), Last(states');
            && |s'.pending| == PENDING_BUFFER
            && s'.loop == s.loop && s'.available == s.available && s'.streams == s.streams
    decreases PENDING_BUFFER - |Last(states).pending|
  {
    states', steps' := states, steps;
    if |Last(states).pending| < PENDING_BUFFER {
      hide IsRun;
      states', steps' := Extend(states, steps, Enqueue(task));
      states', steps' := Fill(states', steps', task);
    }
  }

  /** Such a re-queue does happen: a worker leaves its token behind, the loop takes a task, the
      channel fills up meanwhile, and then the loop finds the worker gone. */
  lemma StuckReachable(worker: WorkerID, task: Task) returns (states: seq<State>, steps: seq<Step>)
    ensures IsRun(states, steps) && states[0] == INITIAL && Stuck(Last(states))
  {
    states, steps := [INITIAL], [];
    assert IsRun(states, steps);
    hide IsRun;
    states, steps := Extend(states, steps, Connect(worker, 0));
    states, steps := Extend(states, steps, PushToken(worker));
    states, steps := Extend(states, steps, Disconnect(worker));
    assert worker !in Last(states).streams && Last(states).available == [worker];
    states, steps := Extend(states, steps, Enqueue(task));
    states, steps := Extend(states, steps, TakeTask);
    states, steps := Fill(states, steps, task);
    states, steps := Extend(states, steps, TakeToken);
    states, steps := Extend(states, steps, LookUp);
  }

  lemma {:induction false} PendingBounded(states: seq<State>, steps: seq<Step>, i: nat)
    requires IsRun(states, steps) && states[0] == INITIAL && i < |states|
    ensures |states[i].pending| <= PENDING_BUFFER
  {
    if i > 0 {
      PendingBounded(states, steps, i - 1);
      assert Enabled(states[i-1], steps[i-1]);
    }
  }

  /** The loop waits for a task, or for a token. */
  ghost predicate WaitsForInput(s: State) {
    (s.loop.Receiving? && s.pending == []) || (s.loop.Holding? && s.available == [])
  }

  /** In every run the loop can move unless it waits for a task or a token or is stuck, so a full
      channel at the moment of re-queueing is the only way to get stuck. */
  lemma LoopMovesIff(states: seq<State>, steps: seq<Step>, i: nat)
    requires IsRun(states, steps) && states[0] == INITIAL && i < |states|
    ensures (exists step :: IsLoopStep(step) && !step.PushToken? && Enabled(states[i], step)) <==>
              !WaitsForInput(states[i]) && !Stuck(states[i])
  {
    PendingBounded(states, steps, i);
    var s := states[i];
    var next := match s.loop
      case Receiving => TakeTask
      case Holding(_) => TakeToken
      case Matched(_, _) => LookUp
      case Sending(_, _, _) => SendOk
      case Requeueing(_, _) => Requeue
      case Removing(_) => RemoveFailed;
    assert IsLoopStep(next);
    assert !WaitsForInput(s) && !Stuck(s) ==> Enabled(s, next);
  }

  // ---- no endless turning over stale tokens ----

  ghost function LoopWork(loop: Loop): nat {
    match loop
    case Receiving => 1
    case Holding(_) => 0
    case Matched(_, _) => 5
    case Sending(_, _, _) => 4
    case Requeueing(_, _) => 3
    case Removing(_) => 2
  }

  /** Every turn uses up a token: this bounds the steps of the loop and of token pushes. */
  ghost function Measure(s: State): nat {
    7 * |s.arriving| + 6 * |s.available| + LoopWork(s.loop)
  }

  predicate MakesTokens(step: Step) { step.Connect? || step.Terminal? }

  predicate IsLoopStep(step: Step) {
    !MakesTokens(step) && !step.Enqueue? && !step.Disconnect?
  }

  lemma MeasureStep(s: State, step: Step)
    requires Enabled(s, step) && !MakesTokens(step)
    ensures if IsLoopStep(step) then Measure(Apply(s, step)) < Measure(s) else Measure(Apply(s, step)) == Measure(s)
  {
  }

  ghost function LoopSteps(steps: seq<Step>): nat
    decreases |steps|
  {
    if steps == [] then 0
    else LoopSteps(steps[..|steps|-1]) + if IsLoopStep(steps[|steps|-1]) then 1 else 0
  }

  /** Without new tokens the loop makes a bounded number of steps, however often it re-queues. */
  lemma {:induction false} TokensBoundTheLoop(states: seq<State>, steps: seq<Step>)
    requires IsRun(states, steps)
    requires forall i :: 0 <= i < |steps| ==> !MakesTokens(steps[i])
    ensures LoopSteps(steps) + Measure(states[|steps|]) <= Measure(states[0])
    decreases |steps|
  {
    hide Measure, Apply, Enabled;
    if steps != [] {
      var n := |steps| - 1;
      TokensBoundTheLoop(states[..n+1], steps[..n]);
      MeasureStep(states[n], steps[n]);
    }
  }

  // ---- the server object ----

  datatype EnqueueResult = Enqueued | ContextDone | DispatchFull

  class Server {
    var streams: map<WorkerID, StreamID>
    var available: seq<WorkerID>
    var pending: seq<Task>

    constructor ()
      ensures streams == map[] && available == [] && pending == []
    {
      streams, available, pending := map[], [], [];
    }

    /** A select between room in the channel and a context that is done, with a default; when both
        are ready either may be taken, and `prefersDone` says which. */
    method Dispatch(task: Task, done: bool, prefersDone: bool) returns (result: EnqueueResult)
      modifies this`pending
      ensures pending == if result.Enqueued? then old(pending) + [task] else old(pending)
      ensures result.Enqueued? ==> |old(pending)| < PENDING_BUFFER
      ensures result.ContextDone? ==> done
      ensures result.DispatchFull? <==> |old(pending)| >= PENDING_BUFFER && !done
      ensures |old(pending)| < PENDING_BUFFER && !(done && prefersDone) ==> result.Enqueued?
    {
      if |pending| < PENDING_BUFFER && !(done && prefersDone) {
        pending := pending + [task];
        return Enqueued;
      }
      result := if done then ContextDone else DispatchFull;
    }

    /** The start of Connect: the stream replaces one the worker may have had. */
    method RegisterWorker(worker: WorkerID, stream: StreamID)
      modifies this`streams
      ensures streams == old(streams)[worker := stream]
    {
      streams := streams[worker := stream];
    }

    method RemoveWorker(worker: WorkerID)
      modifies this`streams
      ensures streams == old(streams) - {worker}
    {
      streams := streams - {worker};
    }

    /** A terminal event of `worker` makes it available again, unless the queue is full. */
    method WorkerFinished(worker: WorkerID)
      modifies this`available
      ensures available == if |old(available)| < AVAILABLE_BUFFER then old(available) + [worker] else old(available)
    {
      if |available| < AVAILABLE_BUFFER {
        available := available + [worker];
      }
    }

    /** One turn of the dispatch loop with a task and a token at hand; `sends` says whether
        the stream takes the message. The task is either sent or back in the queue. */
    method DispatchTurn(sends: bool) returns (task: Task, sent: bool)
      requires pending != [] && available != [] && |pending| <= PENDING_BUFFER
      modifies this
      ensures task == old(pending)[0] && available == old(available)[1..]
      ensures sent <==> old(available)[0] in old(streams) && sends
      ensures multiset(pending) + (if sent then multiset{task} else multiset{}) == multiset(old(pending))
      ensures pending == if sent then old(pending)[1..] else old(pending)[1..] + [task]
      ensures streams == if old(available)[0] in old(streams) && !sends
                         then old(streams) - {old(available)[0]} else old(streams)
    {
      assert pending == [pending[0]] + pending[1..];
      task := pending[0];
      pending := pending[1..];
      var worker := available[0];
      available := available[1..];
      sent := false;
      if worker !in streams {
        pending := pending + [task];
        return;
      }
      if !sends {
        pending := pending + [task];
        RemoveWorker(worker);
        return;
      }
      sent := true;
    }
  }

  /** The steps of one turn taken without interference do what the object's turn does. */
  lemma UndisturbedTurn(s: State, sends: bool)
    requires s.loop.Receiving? && s.pending != [] && s.available != [] && |s.pending| <= PENDING_BUFFER
    ensures var task, worker := s.pending[0], s.available[0];
            && Enabled(s, TakeTask)
            && var s1 := Apply(s, TakeTask);
            && Enabled(s1, TakeToken)
            && var s2 := Apply(s1, TakeToken);
            && Enabled(s2, LookUp)
            && var s3 := Apply(s2, LookUp);
            && s3.available == s.available[1..]
            && (worker in s.streams <==> Enabled(s3, SendOk))
            && (worker in s.streams && sends ==>
                  Apply(s3, SendOk) == s.(pending := s.pending[1..], available := s.available[1..],
                                          sent := s.sent + multiset{task}))
            && (worker !in s.streams ==>
                  && Enabled(s3, Requeue)
                  && Apply(s3, Requeue) == s.(pending := s.pending[1..] + [task], available := s.available[1..]))
            && (worker in s.streams && !sends ==>
                  && Enabled(s3, SendFails) && Enabled(Apply(s3, SendFails), Requeue)
                  && Enabled(Apply(Apply(s3, SendFails), Requeue), RemoveFailed)
                  && Apply(Apply(Apply(s3, SendFails), Requeue), RemoveFailed)
                       == s.(pending := s.pending[1..] + [task], available := s.available[1..],
                             streams := s.streams - {worker}))
  {
  }
}
