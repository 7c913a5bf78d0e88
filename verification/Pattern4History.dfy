/** Pattern 4 as its steps tell it: whose stream is known, in which order tasks and tokens pass
    through their queues, where a task is sent, and that it can be sent. */
module Pattern4History {
  import opened Models
  import opened Pattern4

  // ---- the known streams ----

  /** The step sets or deletes the stream of worker `w`. */
  predicate Sets(s: State, step: Step, w: WorkerID) {
    || (step.Connect? && step.worker == w)
    || step == Disconnect(w)
    || (step.RemoveFailed? && s.loop == Removing(w))
  }

  ghost predicate Touches(states: seq<State>, steps: seq<Step>, k: nat, w: WorkerID)
    requires k < |steps| < |states|
  {
    Sets(states[k], steps[k], w)
  }

  predicate Knows(s: State, w: WorkerID, stream: StreamID) {
    w in s.streams && s.streams[w] == stream
  }

  lemma StreamStep(s: State, step: Step, w: WorkerID, stream: StreamID)
    requires Enabled(s, step)
    ensures Knows(Apply(s, step), w, stream) <==>
              step == Connect(w, stream) || (Knows(s, w, stream) && !Sets(s, step, w))
  {
  }

  /** The last step so far that touched the stream of `w` connected it with `stream`. */
  ghost predicate Connected(states: seq<State>, steps: seq<Step>, n: nat, w: WorkerID, stream: StreamID)
    requires n <= |steps| < |states|
  {
    exists k :: 0 <= k < n && steps[k] == Connect(w, stream) && forall j :: k < j < n ==> !Touches(states, steps, j, w)
  }

  lemma ConnectedNext(states: seq<State>, steps: seq<Step>, n: nat, w: WorkerID, stream: StreamID)
    requires n < |steps| < |states|
    ensures Connected(states, steps, n + 1, w, stream) <==>
              || steps[n] == Connect(w, stream)
              || (Connected(states, steps, n, w, stream) && !Touches(states, steps, n, w))
  {
    if steps[n] == Connect(w, stream) {
      assert Connected(states, steps, n + 1, w, stream);
    } else if Connected(states, steps, n, w, stream) && !Touches(states, steps, n, w) {
      var k :| 0 <= k < n && steps[k] == Connect(w, stream) && forall j :: k < j < n ==> !Touches(states, steps, j, w);
      assert forall j :: k < j < n + 1 ==> !Touches(states, steps, j, w);
    }
  }

  /** In every run the server knows `stream` as the stream of `w` exactly when the last connect,
      disconnect or removal of `w` was its connect with that stream. */
  lemma {:induction false} StreamIff(states: seq<State>, steps: seq<Step>, i: nat, w: WorkerID, stream: StreamID)
    requires IsRun(states, steps) && states[0] == INITIAL && i < |states|
    ensures Knows(states[i], w, stream) <==> Connected(states, steps, i, w, stream)
  {
    if i > 0 {
      hide Connected, Knows, Sets, Apply, Enabled;
      StreamIff(states, steps, i - 1, w, stream);
      ConnectedNext(states, steps, i - 1, w, stream);
      StreamStep(states[i-1], steps[i-1], w, stream);
    }
  }

  // ---- the queues ----

  /** The tasks that entered the queue: accepted, or put back. */
  ghost function TasksIn(states: seq<State>, steps: seq<Step>, n: nat): seq<Task>
    requires n <= |steps| < |states|
  {
    if n == 0 then []
    else TasksIn(states, steps, n - 1) +
         match steps[n-1]
         case Enqueue(task) => [task]
         case Requeue => if states[n-1].loop.Requeueing? then [states[n-1].loop.task] else []
         case _ => []
  }

  /** The tasks the loop took. */
  ghost function TasksOut(states: seq<State>, steps: seq<Step>, n: nat): seq<Task>
    requires n <= |steps| < |states|
  {
    if n == 0 then []
    else TasksOut(states, steps, n - 1) +
         if steps[n-1].TakeTask? && states[n].loop.Holding? then [states[n].loop.task] else []
  }

  /** The tokens that entered the queue: after a connect, and after a terminal event with room. */
  ghost function TokensIn(states: seq<State>, steps: seq<Step>, n: nat): seq<WorkerID>
    requires n <= |steps| < |states|
  {
    if n == 0 then []
    else TokensIn(states, steps, n - 1) +
         match steps[n-1]
         case PushToken(w) => [w]
         case Terminal(w) => if |states[n-1].available| < AVAILABLE_BUFFER then [w] else []
         case _ => []
  }

  ghost function TokensOut(states: seq<State>, steps: seq<Step>, n: nat): seq<WorkerID>
    requires n <= |steps| < |states|
  {
    if n == 0 then []
    else TokensOut(states, steps, n - 1) +
         if steps[n-1].TakeToken? && states[n].loop.Matched? then [states[n].loop.worker] else []
  }

  lemma PendingStep(s: State, step: Step)
    requires Enabled(s, step)
    ensures var s' := Apply(s, step);
            (if step.TakeTask? then (if s'.loop.Holding? then [s'.loop.task] else []) else []) + s'.pending ==
              s.pending + match step case Enqueue(task) => [task] case Requeue => [s.loop.task] case _ => []
    ensures |s.pending| <= PENDING_BUFFER ==> |Apply(s, step).pending| <= PENDING_BUFFER
  {
    if step.TakeTask? {
      assert s.pending == [s.pending[0]] + s.pending[1..];
    }
  }

  lemma AvailableStep(s: State, step: Step)
    requires Enabled(s, step)
    ensures var s' := Apply(s, step);
            (if step.TakeToken? then (if s'.loop.Matched? then [s'.loop.worker] else []) else []) + s'.available ==
              s.available + match step
                            case PushToken(w) => [w]
                            case Terminal(w) => if |s.available| < AVAILABLE_BUFFER then [w] else []
                            case _ => []
    ensures |s.available| <= AVAILABLE_BUFFER ==> |Apply(s, step).available| <= AVAILABLE_BUFFER
  {
    if step.TakeToken? {
      assert s.available == [s.available[0]] + s.available[1..];
    }
  }

  lemma Shift<T>(a: seq<T>, out: seq<T>, rest: seq<T>, before: seq<T>, more: seq<T>)
    requires out + rest == before + more
    ensures (a + out) + rest == (a + before) + more
  {
    assert (a + out) + rest == a + (out + rest);
    assert a + (before + more) == (a + before) + more;
  }

  /** In every run the tasks that entered the queue, new or put back, are those the loop took
      followed by those that wait, in order; and the queue keeps to its size. */
  lemma {:induction false} TasksInOrder(states: seq<State>, steps: seq<Step>, i: nat)
    requires IsRun(states, steps) && states[0] == INITIAL && i < |states|
    ensures TasksIn(states, steps, i) == TasksOut(states, steps, i) + states[i].pending
    ensures |states[i].pending| <= PENDING_BUFFER
  {
    if i > 0 {
      var s, step, s' := states[i-1], steps[i-1], states[i];
      TasksInOrder(states, steps, i - 1);
      PendingStep(s, step);
      assert Enabled(s, step);
      hide Apply;
      var out := if step.TakeTask? then (if s'.loop.Holding? then [s'.loop.task] else []) else [];
      var more := match step case Enqueue(task) => [task] case Requeue => [s.loop.task] case _ => [];
      Shift(TasksOut(states, steps, i - 1), out, s'.pending, s.pending, more);
    }
  }

  /** In every run the tokens that entered their queue are those the loop took followed by those
      that wait, in order: a connect's token, and that of every terminal event that found room. */
  lemma {:induction false} TokensInOrder(states: seq<State>, steps: seq<Step>, i: nat)
    requires IsRun(states, steps) && states[0] == INITIAL && i < |states|
    ensures TokensIn(states, steps, i) == TokensOut(states, steps, i) + states[i].available
    ensures |states[i].available| <= AVAILABLE_BUFFER
  {
    if i > 0 {
      var s, step, s' := states[i-1], steps[i-1], states[i];
      TokensInOrder(states, steps, i - 1);
      AvailableStep(s, step);
      hide Apply, Enabled;
      var out := if step.TakeToken? then (if s'.loop.Matched? then [s'.loop.worker] else []) else [];
      var more := match step
        case PushToken(w) => [w]
        case Terminal(w) => if |s.available| < AVAILABLE_BUFFER then [w] else []
        case _ => [];
      Shift(TokensOut(states, steps, i - 1), out, s'.available, s.available, more);
    }
  }

  // ---- what the history fields count ----

  ghost function Connects(steps: seq<Step>, n: nat): nat
    requires n <= |steps|
  {
    if n == 0 then 0 else Connects(steps, n - 1) + if steps[n-1].Connect? then 1 else 0
  }

  ghost function Terminals(steps: seq<Step>, n: nat): nat
    requires n <= |steps|
  {
    if n == 0 then 0 else Terminals(steps, n - 1) + if steps[n-1].Terminal? then 1 else 0
  }

  ghost function ConnectsOf(steps: seq<Step>, n: nat, w: WorkerID): nat
    requires n <= |steps|
  {
    if n == 0 then 0
    else ConnectsOf(steps, n - 1, w) + if steps[n-1].Connect? && steps[n-1].worker == w then 1 else 0
  }

  ghost function FirstTokensOf(steps: seq<Step>, n: nat, w: WorkerID): nat
    requires n <= |steps|
  {
    if n == 0 then 0 else FirstTokensOf(steps, n - 1, w) + if steps[n-1] == PushToken(w) then 1 else 0
  }

  ghost function AcceptedTasks(steps: seq<Step>, n: nat): multiset<Task>
    requires n <= |steps|
  {
    if n == 0 then multiset{}
    else AcceptedTasks(steps, n - 1) + if steps[n-1].Enqueue? then multiset{steps[n-1].task} else multiset{}
  }

  /** The tasks of the sends that succeeded. */
  ghost function SentTasks(states: seq<State>, steps: seq<Step>, n: nat): multiset<Task>
    requires n <= |steps| < |states|
  {
    if n == 0 then multiset{}
    else SentTasks(states, steps, n - 1) +
         if steps[n-1].SendOk? && states[n-1].loop.Sending? then multiset{states[n-1].loop.task} else multiset{}
  }

  lemma CountStep(s: State, step: Step)
    requires Enabled(s, step)
    ensures var s' := Apply(s, step);
            && s'.accepted == s.accepted + (if step.Enqueue? then multiset{step.task} else multiset{})
            && s'.sent == s.sent + (if step.SendOk? then multiset{s.loop.task} else multiset{})
            && s'.connects == s.connects + (if step.Connect? then 1 else 0)
            && s'.terminals == s.terminals + (if step.Terminal? then 1 else 0)
    ensures step.SendOk? ==> s.loop.Sending?
  {
  }

  /** In every run the counts that conservation and capacity speak about are those of the steps. */
  lemma {:induction false} CountsAreOfSteps(states: seq<State>, steps: seq<Step>, i: nat)
    requires IsRun(states, steps) && states[0] == INITIAL && i < |states|
    ensures states[i].accepted == AcceptedTasks(steps, i)
    ensures states[i].sent == SentTasks(states, steps, i)
    ensures states[i].connects == Connects(steps, i)
    ensures states[i].terminals == Terminals(steps, i)
  {
    hide Apply, Enabled;
    if i > 0 {
      CountsAreOfSteps(states, steps, i - 1);
      CountStep(states[i-1], steps[i-1]);
    }
  }

  lemma ArrivingStep(s: State, step: Step, w: WorkerID)
    requires Enabled(s, step)
    ensures Apply(s, step).arriving[w] + (if step == PushToken(w) then 1 else 0) ==
              s.arriving[w] + (if step.Connect? && step.worker == w then 1 else 0)
  {
  }

  /** In every run each connect of a worker gives it one first token, pushed or still to be pushed. */
  lemma {:induction false} OneTokenPerConnect(states: seq<State>, steps: seq<Step>, i: nat, w: WorkerID)
    requires IsRun(states, steps) && states[0] == INITIAL && i < |states|
    ensures states[i].arriving[w] + FirstTokensOf(steps, i, w) == ConnectsOf(steps, i, w)
  {
    hide Apply, Enabled;
    if i > 0 {
      OneTokenPerConnect(states, steps, i - 1, w);
      ArrivingStep(states[i-1], steps[i-1], w);
    }
  }

  // ---- where a task is sent ----

  /** Whenever the loop is about to send a task, it had looked the worker up and found the stream
      that worker had last connected with at that time. */
  lemma {:induction false} SentToTheKnownStream(states: seq<State>, steps: seq<Step>, i: nat) returns (k: nat)
    requires IsRun(states, steps) && states[0] == INITIAL && i < |states| && states[i].loop.Sending?
    ensures k < i && steps[k] == LookUp
    ensures var loop := states[i].loop;
            && states[k].loop == Matched(loop.task, loop.worker)
            && Connected(states, steps, k, loop.worker, loop.stream)
            && forall j :: k < j <= i ==> states[j].loop == loop
  {
    assert i > 0;
    SendingStep(states[i-1], steps[i-1]);
    hide Apply, Enabled, Connected, Knows;
    if steps[i-1] == LookUp {
      k := i - 1;
      StreamIff(states, steps, k, states[i].loop.worker, states[i].loop.stream);
    } else {
      k := SentToTheKnownStream(states, steps, i - 1);
    }
  }

  lemma SendingStep(s: State, step: Step)
    requires Enabled(s, step) && Apply(s, step).loop.Sending?
    ensures var loop := Apply(s, step).loop;
            if step == LookUp then s.loop == Matched(loop.task, loop.worker) && Knows(s, loop.worker, loop.stream)
            else s.loop == loop
  {
  }

  /** The task and the token that the loop will bring together next. */
  ghost predicate NextPair(s: State, task: Task, worker: WorkerID) {
    match s.loop
    case Receiving => s.pending != [] && s.available != [] && task == s.pending[0] && worker == s.available[0]
    case Holding(t) => s.available != [] && task == t && worker == s.available[0]
    case Matched(t, w) => task == t && worker == w
    case Sending(_, _, _) => false
    case Requeueing(t, remove) =>
      && |s.pending| < PENDING_BUFFER && s.available != [] && remove != Some(worker)
      && task == (s.pending + [t])[0] && worker == s.available[0]
    case Removing(w) =>
      && s.pending != [] && s.available != [] && w != worker
      && task == s.pending[0] && worker == s.available[0]
  }

  /** How many steps of the loop come before the send. */
  ghost function Ahead(loop: Loop): nat {
    match loop
    case Matched(_, _) => 1
    case Holding(_) => 2
    case Receiving => 3
    case Removing(_) => 4
    case Requeueing(_, _) => 5
    case Sending(_, _, _) => 0
  }

  lemma TowardsSend(s: State, task: Task, worker: WorkerID) returns (step: Step)
    requires NextPair(s, task, worker) && worker in s.streams
    ensures Enabled(s, step) && !step.SendOk?
    ensures var s' := Apply(s, step);
            && Ahead(s'.loop) < Ahead(s.loop) && s'.sent == s.sent
            && worker in s'.streams && s'.streams[worker] == s.streams[worker]
            && if s.loop.Matched? then s'.loop == Sending(task, worker, s.streams[worker])
               else NextPair(s', task, worker)
  {
    step := match s.loop
      case Receiving => TakeTask
      case Holding(_) => TakeToken
      case Matched(_, _) => LookUp
      case Requeueing(_, _) => Requeue
      case Removing(_) => RemoveFailed;
  }

  lemma SendNow(s: State)
    requires s.loop.Sending?
    ensures Enabled(s, SendOk) && Apply(s, SendOk).sent == s.sent + multiset{s.loop.task}
  {
  }

  ghost predicate Continues(states: seq<State>, steps: seq<Step>, states': seq<State>, steps': seq<Step>) {
    IsRun(states', steps') && states <= states' && steps <= steps'
  }

  lemma ContinuesOn(states: seq<State>, steps: seq<Step>, states': seq<State>, steps': seq<Step>,
                    states'': seq<State>, steps'': seq<Step>)
    requires Continues(states, steps, states', steps') && Continues(states', steps', states'', steps'')
    ensures Continues(states, steps, states'', steps'')
  {
  }

  lemma Prolong(states: seq<State>, steps: seq<Step>, step: Step) returns (states': seq<State>, steps': seq<Step>)
    requires IsRun(states, steps) && Enabled(Last(states), step)
    ensures Continues(states, steps, states', steps') && IsRun(states', steps')
    ensures |states'| == |steps'| + 1 && |steps'| == |steps| + 1
    ensures Last(states') == Apply(Last(states), step)
    ensures steps'[|steps'|-1] == step && states'[|steps'|-1] == Last(states)
  {
    states', steps' := states + [Apply(Last(states), step)], steps + [step];
  }

  /** From every state in which the next token belongs to a connected worker, the next task can be
      sent to that worker, on the stream it is connected with. */
  lemma {:induction false} TaskCanBeSent(states: seq<State>, steps: seq<Step>, task: Task, worker: WorkerID)
    returns (states': seq<State>, steps': seq<Step>)
    requires IsRun(states, steps) && NextPair(Last(states), task, worker) && worker in Last(states).streams
    ensures Continues(states, steps, states', steps') && |states'| == |steps'| + 1 && |steps'| > |steps|
    ensures steps'[|steps'|-1] == SendOk
    ensures states'[|steps'|-1].loop == Sending(task, worker, Last(states).streams[worker])
    ensures Last(states').sent == Last(states).sent + multiset{task}
    decreases Ahead(Last(states).loop)
  {
    var s := Last(states);
    var step := TowardsSend(s, task, worker);
    hide Apply, Enabled, NextPair, Ahead, IsRun, Continues;
    var states1, steps1 := Prolong(states, steps, step);
    if s.loop.Matched? {
      SendNow(Last(states1));
      states', steps' := Prolong(states1, steps1, SendOk);
    } else {
      states', steps' := TaskCanBeSent(states1, steps1, task, worker);
    }
    ContinuesOn(states, steps, states1, steps1, states', steps');
  }

  /** A terminal event can come at any time; with room it returns its worker's token, last in line,
      and changes nothing else. */
  lemma TerminalReturnsToken(s: State, w: WorkerID)
    ensures Enabled(s, Terminal(w))
    ensures Apply(s, Terminal(w)) == s.(terminals := s.terminals + 1,
                                        available := s.available + if |s.available| < 100 then [w] else [])
  {
    assert s.available + [] == s.available;
  }
}
