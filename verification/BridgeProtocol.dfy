/** The event bridge as a step machine, for any number of channels. A publisher holds the lock and
    sends to one channel at a time; the goroutine of a subscription removes its channel under the
    lock and closes it after; readers and closings come in between at any point. */
module BridgeProtocol {
  import opened Models
  import opened Transport
  import opened EventBus
  import opened Subsequences

  type ChannelID = nat

  /** Where the goroutine that ends a subscription stands. */
  datatype Goroutine = Waiting | Removed | Done

  /** `accepted` is everything the channel ever took. */
  datatype Subscription = Subscription(
    goroutine: Goroutine, closed: bool, buffer: seq<TaskEvent>, accepted: seq<TaskEvent>)

  datatype Lock = Free | Publishing(event: TaskEvent, left: set<ChannelID>)

  datatype State = State(
    live: set<ChannelID>,
    subs: map<ChannelID, Subscription>,
    lock: Lock,
    published: seq<TaskEvent>)   // history

  const INITIAL := State({}, map[], Free, [])

  datatype Step =
    | Subscribe(ch: ChannelID)
    | BeginPublish(event: TaskEvent)
    | Send(ch: ChannelID)            // a select with a default branch
    | EndPublish
    | Remove(ch: ChannelID)
    | Close(ch: ChannelID)
    | Receive(ch: ChannelID)

  predicate Enabled(s: State, step: Step) {
    match step
    case Subscribe(ch) => s.lock.Free? && ch !in s.subs
    case BeginPublish(_) => s.lock.Free?
    case Send(ch) => s.lock.Publishing? && ch in s.lock.left && ch in s.subs
    case EndPublish => s.lock.Publishing? && s.lock.left == {}
    case Remove(ch) => s.lock.Free? && ch in s.subs && s.subs[ch].goroutine.Waiting?
    case Close(ch) => ch in s.subs && s.subs[ch].goroutine.Removed?
    case Receive(ch) => ch in s.subs && s.subs[ch].buffer != []
  }

  /** A channel after an event was offered to it. */
  function Offered(sub: Subscription, event: TaskEvent): Subscription {
    sub.(buffer := Offer(sub.buffer, SUBSCRIBER_BUFFER, event),
         accepted := if |sub.buffer| < SUBSCRIBER_BUFFER then sub.accepted + [event] else sub.accepted)
  }

  function Apply(s: State, step: Step): State
    requires Enabled(s, step)
  {
    match step
    case Subscribe(ch) =>
      s.(live := s.live + {ch}, subs := s.subs[ch := Subscription(Waiting, false, [], [])])
    case BeginPublish(event) => s.(lock := Publishing(event, s.live), published := s.published + [event])
    case Send(ch) =>
      s.(lock := s.lock.(left := s.lock.left - {ch}), subs := s.subs[ch := Offered(s.subs[ch], s.lock.event)])
    case EndPublish => s.(lock := Free)
    case Remove(ch) => s.(live := s.live - {ch}, subs := s.subs[ch := s.subs[ch].(goroutine := Removed)])
    case Close(ch) => s.(subs := s.subs[ch := s.subs[ch].(goroutine := Done, closed := true)])
    case Receive(ch) => s.(subs := s.subs[ch := s.subs[ch].(buffer := s.subs[ch].buffer[1..])])
  }

  ghost predicate IsRun(states: seq<State>, steps: seq<Step>) {
    && |states| == |steps| + 1 && states[0] == INITIAL
    && forall i :: 0 <= i < |steps| ==> Enabled(states[i], steps[i]) && states[i+1] == Apply(states[i], steps[i])
  }

  /** What was published before a channel's turn: without the event still to be offered to it. */
  ghost function PublishedTo(s: State, ch: ChannelID): seq<TaskEvent> {
    if s.lock.Publishing? && ch in s.lock.left && s.published != []
    then s.published[..|s.published|-1] else s.published
  }

  ghost predicate SubOk(s: State, ch: ChannelID)
    requires ch in s.subs
  {
    && (s.subs[ch].closed <==> s.subs[ch].goroutine.Done?)
    && (ch in s.live <==> s.subs[ch].goroutine.Waiting?)
    && |s.subs[ch].buffer| <= SUBSCRIBER_BUFFER
    && InOrder(s, ch)
  }

  /** Whoever is still to be sent to is live, and whoever is live is open. */
  ghost predicate Inv(s: State) {
    && s.live <= s.subs.Keys
    && (s.lock.Publishing? ==>
          s.lock.left <= s.live && s.published != [] && s.published[|s.published|-1] == s.lock.event)
    && (forall ch :: ch in s.subs ==> SubOk(s, ch))
  }

  ghost predicate InOrder(s: State, ch: ChannelID) {
    ch in s.subs && Subseq(s.subs[ch].accepted, PublishedTo(s, ch))
  }

  lemma OrderBegin(s: State, event: TaskEvent, ch: ChannelID)
    requires Enabled(s, BeginPublish(event)) && InOrder(s, ch)
    ensures InOrder(Apply(s, BeginPublish(event)), ch)
  {
    hide Subseq;
    assert (s.published + [event])[..|s.published|] == s.published;
    SubseqGrow(s.subs[ch].accepted, s.published, event);
  }

  /** The channel takes the event or drops it; either way it was offered all that was published. */
  lemma OrderSend(s: State, to: ChannelID, ch: ChannelID)
    requires Inv(s) && Enabled(s, Send(to)) && InOrder(s, ch)
    ensures InOrder(Apply(s, Send(to)), ch)
  {
    hide Subseq, SubOk;
    if ch == to {
      var before := s.published[..|s.published|-1];
      assert s.published == before + [s.lock.event];
      SubseqGrow(s.subs[ch].accepted, before, s.lock.event);
    }
  }

  lemma OrderKept(s: State, step: Step, ch: ChannelID)
    requires Inv(s) && Enabled(s, step) && InOrder(s, ch)
    ensures InOrder(Apply(s, step), ch)
  {
    hide Subseq, Inv;
    match step
    case BeginPublish(event) =>
      hide InOrder;
      OrderBegin(s, event, ch);
    case Send(to) =>
      hide InOrder;
      OrderSend(s, to, ch);
    case _ =>
  }

  lemma EmptyInOrder(s: State, ch: ChannelID)
    requires ch in s.subs && s.subs[ch].accepted == []
    ensures InOrder(s, ch)
  {
  }

  lemma InvStep(s: State, step: Step)
    requires Inv(s) && Enabled(s, step)
    ensures Inv(Apply(s, step))
  {
    hide InOrder;
    var s' := Apply(s, step);
    forall ch | ch in s'.subs ensures SubOk(s', ch) {
      if ch in s.subs {
        assert SubOk(s, ch);
        OrderKept(s, step, ch);
      } else {
        EmptyInOrder(s', ch);
      }
    }
  }

  lemma {:induction false} RunInv(states: seq<State>, steps: seq<Step>, i: nat)
    requires IsRun(states, steps) && i < |states|
    ensures Inv(states[i])
  {
    hide Apply, Enabled;
    if i > 0 {
      hide Inv;
      RunInv(states, steps, i - 1);
      InvStep(states[i-1], steps[i-1]);
    }
  }

  /** In every interleaving of any number of subscriptions: every send is to a live channel that is
      open, whatever was removed or closed since the publisher took the lock; no channel is closed
      twice; and none holds more than its capacity. */
  lemma NoSendOnClosedChannel(states: seq<State>, steps: seq<Step>, i: nat)
    requires IsRun(states, steps) && i < |steps|
    ensures var s := states[i];
            && (forall ch :: ch in s.live ==> ch in s.subs && !s.subs[ch].closed)
            && (forall ch :: ch in s.subs ==> |s.subs[ch].buffer| <= SUBSCRIBER_BUFFER)
            && (steps[i].Send? ==> steps[i].ch in s.live)
            && (steps[i].Close? ==> steps[i].ch in s.subs && !s.subs[steps[i].ch].closed)
  {
    RunInv(states, steps, i);
    var s := states[i];
    assert Enabled(s, steps[i]);
    forall ch | ch in s.subs
      ensures (ch in s.live ==> !s.subs[ch].closed) && |s.subs[ch].buffer| <= SUBSCRIBER_BUFFER
    {
      assert SubOk(s, ch);
    }
    if steps[i].Close? { assert SubOk(s, steps[i].ch); }
  }

  /** What any channel accepted is an in-order subsequence of what was published. */
  lemma AcceptedInOrder(states: seq<State>, steps: seq<Step>, i: nat, ch: ChannelID)
    requires IsRun(states, steps) && i < |states| && ch in states[i].subs
    ensures Subseq(states[i].subs[ch].accepted, states[i].published)
  {
    RunInv(states, steps, i);
    var s := states[i];
    assert SubOk(s, ch);
    if PublishedTo(s, ch) != s.published {
      assert s.published == s.published[..|s.published|-1] + [s.lock.event];
      SubseqGrow(s.subs[ch].accepted, PublishedTo(s, ch), s.lock.event);
    }
  }

  // ---- what the steps say ----

  ghost predicate Happened(steps: seq<Step>, n: nat, step: Step)
    requires n <= |steps|
  {
    exists k :: 0 <= k < n && steps[k] == step
  }

  lemma HappenedNext(steps: seq<Step>, n: nat, step: Step)
    requires n < |steps|
    ensures Happened(steps, n + 1, step) <==> Happened(steps, n, step) || steps[n] == step
  {
  }

  ghost function Receives(steps: seq<Step>, n: nat, ch: ChannelID): nat
    requires n <= |steps|
  {
    if n == 0 then 0 else Receives(steps, n - 1, ch) + if steps[n-1] == Receive(ch) then 1 else 0
  }

  /** What waits in a channel is the latest part of what it accepted. */
  ghost predicate BufferedLast(sub: Subscription) {
    |sub.buffer| <= |sub.accepted| && sub.buffer == sub.accepted[|sub.accepted| - |sub.buffer|..]
  }

  ghost predicate History(s: State, steps: seq<Step>, n: nat, ch: ChannelID)
    requires n <= |steps|
  {
    && (ch in s.subs <==> Happened(steps, n, Subscribe(ch)))
    && (ch in s.live <==> Happened(steps, n, Subscribe(ch)) && !Happened(steps, n, Remove(ch)))
    && (ch in s.subs ==>
          && (s.subs[ch].goroutine.Waiting? <==> !Happened(steps, n, Remove(ch)))
          && (s.subs[ch].closed <==> Happened(steps, n, Close(ch)))
          && (s.subs[ch].goroutine.Done? <==> Happened(steps, n, Close(ch)))
          && BufferedLast(s.subs[ch])
          && |s.subs[ch].accepted| == |s.subs[ch].buffer| + Receives(steps, n, ch))
    && (ch !in s.subs ==>
          !Happened(steps, n, Remove(ch)) && !Happened(steps, n, Close(ch)) && Receives(steps, n, ch) == 0)
  }

  lemma OfferedLast(sub: Subscription, event: TaskEvent)
    requires BufferedLast(sub)
    ensures BufferedLast(Offered(sub, event))
    ensures |Offered(sub, event).accepted| - |Offered(sub, event).buffer| == |sub.accepted| - |sub.buffer|
  {
  }

  lemma ReceivedLast(sub: Subscription)
    requires BufferedLast(sub) && sub.buffer != []
    ensures BufferedLast(sub.(buffer := sub.buffer[1..]))
  {
  }

  lemma SameLast(sub: Subscription, sub': Subscription)
    requires BufferedLast(sub) && sub'.buffer == sub.buffer && sub'.accepted == sub.accepted
    ensures BufferedLast(sub')
  {
  }

  /** What one step does to channel `ch`. */
  ghost predicate Effect(s: State, step: Step, s': State, ch: ChannelID) {
    && (ch in s'.subs <==> ch in s.subs || step == Subscribe(ch))
    && (ch in s'.live <==> (ch in s.live || step == Subscribe(ch)) && step != Remove(ch))
    && (ch in s.subs ==>
          && step != Subscribe(ch)
          && (s'.subs[ch].goroutine.Waiting? <==> s.subs[ch].goroutine.Waiting? && step != Remove(ch))
          && (s'.subs[ch].closed <==> s.subs[ch].closed || step == Close(ch))
          && (s'.subs[ch].goroutine.Done? <==> s.subs[ch].goroutine.Done? || step == Close(ch))
          && (BufferedLast(s.subs[ch]) ==> BufferedLast(s'.subs[ch]))
          && |s'.subs[ch].accepted| - |s'.subs[ch].buffer| ==
               |s.subs[ch].accepted| - |s.subs[ch].buffer| + if step == Receive(ch) then 1 else 0)
    && (ch !in s.subs ==>
          && ch !in s.live && step != Remove(ch) && step != Close(ch) && step != Receive(ch)
          && (ch in s'.subs ==> s'.subs[ch] == Subscription(Waiting, false, [], [])))
  }

  lemma EffectOf(s: State, step: Step, ch: ChannelID)
    requires Enabled(s, step) && s.live <= s.subs.Keys
    requires ch in s.subs ==> (ch in s.live <==> s.subs[ch].goroutine.Waiting?) && BufferedLast(s.subs[ch])
    ensures Effect(s, step, Apply(s, step), ch)
  {
    if step == Send(ch) {
      OfferedLast(s.subs[ch], s.lock.event);
    } else if step == Receive(ch) {
      ReceivedLast(s.subs[ch]);
    } else if ch in s.subs {
      SameLast(s.subs[ch], Apply(s, step).subs[ch]);
    }
    hide Offered, BufferedLast;
  }

  lemma HistoryNext(s: State, s': State, steps: seq<Step>, n: nat, ch: ChannelID)
    requires n < |steps| && History(s, steps, n, ch) && Effect(s, steps[n], s', ch)
    ensures History(s', steps, n + 1, ch)
  {
    hide Happened;
    HappenedNext(steps, n, Subscribe(ch));
    HappenedNext(steps, n, Remove(ch));
    HappenedNext(steps, n, Close(ch));
  }

  /** In every run a channel is live exactly from its subscription to its removal and closed exactly
      from its closing on; and its reader has read as many of the events it accepted as it made
      reads, the oldest first: the others wait in the channel, in order. */
  lemma {:induction false} LiveIff(states: seq<State>, steps: seq<Step>, i: nat, ch: ChannelID)
    requires IsRun(states, steps) && i < |states|
    ensures History(states[i], steps, i, ch)
  {
    hide Apply, Enabled;
    if i > 0 {
      LiveIff(states, steps, i - 1, ch);
      RunInv(states, steps, i - 1);
      if ch in states[i-1].subs { assert SubOk(states[i-1], ch); }
      hide SubOk, Happened, BufferedLast;
      EffectOf(states[i-1], steps[i-1], ch);
      HistoryNext(states[i-1], states[i], steps, i - 1, ch);
    }
  }

  // ---- nobody live is left out ----

  /** The channel was offered an event and had no room for it. */
  predicate Drops(s: State, step: Step, ch: ChannelID) {
    step == Send(ch) && ch in s.subs && |s.subs[ch].buffer| >= SUBSCRIBER_BUFFER
  }

  ghost function DropsBetween(states: seq<State>, steps: seq<Step>, i: nat, j: nat, ch: ChannelID): (n: nat)
    requires i <= j <= |steps| < |states|
    ensures n == 0 <==> forall k :: i <= k < j ==> !Drops(states[k], steps[k], ch)
    decreases j
  {
    if i == j then 0
    else DropsBetween(states, steps, i, j - 1, ch) + if Drops(states[j-1], steps[j-1], ch) then 1 else 0
  }

  ghost function Missing(s: State, ch: ChannelID): int
    requires ch in s.subs
  {
    |PublishedTo(s, ch)| - |s.subs[ch].accepted|
  }

  lemma MissingStep(s: State, step: Step, ch: ChannelID)
    requires Inv(s) && Enabled(s, step) && ch in s.subs && ch in Apply(s, step).live
    ensures ch in s.live && ch in Apply(s, step).subs
    ensures Missing(Apply(s, step), ch) == Missing(s, ch) + if Drops(s, step, ch) then 1 else 0
  {
    hide InOrder;
    assert SubOk(s, ch);
  }

  /** In every run a channel that stays live accepts every event published, but for those that were
      offered to it when it was full: exactly as many are missing. */
  lemma {:induction false} EveryLiveChannelIsOffered(
      states: seq<State>, steps: seq<Step>, i: nat, j: nat, ch: ChannelID)
    requires IsRun(states, steps) && i <= j < |states| && ch in states[i].subs && ch in states[j].live
    ensures ch in states[i].live && ch in states[j].subs
    ensures Missing(states[j], ch) == Missing(states[i], ch) + DropsBetween(states, steps, i, j, ch)
    decreases j
  {
    RunInv(states, steps, j);
    if i < j {
      RunInv(states, steps, j - 1);
      StaysSubscribed(states, steps, i, j - 1, ch);
      hide Inv, Apply, Enabled, Missing, Drops;
      MissingStep(states[j-1], steps[j-1], ch);
      EveryLiveChannelIsOffered(states, steps, i, j - 1, ch);
    }
  }

  lemma {:induction false} StaysSubscribed(states: seq<State>, steps: seq<Step>, i: nat, j: nat, ch: ChannelID)
    requires IsRun(states, steps) && i <= j < |states| && ch in states[i].subs
    ensures ch in states[j].subs
    decreases j
  {
    if i < j {
      StaysSubscribed(states, steps, i, j - 1, ch);
      assert states[j] == Apply(states[j-1], steps[j-1]);
    }
  }

  /** The state with one channel and at most one event. */
  function Stage(ch: ChannelID, live: bool, sub: Subscription, lock: Lock, published: seq<TaskEvent>): State {
    State(if live then {ch} else {}, map[ch := sub], lock, published)
  }

  /** A whole life: a channel is subscribed, an event published, sent and read, and then the channel
      is removed and closed. */
  lemma WholeLife(ch: ChannelID, event: TaskEvent) returns (states: seq<State>, steps: seq<Step>)
    ensures IsRun(states, steps)
    ensures states[|steps|] == State({}, map[ch := Subscription(Done, true, [], [event])], Free, [event])
  {
    var s1, s4 := Published(ch, event);
    assert [event][1..] == [];
    var s5 := Apply(s4, Receive(ch));
    assert s5 == Stage(ch, true, Subscription(Waiting, false, [], [event]), Free, [event]);
    var s6 := Apply(s5, Remove(ch));
    assert s6 == Stage(ch, false, Subscription(Removed, false, [], [event]), Free, [event]);
    var s7 := Apply(s6, Close(ch));
    assert s7 == Stage(ch, false, Subscription(Done, true, [], [event]), Free, [event]);
    var s2, s3 := Apply(s1, BeginPublish(event)), Apply(Apply(s1, BeginPublish(event)), Send(ch));
    states := [INITIAL, s1, s2, s3, s4, s5, s6, s7];
    steps := [Subscribe(ch), BeginPublish(event), Send(ch), EndPublish, Receive(ch), Remove(ch), Close(ch)];
    hide Offered;
  }

  lemma Published(ch: ChannelID, event: TaskEvent) returns (s1: State, s4: State)
    ensures s1 == Apply(INITIAL, Subscribe(ch)) && Enabled(s1, BeginPublish(event))
    ensures var s2 := Apply(s1, BeginPublish(event));
            && Enabled(s2, Send(ch))
            && Enabled(Apply(s2, Send(ch)), EndPublish) && s4 == Apply(Apply(s2, Send(ch)), EndPublish)
    ensures s4 == Stage(ch, true, Subscription(Waiting, false, [event], [event]), Free, [event])
  {
    s1 := Apply(INITIAL, Subscribe(ch));
    assert s1 == Stage(ch, true, Subscription(Waiting, false, [], []), Free, []);
    var s2 := Apply(s1, BeginPublish(event));
    assert s2 == Stage(ch, true, Subscription(Waiting, false, [], []), Publishing(event, {ch}), [event]);
    assert Offered(Subscription(Waiting, false, [], []), event) == Subscription(Waiting, false, [event], [event]);
    var s3 := Apply(s2, Send(ch));
    assert s3 == Stage(ch, true, Subscription(Waiting, false, [event], [event]), Publishing(event, {}), [event]);
    s4 := Apply(s3, EndPublish);
  }
}
