/** The in-memory event bridge and the user-scoped hub. */
module EventBus {
  import opened Models
  import opened Transport

  const SUBSCRIBER_BUFFER := 64

  /** Sends `event` to every channel of `targets` that has room. */
  method Broadcast(targets: set<Channel<TaskEvent>>, event: TaskEvent)
    requires forall ch :: ch in targets ==> !ch.closed && ch.capacity == SUBSCRIBER_BUFFER
    modifies targets
    ensures forall ch :: ch in targets ==>
              ch.buffer == Offer(old(ch.buffer), SUBSCRIBER_BUFFER, event) && ch.closed == old(ch.closed)
  {
    var left := targets;
    while left != {}
      invariant left <= targets
      invariant forall ch :: ch in targets ==> !ch.closed
      invariant forall ch :: ch in left ==> ch.buffer == old(ch.buffer)
      invariant forall ch :: ch in targets - left ==> ch.buffer == Offer(old(ch.buffer), SUBSCRIBER_BUFFER, event)
    {
      var ch :| ch in left;
      var sent := ch.Send(event);
      left := left - {ch};
    }
  }

  class MemoryBridge {
    var live: set<Channel<TaskEvent>>
    /** Channels whose goroutine has deleted them and has yet to close them. */
    ghost var closing: set<Channel<TaskEvent>>

    /** Holds between any two locked sections, in every interleaving of publishers, subscribers
        and cancellations: whatever Publish may send to is open. */
    ghost predicate Valid()
      reads this, live, closing
    {
      && live !! closing
      && (forall ch :: ch in live ==> !ch.closed && ch.capacity == SUBSCRIBER_BUFFER)
      && (forall ch :: ch in closing ==> !ch.closed)
    }

    constructor ()
      ensures Valid() && live == {} && closing == {}
    {
      live, closing := {}, {};
    }

    method Publish(event: TaskEvent)
      requires Valid()
      modifies live
      ensures Valid()
      ensures forall ch :: ch in live ==> ch.buffer == Offer(old(ch.buffer), SUBSCRIBER_BUFFER, event)
    {
      Broadcast(live, event);
    }

    method Subscribe() returns (ch: Channel<TaskEvent>)
      requires Valid()
      modifies this
      ensures Valid() && fresh(ch) && ch.buffer == []
      ensures live == old(live) + {ch} && closing == old(closing)
    {
      ch := new Channel<TaskEvent>(SUBSCRIBER_BUFFER);
      live := live + {ch};
    }

    /** First half of the cancellation goroutine, under the lock. */
    method Remove(ch: Channel<TaskEvent>)
      requires Valid() && ch in live
      modifies this
      ensures Valid() && live == old(live) - {ch} && closing == old(closing) + {ch}
    {
      live := live - {ch};
      closing := closing + {ch};
    }

    /** Second half, after the lock is released. */
    method Close(ch: Channel<TaskEvent>)
      requires Valid() && ch in closing
      modifies this`closing, ch`closed
      ensures Valid() && ch.closed && closing == old(closing) - {ch}
    {
      ch.closed := true;
      closing := closing - {ch};
    }
  }

  type Subscriptions = map<UserID, set<Channel<TaskEvent>>>

  function SubscribersOf(subs: Subscriptions, user: UserID): set<Channel<TaskEvent>> {
    if user in subs then subs[user] else {}
  }

  function WithSubscriber(subs: Subscriptions, user: UserID, ch: Channel<TaskEvent>): Subscriptions {
    subs[user := SubscribersOf(subs, user) + {ch}]
  }

  /** Deleting the last subscriber of a user deletes the user. */
  function WithoutSubscriber(subs: Subscriptions, user: UserID, ch: Channel<TaskEvent>): Subscriptions {
    var rest := SubscribersOf(subs, user) - {ch};
    if rest == {} then subs - {user} else subs[user := rest]
  }

  ghost predicate Tidy(subs: Subscriptions) {
    && (forall user :: user in subs ==> subs[user] != {})
    && (forall a, b :: a in subs && b in subs && a != b ==> subs[a] !! subs[b])
  }

  /** The unsubscribe closure undoes Subscribe exactly, and touches no other user. */
  lemma UnsubscribeUndoes(subs: Subscriptions, user: UserID, ch: Channel<TaskEvent>)
    requires Tidy(subs) && ch !in SubscribersOf(subs, user)
    ensures WithoutSubscriber(WithSubscriber(subs, user, ch), user, ch) == subs
    ensures forall other :: other != user ==>
              SubscribersOf(WithSubscriber(subs, user, ch), other) == SubscribersOf(subs, other)
  {
    assert SubscribersOf(WithSubscriber(subs, user, ch), user) - {ch} == SubscribersOf(subs, user);
    assert user !in subs ==> WithSubscriber(subs, user, ch) - {user} == subs;
  }

  /** Who is subscribed for whom after subscribing and after unsubscribing. */
  lemma SubscribersExactly(subs: Subscriptions, user: UserID, ch: Channel<TaskEvent>, other: UserID)
    ensures SubscribersOf(WithSubscriber(subs, user, ch), other) ==
              (if other in subs then subs[other] else {}) + (if other == user then {ch} else {})
    ensures SubscribersOf(WithoutSubscriber(subs, user, ch), other) ==
              (if other in subs then subs[other] else {}) - (if other == user then {ch} else {})
    ensures user in WithoutSubscriber(subs, user, ch) ==> WithoutSubscriber(subs, user, ch)[user] != {}
  {
  }

  lemma TidyWith(subs: Subscriptions, user: UserID, ch: Channel<TaskEvent>)
    requires Tidy(subs) && forall other :: other in subs ==> ch !in subs[other]
    ensures Tidy(WithSubscriber(subs, user, ch))
  {
  }

  lemma TidyWithout(subs: Subscriptions, user: UserID, ch: Channel<TaskEvent>)
    requires Tidy(subs)
    ensures Tidy(WithoutSubscriber(subs, user, ch))
  {
  }

  lemma WithMembers(subs: Subscriptions, user: UserID, ch: Channel<TaskEvent>)
    ensures var after := WithSubscriber(subs, user, ch);
            forall u, x :: u in after && x in after[u] ==> x == ch || (u in subs && x in subs[u])
  {
  }

  lemma WithoutMembers(subs: Subscriptions, user: UserID, ch: Channel<TaskEvent>)
    ensures var after := WithoutSubscriber(subs, user, ch);
            forall u, x :: u in after && x in after[u] ==> u in subs && x in subs[u]
  {
  }

  class Hub {
    var userSubs: Subscriptions

    ghost predicate Valid()
      reads this, set user, ch | user in userSubs && ch in userSubs[user] :: ch
    {
      && Tidy(userSubs)
      && (forall user, ch :: user in userSubs && ch in userSubs[user] ==>
            !ch.closed && ch.capacity == SUBSCRIBER_BUFFER)
    }

    constructor ()
      ensures Valid() && userSubs == map[]
    {
      userSubs := map[];
    }

    method Subscribe(user: UserID) returns (ch: Channel<TaskEvent>)
      requires Valid()
      modifies this
      ensures Valid() && fresh(ch) && ch.buffer == []
      ensures userSubs == WithSubscriber(old(userSubs), user, ch)
    {
      ch := new Channel<TaskEvent>(SUBSCRIBER_BUFFER);
      TidyWith(userSubs, user, ch);
      WithMembers(userSubs, user, ch);
      ghost var after := WithSubscriber(userSubs, user, ch);
      if user !in userSubs {
        userSubs := userSubs[user := {}];
      }
      userSubs := userSubs[user := userSubs[user] + {ch}];
      assert userSubs == after;
      hide Tidy, WithSubscriber;
    }

    method Unsubscribe(user: UserID, ch: Channel<TaskEvent>)
      requires Valid()
      modifies this
      ensures Valid()
      ensures userSubs == WithoutSubscriber(old(userSubs), user, ch)
    {
      TidyWithout(userSubs, user, ch);
      WithoutMembers(userSubs, user, ch);
      ghost var after := WithoutSubscriber(userSubs, user, ch);
      if user in userSubs {
        userSubs := userSubs[user := userSubs[user] - {ch}];
      }
      if user !in userSubs || userSubs[user] == {} {
        userSubs := userSubs - {user};
      }
      assert userSubs == after;
      hide Tidy, WithoutSubscriber;
    }

    /** Only the subscribers of the event's user receive it. */
    method Publish(event: TaskEvent)
      requires Valid()
      modifies SubscribersOf(userSubs, event.userID)
      ensures Valid()
      ensures forall ch :: ch in SubscribersOf(userSubs, event.userID) ==>
                ch.buffer == Offer(old(ch.buffer), SUBSCRIBER_BUFFER, event)
      ensures forall user, ch :: user in userSubs && user != event.userID && ch in userSubs[user] ==>
                ch.buffer == old(ch.buffer)
    {
      Broadcast(SubscribersOf(userSubs, event.userID), event);
    }
  }
}
