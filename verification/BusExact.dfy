/** What a subscriber of the bus of internal/daemon/bus.go has in its channel, read off the
    order of publishes and receives alone. */
module BusExact {
  import opened Bus

  /** The items that found fewer than 128 unread, and how many of them were received. */
  datatype Account<T> = Account(accepted: seq<T>, taken: nat)

  /** The account of k's channel: an item published while k is subscribed goes in when
      fewer than 128 are unread; a receive takes the oldest unread one, if there is one. */
  ghost function AccountOf<K, T>(acts: seq<Action<K, T>>, k: K): (r: Account<T>)
    ensures r.taken <= |r.accepted|
  {
    if acts == [] then Account([], 0)
    else
      var before, last := acts[..|acts| - 1], acts[|acts| - 1];
      var n := AccountOf(before, k);
      if last.Publish? && Subscribed(before, k) && |n.accepted| - n.taken < 128 then Account(n.accepted + [last.item], n.taken)
      else if last == Receive(k) && n.taken < |n.accepted| then Account(n.accepted, n.taken + 1)
      else n
  }

  /** s is the subscriber this account is of. */
  ghost predicate Shows<T>(s: Sub<T>, n: Account<T>, due: nat) {
    && n.taken <= |n.accepted|
    && s.got == n.accepted[..n.taken] && s.buffer == n.accepted[n.taken..] && s.dropped == due - |n.accepted|
  }

  ghost predicate Accounted<K, T>(acts: seq<Action<K, T>>, k: K) {
    if k in Run(acts).subs then Shows(Run(acts).subs[k], AccountOf(acts, k), |Due(acts, k)|)
    else AccountOf(acts, k) == Account([], 0)
  }

  lemma {:induction false} OfferShows<T>(s: Sub<T>, n: Account<T>, due: nat, item: T)
    requires Shows(s, n, due)
    ensures Shows(Offer(s, item), if |n.accepted| - n.taken < 128 then Account(n.accepted + [item], n.taken) else n, due + 1)
  {
    assert (n.accepted + [item])[n.taken..] == n.accepted[n.taken..] + [item];
    assert (n.accepted + [item])[..n.taken] == n.accepted[..n.taken];
  }

  lemma {:induction false} TakeShows<T>(s: Sub<T>, n: Account<T>, due: nat)
    requires Shows(s, n, due)
    ensures Shows(Take(s), if n.taken < |n.accepted| then Account(n.accepted, n.taken + 1) else n, due)
  {
    if n.taken < |n.accepted| {
      assert n.accepted[n.taken..][1..] == n.accepted[n.taken + 1..];
      assert n.accepted[..n.taken + 1] == n.accepted[..n.taken] + [n.accepted[n.taken]];
    }
  }

  lemma {:induction false} StepShows<K, T>(s: Sub<T>, a: Action<K, T>, k: K, n: Account<T>, due: nat, subscribed: bool)
    requires Shows(s, n, due) && a != Subscribe(k) && (s.listed <==> subscribed)
    ensures Shows(SubStep(s, a, k),
      if a.Publish? && subscribed && |n.accepted| - n.taken < 128 then Account(n.accepted + [a.item], n.taken)
      else if a == Receive(k) && n.taken < |n.accepted| then Account(n.accepted, n.taken + 1) else n,
      if a.Publish? && subscribed then due + 1 else due)
  {
    hide Offer, Take;
    TakeShows(s, n, due);
    if a.Publish? {
      OfferShows(s, n, due, a.item);
    }
  }

  /** A subscriber, exactly: it received the oldest of the accepted items, the rest of them
      wait in its channel in order, and what it lost are the others that were due. */
  lemma {:induction false} ItemsExactly<K, T>(acts: seq<Action<K, T>>, k: K)
    requires NewEachTime(acts)
    ensures Accounted(acts, k)
  {
    if acts != [] {
      hide Step, Subscribed, SubStep, Within, Shows;
      var before, last := acts[..|acts| - 1], acts[|acts| - 1];
      ItemsExactly(before, k);
      Conservation(before, k);
      StepAt(Run(before), last, k);
      assert Run(acts) == Step(Run(before), last);
      assert |Due(acts, k)| == if last.Publish? && Subscribed(before, k) then |Due(before, k)| + 1 else |Due(before, k)|;
      if last == Subscribe(k) {
        FreshShows<T>();
      } else if k in Run(before).subs {
        hide Run, NewEachTime, Due;
        StepShows(Run(before).subs[k], last, k, AccountOf(before, k), |Due(before, k)|, Subscribed(before, k));
      }
    }
  }

  lemma {:induction false} FreshShows<T>()
    ensures Shows(Fresh<T>(), Account([], 0), 0)
  {
  }

  /** How far the cancel of k's subscriber has come since it was made. */
  ghost function CancelSince<K, T>(acts: seq<Action<K, T>>, k: K): Cancelling {
    if acts == [] then NotYet
    else
      var last := acts[|acts| - 1];
      if last == Subscribe(k) then NotYet
      else
        var was := CancelSince(acts[..|acts| - 1], k);
        if last == CancelUnlist(k) && was == NotYet then Unlisted
        else if last == CancelClose(k) && was == Unlisted then Done
        else was
  }

  /** The channel is closed exactly when the cancel is through, and listed exactly until it began. */
  lemma {:induction false} ClosedExactly<K, T>(acts: seq<Action<K, T>>, k: K)
    requires k in Run(acts).subs
    ensures var s := Run(acts).subs[k];
      && s.closed == (CancelSince(acts, k) == Done) && s.listed == (CancelSince(acts, k) == NotYet)
      && s.cancel == CancelSince(acts, k)
  {
    var before, last := acts[..|acts| - 1], acts[|acts| - 1];
    StepAt(Run(before), last, k);
    assert Run(acts) == Step(Run(before), last);
    hide Step;
    if k in Run(before).subs {
      ClosedExactly(before, k);
    }
  }
}
