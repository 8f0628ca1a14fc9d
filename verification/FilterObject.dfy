/** The notification filter as the object the daemon and its timers share: every method
    is one locked section, proved against the steps of Filter. */
module FilterObject {
  import opened Filter
  import opened Visiting

  class NotificationFilter {
    const policy: Policy
    var held: map<string, Hold>
    var last: map<string, int>
    /** How many holds were made; stands for the identity of a hold's pointer. */
    var made: nat
    ghost var log: seq<Delivery>
    ghost var cancelled: multiset<nat>
    ghost var clock: int

    ghost function Now(): State
      reads this
    {
      State(held, last, made, log, cancelled, clock)
    }

    constructor (policy: Policy)
      ensures this.policy == policy && Now() == START
    {
      this.policy := policy;
      held, last, made, log, cancelled, clock := map[], map[], 0, [], multiset{}, 0;
    }

    method Limited(e: Event, now: int) returns (r: bool)
      ensures r <==> IsLimited(policy, Now(), e, now)
    {
      if policy.rateLimit <= 0 {
        return false;
      }
      return RateKey(e) in last && now - last[RateKey(e)] < policy.rateLimit;
    }

    method NoteDelivery(d: Delivery)
      modifies this`last, this`log, this`clock
      ensures Now() == Record(old(Now()), d)
    {
      last := last[RateKey(d.event) := d.at];
      log, clock := log + [d], d.at;
    }

    /** Whether e goes to the user now. */
    method Allow(e: Event, now: int) returns (ok: bool)
      modifies this
      ensures (Now(), ok) == AllowStep(policy, old(Now()), e, now)
    {
      if !policy.IsEnabled(e.etype) {
        clock := now;
        return false;
      }
      if e.etype == SecretNeeded {
        log, clock := log + [Direct(e, now)], now;
        return true;
      }
      clock := now;
      if policy.IsMuted(e.key) {
        return false;
      }
      var limited := Limited(e, now);
      if limited {
        return false;
      }
      if e.etype == Connected {
        if policy.debounce <= 0 {
          NoteDelivery(Direct(e, now));
          return true;
        }
        if e.key in held {
          return false;
        }
        held := held[e.key := Hold(made, e, now)];
        made := made + 1;
        return false;
      }
      if e.etype == Disconnected && e.key in held {
        cancelled := cancelled + multiset{held[e.key].id};
        held := held - {e.key};
        return false;
      }
      NoteDelivery(Direct(e, now));
      return true;
    }

    /** The timer callback of a hold: what it hands to the user, if anything. */
    method Release(key: string, id: nat, now: int) returns (ready: seq<Event>)
      modifies this
      ensures Now() == ReleaseStep(old(Now()), key, id, now)
      ensures ready == if key in old(held) && old(held)[key].id == id then [old(held)[key].event] else []
    {
      if key !in held || held[key].id != id {
        clock := now;
        return [];
      }
      var h := held[key];
      held := held - {key};
      NoteDelivery(Released(h.event, now, id));
      return [h.event];
    }

    /** The hold on key is handed over. */
    method Hand(key: string, now: int) returns (e: Event)
      requires key in held
      modifies this
      ensures Now() == ReleaseStep(old(Now()), key, old(held)[key].id, now)
      ensures held == old(held) - {key} && e == old(held)[key].event
    {
      var h := held[key];
      held := held - {key};
      NoteDelivery(Released(h.event, now, h.id));
      return h.event;
    }

    /** Everything still held goes to the user, in the order in which the map happens
        to be visited. */
    method Flush(now: int) returns (ready: seq<Event>, ghost order: seq<string>)
      modifies this
      ensures Visits(order, old(held).Keys) && held == map[]
      ensures Now() == FlushStep(old(Now()), order, now)
      ensures HeldEvents(old(held), order, ready)
    {
      hide FlushStep, ReleaseStep, Record, HeldEvents, Visits, Within;
      ghost var start := Now();
      FlushNothing(start, now);
      NoEvents(held);
      VisitNone(held.Keys, held.Keys);
      WithinItself(held);
      ready, order := [], [];
      clock := now;
      while held != map[]
        invariant Now() == FlushStep(start, order, now)
        invariant Within(held, start.held)
        invariant Visits(order, start.held.Keys - held.Keys)
        invariant HeldEvents(start.held, order, ready)
        decreases |held|
      {
        var key :| key in held;
        ghost var todo := held;
        var e := Hand(key, now);
        OneLess(todo, start.held, key);
        VisitStep(order, start.held.Keys, todo.Keys, key);
        FlushMore(start, order, key, now);
        OneEvent(start.held, order, ready, key);
        ready, order := ready + [e], order + [key];
      }
      assert start.held.Keys - {} == start.held.Keys;
    }

    method Pending() returns (n: nat)
      ensures n == |held|
    {
      return |held|;
    }
  }

  lemma {:induction false} FlushNothing(s: State, now: int)
    ensures FlushStep(s, [], now) == s.(clock := now)
  {
  }

  /** m is part of all. */
  ghost predicate Within(m: map<string, Hold>, all: map<string, Hold>) {
    m.Keys <= all.Keys && forall key :: key in m ==> m[key] == all[key]
  }

  lemma {:induction false} WithinItself(m: map<string, Hold>)
    ensures Within(m, m)
  {
  }

  lemma {:induction false} OneLess(m: map<string, Hold>, all: map<string, Hold>, key: string)
    requires Within(m, all) && key in m
    ensures Within(m - {key}, all) && (m - {key}).Keys == m.Keys - {key} && |m - {key}| < |m|
    ensures key in all && m[key] == all[key]
  {
    assert |m - {key}| == |(m - {key}).Keys| && |m| == |m.Keys|;
  }

  /** ready holds the events held under the keys of order. */
  ghost predicate HeldEvents(held: map<string, Hold>, order: seq<string>, ready: seq<Event>) {
    |ready| == |order| && forall i :: 0 <= i < |order| ==> order[i] in held && ready[i] == held[order[i]].event
  }

  lemma {:induction false} NoEvents(held: map<string, Hold>)
    ensures HeldEvents(held, [], [])
  {
  }

  lemma {:induction false} OneEvent(held: map<string, Hold>, order: seq<string>, ready: seq<Event>, key: string)
    requires HeldEvents(held, order, ready) && key in held
    ensures HeldEvents(held, order + [key], ready + [held[key].event])
  {
  }

  lemma {:induction false} FlushMore(s: State, order: seq<string>, key: string, now: int)
    ensures var t := FlushStep(s, order, now);
      FlushStep(s, order + [key], now) == if key in t.held then ReleaseStep(t, key, t.held[key].id, now) else t
  {
    assert (order + [key])[..|order|] == order;
  }
}
