/** Over every interleaving of events, timers and flushes: each held event is settled
    exactly once, and deliveries of the same kind keep their distance. */
module FilterRuns {
  import opened Filter

  // ---- recording a delivery ----

  lemma {:induction false} RecordSpaces(p: Policy, s: State, d: Delivery)
    requires Spaced(p, s.log) && LastIsLatest(s) && LastIsPast(s) && d.at >= s.clock
    requires !IsLimited(p, s, d.event, d.at)
    ensures Spaced(p, s.log + [d])
  {
    var log := s.log + [d];
    forall i, j | 0 <= i < j < |log| && log[i].event == log[j].event && log[i].event.etype != SecretNeeded
      ensures log[j].at - log[i].at >= p.rateLimit
    {
      assert i < |s.log| && log[i] == s.log[i];
      if j < |s.log| {
        assert log[j] == s.log[j];
      }
    }
  }

  lemma {:induction false} RecordLast(s: State, d: Delivery)
    requires LastIsLatest(s) && LastIsPast(s) && d.at >= s.clock
    ensures LastIsLatest(Record(s, d)) && LastIsPast(Record(s, d))
  {
  }

  lemma {:induction false} SecretSpaces(p: Policy, s: State, d: Delivery)
    requires Spaced(p, s.log) && LastIsLatest(s) && LastIsPast(s) && d.at >= s.clock && d.event.etype == SecretNeeded
    ensures var r := s.(log := s.log + [d], clock := d.at); Spaced(p, r.log) && LastIsLatest(r) && LastIsPast(r)
  {
    var log := s.log + [d];
    forall i, j | 0 <= i < j < |log| && log[i].event == log[j].event && log[i].event.etype != SecretNeeded
      ensures log[j].at - log[i].at >= p.rateLimit
    {
      assert j < |s.log| && log[i] == s.log[i] && log[j] == s.log[j];
    }
  }

  lemma {:induction false} ReleasedMore(log: seq<Delivery>, d: Delivery)
    ensures ReleasedIds(log + [d]) == ReleasedIds(log) + (if d.Released? then multiset{d.hold} else multiset{})
  {
    assert (log + [d])[..|log|] == log;
  }

  /** Recording another event leaves the holds unlimited. */
  lemma {:induction false} RecordHolds(p: Policy, s: State, d: Delivery)
    requires d.at >= s.clock && (forall key :: key in s.held ==> HoldOk(p, s, key) && s.held[key].event != d.event)
    ensures forall key :: key in s.held ==> HoldOk(p, Record(s, d), key)
  {
    forall key | key in s.held ensures HoldOk(p, Record(s, d), key) {
      assert HoldOk(p, s, key);
      RateKeyInjective(s.held[key].event, d.event);
    }
  }

  // ---- the steps ----

  /** Nothing but the clock moves. */
  lemma {:induction false} WaitKeeps(p: Policy, s: State, now: int)
    requires Inv(p, s) && now >= s.clock
    ensures Inv(p, s.(clock := now))
  {
    var r := s.(clock := now);
    forall id: nat ensures Placed(r, id) {
      assert Placed(s, id);
    }
    forall key | key in s.held ensures HoldOk(p, r, key) {
      assert HoldOk(p, s, key);
    }
  }

  lemma {:induction false} DirectPlaces(s: State, r: State, d: Delivery)
    requires r.held == s.held && r.made == s.made && r.cancelled == s.cancelled && r.log == s.log + [d] && d.Direct?
    requires Counted(s) && forall id: nat :: Placed(s, id)
    ensures Counted(r) && forall id: nat :: Placed(r, id)
  {
    ReleasedMore(s.log, d);
    assert ReleasedIds(r.log) == ReleasedIds(s.log);
    forall id: nat ensures Placed(r, id) {
      assert Placed(s, id);
    }
  }

  lemma {:induction false} DirectKeeps(p: Policy, s: State, e: Event, now: int)
    requires Inv(p, s) && now >= s.clock && !IsLimited(p, s, e, now)
    requires e.etype == Connected ==> p.debounce <= 0
    ensures Inv(p, Record(s, Direct(e, now)))
  {
    hide Placed, Counted, Spaced, LastIsLatest, LastIsPast;
    var d := Direct(e, now);
    RecordSpaces(p, s, d);
    RecordLast(s, d);
    DirectPlaces(s, Record(s, d), d);
    RecordHolds(p, s, d);
  }

  lemma {:induction false} SecretKeeps(p: Policy, s: State, e: Event, now: int)
    requires Inv(p, s) && now >= s.clock && e.etype == SecretNeeded
    ensures Inv(p, s.(log := s.log + [Direct(e, now)], clock := now))
  {
    hide Placed, Counted, Spaced, LastIsLatest, LastIsPast;
    var d := Direct(e, now);
    var r := s.(log := s.log + [d], clock := now);
    SecretSpaces(p, s, d);
    DirectPlaces(s, r, d);
    forall key | key in s.held ensures HoldOk(p, r, key) {
      assert HoldOk(p, s, key);
    }
  }

  /** Taking a hold out of the pending ones and putting it with the delivered
      (give) or the cancelled ones. */
  lemma {:induction false} TakeOut(p: Policy, s: State, key: string, r: State)
    requires (forall k :: k in s.held ==> HoldOk(p, s, k)) && OneKeyPerHold(s)
    requires key in s.held && r.held == s.held - {key} && r.made == s.made
    requires Counted(s) && forall id: nat :: Placed(s, id)
    requires ReleasedIds(r.log) + r.cancelled == ReleasedIds(s.log) + s.cancelled + multiset{s.held[key].id}
    ensures Counted(r) && forall id: nat :: Placed(r, id)
  {
    var h := s.held[key].id;
    assert |ReleasedIds(r.log) + r.cancelled| == |ReleasedIds(r.log)| + |r.cancelled|;
    assert |ReleasedIds(s.log) + s.cancelled + multiset{h}| == |ReleasedIds(s.log)| + |s.cancelled| + 1;
    assert r.held.Keys == s.held.Keys - {key} && |r.held| == |r.held.Keys| && |s.held| == |s.held.Keys|;
    forall id: nat ensures Placed(r, id) {
      PlacedAfter(s, key, r, id);
    }
  }

  lemma {:induction false} PlacedAfter(s: State, key: string, r: State, id: nat)
    requires OneKeyPerHold(s) && key in s.held && r.held == s.held - {key} && r.made == s.made && Placed(s, id)
    requires ReleasedIds(r.log) + r.cancelled == ReleasedIds(s.log) + s.cancelled + multiset{s.held[key].id}
    ensures Placed(r, id)
  {
    hide ReleasedIds;
    var h := s.held[key].id;
    assert (ReleasedIds(r.log) + r.cancelled)[id] == (ReleasedIds(s.log) + s.cancelled + multiset{h})[id];
    if id == h {
      assert !exists k :: k in r.held && r.held[k].id == id;
    } else {
      assert forall k :: k in r.held ==> k in s.held && r.held[k] == s.held[k];
      if k :| k in s.held && s.held[k].id == id {
        assert k in r.held;
      }
    }
  }

  /** A timer that finds its own hold delivers it; any other does nothing. */
  lemma {:induction false} ReleasedOne(s: State, t: State, d: Delivery)
    requires d.Released? && t.log == s.log && t.cancelled == s.cancelled
    ensures var r := Record(t, d);
      && ReleasedIds(r.log) + r.cancelled == ReleasedIds(s.log) + s.cancelled + multiset{d.hold}
      && r.held == t.held && r.made == t.made
  {
    ReleasedMore(s.log, d);
  }

  lemma {:induction false} ReleaseKeeps(p: Policy, s: State, key: string, id: nat, now: int)
    requires Inv(p, s) && now >= s.clock
    ensures Inv(p, ReleaseStep(s, key, id, now))
  {
    if key in s.held && s.held[key].id == id {
      hide Placed, Counted, Spaced, LastIsLatest, LastIsPast;
      var h := s.held[key];
      var d := Released(h.event, now, id);
      assert HoldOk(p, s, key);
      var t := s.(held := s.held - {key});
      var r := Record(t, d);
      ReleasedOne(s, t, d);
      hide ReleasedIds, Record;
      TakeOut(p, s, key, r);
      SameLog(p, s, t);
      RecordSpaces(p, t, d);
      RecordLast(t, d);
      forall k | k in t.held ensures HoldOk(p, t, k) && t.held[k].event != d.event {
        assert HoldOk(p, s, k);
      }
      RecordHolds(p, t, d);
    } else {
      WaitKeeps(p, s, now);
    }
  }

  lemma {:induction false} SameLog(p: Policy, s: State, t: State)
    requires t.log == s.log && t.last == s.last && t.clock == s.clock
    requires Spaced(p, s.log) && LastIsLatest(s) && LastIsPast(s)
    ensures Spaced(p, t.log) && LastIsLatest(t) && LastIsPast(t)
  {
  }

  lemma {:induction false} CancelKeeps(p: Policy, s: State, key: string, now: int)
    requires Inv(p, s) && now >= s.clock && key in s.held
    ensures Inv(p, s.(held := s.held - {key}, cancelled := s.cancelled + multiset{s.held[key].id}, clock := now))
  {
    hide Placed, Counted, Spaced, ReleasedIds;
    var t := s.(held := s.held - {key}, cancelled := s.cancelled + multiset{s.held[key].id});
    TakeOut(p, s, key, t);
    forall k | k in t.held ensures HoldOk(p, t, k) {
      assert HoldOk(p, s, k);
    }
    WaitKeeps(p, t, now);
  }

  lemma {:induction false} HoldPlaces(s: State, key: string, h: Hold, r: State)
    requires key !in s.held && h.id == s.made && r.held == s.held[key := h] && r.made == s.made + 1
    requires r.log == s.log && r.cancelled == s.cancelled
    requires (forall k :: k in s.held ==> s.held[k].id < s.made)
    requires Counted(s) && forall id: nat :: Placed(s, id)
    ensures Counted(r) && forall id: nat :: Placed(r, id)
  {
    hide ReleasedIds;
    assert r.held.Keys == s.held.Keys + {key} && |r.held| == |r.held.Keys| && |s.held| == |s.held.Keys|;
    assert Counted(r);
    hide Counted;
    forall id: nat ensures Placed(r, id) {
      assert Placed(s, id);
      if id == h.id {
        assert key in r.held && r.held[key].id == id;
      } else {
        if k :| k in s.held && s.held[k].id == id {
          assert k in r.held && r.held[k].id == id;
        }
      }
    }
  }

  lemma {:induction false} HoldKeeps(p: Policy, s: State, e: Event, now: int)
    requires Inv(p, s) && now >= s.clock && e.etype == Connected && p.debounce > 0 && e.key !in s.held
    requires !IsLimited(p, s, e, now)
    ensures Inv(p, s.(held := s.held[e.key := Hold(s.made, e, now)], made := s.made + 1, clock := now))
  {
    hide Placed, Counted, Spaced;
    var r := s.(held := s.held[e.key := Hold(s.made, e, now)], made := s.made + 1, clock := now);
    forall k | k in s.held ensures s.held[k].id < s.made && HoldOk(p, s, k) {
      assert HoldOk(p, s, k);
    }
    HoldPlaces(s, e.key, Hold(s.made, e, now), r);
  }

  lemma {:induction false} FlushKeeps(p: Policy, s: State, order: seq<string>, now: int)
    requires Inv(p, s) && now >= s.clock
    ensures Inv(p, FlushStep(s, order, now)) && FlushStep(s, order, now).clock == now
  {
    if order == [] {
      WaitKeeps(p, s, now);
    } else {
      hide Inv;
      var t, key := FlushStep(s, order[..|order| - 1], now), order[|order| - 1];
      FlushKeeps(p, s, order[..|order| - 1], now);
      if key in t.held {
        ReleaseKeeps(p, t, key, t.held[key].id, now);
      }
    }
  }

  lemma {:induction false} StepKeeps(p: Policy, s: State, a: Action)
    requires Inv(p, s) && a.now >= s.clock
    ensures Inv(p, Step(p, s, a)) && Step(p, s, a).clock == a.now
  {
    hide Inv, RateKey;
    match a
    case Allow(e, now) =>
      WaitKeeps(p, s, now);
      if e.etype == SecretNeeded {
        SecretKeeps(p, s, e, now);
      } else if Passes(p, s, e, now) {
        if e.etype == Connected && p.debounce > 0 {
          if e.key !in s.held {
            HoldKeeps(p, s, e, now);
          }
        } else if e.etype == Disconnected && e.key in s.held {
          CancelKeeps(p, s, e.key, now);
        } else {
          DirectKeeps(p, s, e, now);
        }
      }
    case Fire(key, id, now) => ReleaseKeeps(p, s, key, id, now);
    case Flush(order, now) => FlushKeeps(p, s, order, now);
  }

  // ---- whole runs ----

  lemma {:induction false} RunKeeps(p: Policy, acts: seq<Action>)
    requires Monotone(acts)
    ensures Inv(p, Run(p, acts))
    ensures Run(p, acts).clock == if acts == [] then 0 else acts[|acts| - 1].now
  {
    if acts == [] {
      forall id: nat ensures Placed(START, id) {
      }
    } else {
      hide Inv, Step;
      RunKeeps(p, acts[..|acts| - 1]);
      StepKeeps(p, Run(p, acts[..|acts| - 1]), acts[|acts| - 1]);
    }
  }

  /** Every hold is settled exactly once, stale timers included: at all times each of
      the holds ever made is pending, or was delivered once, or was cancelled once,
      and the counts add up. */
  lemma {:induction false} SettledExactlyOnce(p: Policy, acts: seq<Action>, id: nat)
    requires Monotone(acts)
    ensures var s := Run(p, acts);
      && s.made == |ReleasedIds(s.log)| + |s.cancelled| + |s.held|
      && (id >= s.made ==> ReleasedIds(s.log)[id] == s.cancelled[id] == 0)
      && (id < s.made ==>
           if exists key :: key in s.held && s.held[key].id == id
           then ReleasedIds(s.log)[id] == s.cancelled[id] == 0
           else ReleasedIds(s.log)[id] + s.cancelled[id] == 1)
  {
    RunKeeps(p, acts);
    assert Placed(Run(p, acts), id);
  }

  /** Any two deliveries of the same type and network key, however they came about,
      are at least RateLimit apart; secret-needed alone is exempt. */
  lemma {:induction false} DeliveriesKeepTheirDistance(p: Policy, acts: seq<Action>, i: nat, j: nat)
    requires Monotone(acts)
    requires i < j < |Run(p, acts).log| && Run(p, acts).log[i].event == Run(p, acts).log[j].event
    requires Run(p, acts).log[i].event.etype != SecretNeeded
    ensures Run(p, acts).log[j].at - Run(p, acts).log[i].at >= p.rateLimit
  {
    RunKeeps(p, acts);
  }

  /** Allow says true exactly when it delivers on the spot; a prompt is never held,
      limited or muted. */
  lemma {:induction false} AllowDelivers(p: Policy, s: State, e: Event, now: int)
    ensures var (r, ok) := AllowStep(p, s, e, now);
      && r.log == (if ok then s.log + [Direct(e, now)] else s.log)
      && (e.etype == SecretNeeded && p.IsEnabled(SecretNeeded) ==> ok)
  {
  }

  /** A flap: a disconnect that passes takes the held connect with it, and neither is
      delivered; one that is limited, muted or switched off leaves the hold alone. */
  lemma {:induction false} FlapIsSilent(p: Policy, s: State, key: string, now: int)
    requires Inv(p, s) && key in s.held
    ensures var e := Event(Disconnected, key); var (r, ok) := AllowStep(p, s, e, now);
      && !ok && r.log == s.log
      && (if Passes(p, s, e, now) then key !in r.held && r.cancelled == s.cancelled + multiset{s.held[key].id}
          else r.held == s.held && r.cancelled == s.cancelled)
    ensures var e := Event(Disconnected, key);
      !Passes(p, s, e, now) ==> AllowStep(p, s, e, now).0 == s.(clock := now)
  {
  }
}
