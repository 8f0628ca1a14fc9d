/** What the filter of internal/notify/filter.go answers after any run, read off the
    policy, what was delivered before and what is held. */
module FilterExact {
  import opened Filter
  import opened FilterRuns
  import opened Visiting

  // ---- the rate limit, read off the deliveries ----

  /** The same event was delivered less than a rate limit ago; prompts do not count. */
  ghost predicate Recent(log: seq<Delivery>, e: Event, rateLimit: int, now: int) {
    exists i :: 0 <= i < |log| && log[i].event == e && e.etype != SecretNeeded && now - log[i].at < rateLimit
  }

  /** Every remembered instant is that of a delivery of an event with that key. */
  ghost predicate LastIsLogged(s: State) {
    forall e: Event :: RateKey(e) in s.last ==> Logged(s.log, e, s.last[RateKey(e)])
  }

  ghost predicate Logged(log: seq<Delivery>, e: Event, at: int) {
    exists i :: 0 <= i < |log| && log[i].event == e && e.etype != SecretNeeded && log[i].at == at
  }

  lemma {:induction false} LoggedStays(log: seq<Delivery>, d: Delivery, e: Event, at: int)
    requires Logged(log, e, at)
    ensures Logged(log + [d], e, at)
  {
    var i :| 0 <= i < |log| && log[i].event == e && e.etype != SecretNeeded && log[i].at == at;
    assert (log + [d])[i] == log[i];
  }

  lemma {:induction false} RecordLogs(s: State, d: Delivery)
    requires LastIsLogged(s) && d.event.etype != SecretNeeded
    ensures LastIsLogged(Record(s, d))
  {
    hide Logged, RateKey;
    var r := Record(s, d);
    forall e: Event | RateKey(e) in r.last ensures Logged(r.log, e, r.last[RateKey(e)]) {
      RateKeyInjective(e, d.event);
      if e == d.event {
        JustLogged(s.log, d);
      } else {
        LoggedStays(s.log, d, e, s.last[RateKey(e)]);
      }
    }
  }

  lemma {:induction false} JustLogged(log: seq<Delivery>, d: Delivery)
    requires d.event.etype != SecretNeeded
    ensures Logged(log + [d], d.event, d.at)
  {
    assert (log + [d])[|log|] == d;
  }

  lemma {:induction false} PromptLogs(s: State, d: Delivery)
    requires LastIsLogged(s)
    ensures LastIsLogged(s.(log := s.log + [d]))
  {
    hide Logged, RateKey;
    forall e: Event | RateKey(e) in s.last ensures Logged(s.log + [d], e, s.last[RateKey(e)]) {
      LoggedStays(s.log, d, e, s.last[RateKey(e)]);
    }
  }

  /** last and held alone matter to the two predicates. */
  lemma {:induction false} SameLogs(s: State, t: State)
    requires t.last == s.last && t.log == s.log && LastIsLogged(s)
    ensures LastIsLogged(t)
  {
    hide Logged, RateKey;
  }

  lemma {:induction false} ReleaseLogs(p: Policy, s: State, key: string, id: nat, now: int)
    requires LastIsLogged(s) && forall k :: k in s.held ==> HoldOk(p, s, k)
    ensures LastIsLogged(ReleaseStep(s, key, id, now))
    ensures forall k :: k in ReleaseStep(s, key, id, now).held ==> k in s.held
  {
    hide Logged, RateKey, LastIsLogged, Record;
    if key in s.held && s.held[key].id == id {
      assert HoldOk(p, s, key);
      var t := s.(held := s.held - {key});
      SameLogs(s, t);
      RecordLogs(t, Released(s.held[key].event, now, id));
      RecordKeepsHeld(t, Released(s.held[key].event, now, id));
    } else {
      SameLogs(s, s.(clock := now));
    }
  }

  lemma {:induction false} RecordKeepsHeld(s: State, d: Delivery)
    ensures Record(s, d).held == s.held
  {
  }

  lemma {:induction false} FlushLogs(p: Policy, s: State, order: seq<string>, now: int)
    requires LastIsLogged(s) && Inv(p, s) && now >= s.clock
    ensures LastIsLogged(FlushStep(s, order, now))
  {
    hide Inv, LastIsLogged, ReleaseStep, HoldOk;
    if order == [] {
      SameLogs(s, s.(clock := now));
    } else {
      var before, key := order[..|order| - 1], order[|order| - 1];
      var t := FlushStep(s, before, now);
      FlushLogs(p, s, before, now);
      FlushKeeps(p, s, before, now);
      InvHolds(p, t);
      if key in t.held {
        ReleaseLogs(p, t, key, t.held[key].id, now);
      }
    }
  }

  lemma {:induction false} InvHolds(p: Policy, s: State)
    requires Inv(p, s)
    ensures forall k :: k in s.held ==> HoldOk(p, s, k)
  {
  }

  lemma {:induction false} StepLogs(p: Policy, s: State, a: Action)
    requires LastIsLogged(s) && Inv(p, s) && a.now >= s.clock
    ensures LastIsLogged(Step(p, s, a))
  {
    hide Inv, LastIsLogged, ReleaseStep, FlushStep, HoldOk, Record, Passes, RateKey;
    InvHolds(p, s);
    match a
    case Allow(e, now) =>
      RecordOrNot(s, e, now);
      var r := AllowStep(p, s, e, now).0;
      if r.log == s.log && r.last == s.last {
        SameLogs(s, r);
      }
    case Fire(key, id, now) => ReleaseLogs(p, s, key, id, now);
    case Flush(order, now) => FlushLogs(p, s, order, now);
  }

  lemma {:induction false} RecordOrNot(s: State, e: Event, now: int)
    requires LastIsLogged(s)
    ensures e.etype != SecretNeeded ==> LastIsLogged(Record(s, Direct(e, now)))
    ensures LastIsLogged(s.(log := s.log + [Direct(e, now)], clock := now))
  {
    hide LastIsLogged, Record;
    if e.etype != SecretNeeded {
      RecordLogs(s, Direct(e, now));
    }
    PromptLogs(s, Direct(e, now));
    SameLogs(s.(log := s.log + [Direct(e, now)]), s.(log := s.log + [Direct(e, now)], clock := now));
  }

  lemma {:induction false} RunLogs(p: Policy, acts: seq<Action>)
    requires Monotone(acts)
    ensures LastIsLogged(Run(p, acts))
  {
    if acts != [] {
      hide LastIsLogged, Inv, Step;
      var before := acts[..|acts| - 1];
      RunLogs(p, before);
      RunKeeps(p, before);
      StepLogs(p, Run(p, before), acts[|acts| - 1]);
    }
  }

  /** The limit is on exactly when the log has a recent delivery. */
  lemma {:induction false} LimitedExactly(p: Policy, s: State, e: Event, now: int)
    requires LastIsLogged(s) && LastIsLatest(s) && now >= s.clock && e.etype != SecretNeeded
    ensures IsLimited(p, s, e, now) <==> Recent(s.log, e, p.rateLimit, now)
  {
    hide RateKey;
    if IsLimited(p, s, e, now) {
      assert Logged(s.log, e, s.last[RateKey(e)]);
    }
  }

  // ---- Allow ----

  /** Nothing is said against the event: its type is switched on, its network is not muted,
      and the same event was not delivered within the rate limit. */
  ghost predicate Wanted(p: Policy, log: seq<Delivery>, e: Event, now: int) {
    && e.etype in p.enabled
    && !(e.key != "" && exists i :: 0 <= i < |p.muted| && p.muted[i] == e.key)
    && !Recent(log, e, p.rateLimit, now)
  }

  /** Allow after any run, exactly. It says true for a prompt that is switched on, and for
      a wanted event that is neither a connect to be debounced nor a disconnect of a held
      connect. It holds a wanted connect that is to be debounced and not yet held; it takes
      back the held connect of a wanted disconnect; otherwise nothing changes. What is
      delivered is logged, once. */
  lemma {:induction false} AllowExactly(p: Policy, acts: seq<Action>, e: Event, now: int)
    requires Monotone(acts) && now >= 0 && (acts != [] ==> now >= acts[|acts| - 1].now)
    ensures var s := Run(p, acts);
      var (r, ok) := AllowStep(p, s, e, now);
      var wanted := Wanted(p, s.log, e, now) && e.etype != SecretNeeded;
      var holds := wanted && e.etype == Connected && p.debounce > 0;
      var flap := wanted && e.etype == Disconnected && e.key in s.held;
      && (ok <==> (e.etype == SecretNeeded && SecretNeeded in p.enabled) || (wanted && !holds && !flap))
      && r.log == (if ok then s.log + [Direct(e, now)] else s.log)
      && r.held == (if holds && e.key !in s.held then s.held[e.key := Hold(s.made, Event(Connected, e.key), now)]
                    else if flap then s.held - {e.key} else s.held)
      && r.made == (if holds && e.key !in s.held then s.made + 1 else s.made)
      && r.cancelled == (if flap then s.cancelled + multiset{s.held[e.key].id} else s.cancelled)
  {
    hide Recent, IsLimited, RateKey, Inv, LastIsLogged, Run;
    var s := Run(p, acts);
    RunKeeps(p, acts);
    RunLogs(p, acts);
    InvParts(p, s);
    if e.etype != SecretNeeded {
      LimitedExactly(p, s, e, now);
    }
    assert p.IsMuted(e.key) <==> e.key != "" && exists i :: 0 <= i < |p.muted| && p.muted[i] == e.key;
  }

  lemma {:induction false} InvParts(p: Policy, s: State)
    requires Inv(p, s)
    ensures LastIsLatest(s)
  {
  }

  // ---- timers and Flush ----

  /** A timer after any run: the connect it was armed for is delivered, if it is still
      held, and nothing is otherwise. */
  lemma {:induction false} FireExactly(p: Policy, acts: seq<Action>, key: string, id: nat, now: int)
    requires Monotone(acts)
    ensures var s, r := Run(p, acts), Run(p, acts + [Fire(key, id, now)]);
      var own := key in s.held && s.held[key].id == id;
      && r.log == (if own then s.log + [Released(Event(Connected, key), now, id)] else s.log)
      && r.held == (if own then s.held - {key} else s.held)
      && r.made == s.made && r.cancelled == s.cancelled
  {
    var s := Run(p, acts);
    RunKeeps(p, acts);
    RunOneMore(p, acts, Fire(key, id, now));
    hide Run, RateKey, Inv, HoldOk, ReleaseStep;
    if key in s.held && s.held[key].id == id {
      InvHolds(p, s);
      HeldIsConnect(p, s, key);
      ReleaseIs(s, key, id, now);
    } else {
      StaleIs(s, key, id, now);
    }
  }

  lemma {:induction false} RunOneMore(p: Policy, acts: seq<Action>, a: Action)
    ensures Run(p, acts + [a]) == Step(p, Run(p, acts), a)
  {
    assert (acts + [a])[..|acts|] == acts;
  }

  lemma {:induction false} StaleIs(s: State, key: string, id: nat, now: int)
    requires !(key in s.held && s.held[key].id == id)
    ensures ReleaseStep(s, key, id, now) == s.(clock := now)
  {
  }

  /** The deliveries of a flush: the held connects in the order visited. */
  function Handed(held: map<string, Hold>, order: seq<string>, now: int): (r: seq<Delivery>)
    requires forall i :: 0 <= i < |order| ==> order[i] in held
    ensures |r| == |order|
    ensures forall i :: 0 <= i < |order| ==> r[i] == Released(Event(Connected, order[i]), now, held[order[i]].id)
  {
    seq(|order|, i requires 0 <= i < |order| => Released(Event(Connected, order[i]), now, held[order[i]].id))
  }

  /** order has no key twice. */
  predicate NoRepeats(order: seq<string>) { forall i, j :: 0 <= i < j < |order| ==> order[i] != order[j] }

  lemma {:induction false} FlushedSoFar(p: Policy, s: State, order: seq<string>, now: int)
    requires (forall k :: k in s.held ==> HoldOk(p, s, k)) && NoRepeats(order)
    requires forall i :: 0 <= i < |order| ==> order[i] in s.held
    ensures var r := FlushStep(s, order, now);
      && r.log == s.log + Handed(s.held, order, now) && r.cancelled == s.cancelled && r.made == s.made
      && r.held == s.held - (set k | k in order)
  {
    if order == [] {
      assert s.held - (set k | k in order) == s.held;
      assert s.log + Handed(s.held, order, now) == s.log;
    } else {
      hide HoldOk, RateKey, ReleaseStep;
      var before, key := order[..|order| - 1], order[|order| - 1];
      FlushedSoFar(p, s, before, now);
      var t := FlushStep(s, before, now);
      assert HoldOk(p, s, key);
      HeldIsConnect(p, s, key);
      OneMore(s.held, order, now);
      ReleaseIs(t, key, t.held[key].id, now);
    }
  }

  lemma {:induction false} OneMore(held: map<string, Hold>, order: seq<string>, now: int)
    requires order != [] && NoRepeats(order) && forall i :: 0 <= i < |order| ==> order[i] in held
    ensures var before, key := order[..|order| - 1], order[|order| - 1];
      && key !in before && key in held - (set k | k in before)
      && held - (set k | k in order) == held - (set k | k in before) - {key}
      && Handed(held, order, now) == Handed(held, before, now) + [Released(Event(Connected, key), now, held[key].id)]
  {
    var before, key := order[..|order| - 1], order[|order| - 1];
    assert (set k | k in order) == (set k | k in before) + {key};
  }

  lemma {:induction false} ReleaseIs(s: State, key: string, id: nat, now: int)
    requires key in s.held && s.held[key].id == id && s.held[key].event == Event(Connected, key)
    ensures var r := ReleaseStep(s, key, id, now);
      && r.log == s.log + [Released(Event(Connected, key), now, id)]
      && r.held == s.held - {key} && r.made == s.made && r.cancelled == s.cancelled
  {
    hide RateKey;
  }

  lemma {:induction false} HeldIsConnect(p: Policy, s: State, key: string)
    requires key in s.held && HoldOk(p, s, key)
    ensures s.held[key].event == Event(Connected, key)
  {
  }

  lemma {:induction false} VisitedOnce(order: seq<string>, ids: set<string>)
    requires Visits(order, ids)
    ensures NoRepeats(order) && (set k | k in order) == ids
  {
    VisitsMembers(order, ids);
    forall i, j | 0 <= i < j < |order| ensures order[i] != order[j] {
      var x, y := order[..j], order[j..];
      assert order == x + y && order[i] == x[i] && order[j] == y[0];
      assert order[i] in x && order[j] in y;
      assert multiset(order)[order[i]] == multiset(x)[order[i]] + multiset(y)[order[i]];
      assert multiset(ids)[order[i]] <= 1;
    }
  }

  /** A flush after any run delivers every held connect, once each, and leaves none. */
  lemma {:induction false} FlushExactly(p: Policy, acts: seq<Action>, order: seq<string>, now: int)
    requires Monotone(acts) && Visits(order, Run(p, acts).held.Keys)
    ensures forall key :: key in order <==> key in Run(p, acts).held
    ensures var s, r := Run(p, acts), Run(p, acts + [Flush(order, now)]);
      r.held == map[] && r.log == s.log + Handed(s.held, order, now) && r.cancelled == s.cancelled
  {
    var s := Run(p, acts);
    RunKeeps(p, acts);
    RunOneMore(p, acts, Flush(order, now));
    hide Run, RateKey, Inv;
    InvHolds(p, s);
    VisitedOnce(order, s.held.Keys);
    VisitsMembers(order, s.held.Keys);
    FlushedSoFar(p, s, order, now);
    assert s.held - s.held.Keys == map[];
  }
}
