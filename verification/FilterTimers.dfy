/** What the debounce of internal/notify/filter.go is for: a connected event that its
    timer delivers has outlasted the debounce without a disconnect that passes. */
module FilterTimers {
  import opened Filter
  import opened FilterRuns

  /** A timer fires no earlier than a debounce after its hold was made; one that finds
      its hold gone does nothing, whenever it fires. */
  predicate TimersKeepTime(p: Policy, acts: seq<Action>) {
    acts == [] || (
      var before, a := acts[..|acts| - 1], acts[|acts| - 1];
      && TimersKeepTime(p, before)
      && (a.Fire? && Holds(Run(p, before), a.key, a.id) ==> a.now >= Run(p, before).held[a.key].since + p.debounce))
  }

  predicate Holds(s: State, key: string, id: nat) { key in s.held && s.held[key].id == id }

  /** A disconnect of the key that gets past the switches, the mutes and the rate limit. */
  predicate PassingDisconnect(p: Policy, s: State, a: Action, key: string) {
    a.Allow? && a.e == Event(Disconnected, key) && Passes(p, s, a.e, a.now)
  }

  /** The hold on key was made by the i-th action, a connect that passed, and is the same
      ever since: no disconnect of the key has passed. */
  ghost predicate HeldFrom(p: Policy, acts: seq<Action>, key: string, i: nat) {
    var s := Run(p, acts);
    && i < |acts| && key in s.held
    && acts[i] == Allow(Event(Connected, key), s.held[key].since)
    && Passes(p, Run(p, acts[..i]), Event(Connected, key), s.held[key].since) && key !in Run(p, acts[..i]).held
    && (forall j :: i < j <= |acts| ==> Holds(Run(p, acts[..j]), key, s.held[key].id))
    && (forall j :: i < j < |acts| ==> !PassingDisconnect(p, Run(p, acts[..j]), acts[j], key))
  }

  /** What one action does to the hold on a key: it was there before and no disconnect
      passed, or the action is the connect that made it. */
  lemma {:induction false} HeldStep(p: Policy, s: State, a: Action, key: string)
    requires key in Step(p, s, a).held && forall k :: k in s.held ==> HoldOk(p, s, k)
    ensures var r := Step(p, s, a);
      if key in s.held then r.held[key] == s.held[key] && !PassingDisconnect(p, s, a, key)
      else a == Allow(Event(Connected, key), r.held[key].since) && Passes(p, s, a.e, a.now)
  {
    hide RateKey, IsLimited;
    match a
    case Allow(e, now) =>
    case Fire(k, id, now) =>
    case Flush(order, now) => FlushHolds(s, order, now, key);
  }

  /** A flush makes no hold and leaves those it does not visit. */
  lemma {:induction false} FlushHolds(s: State, order: seq<string>, now: int, key: string)
    ensures key in FlushStep(s, order, now).held ==> key in s.held && FlushStep(s, order, now).held[key] == s.held[key]
  {
    if order != [] {
      FlushHolds(s, order[..|order| - 1], now, key);
    }
  }

  /** Every hold goes back to the connect that made it. */
  lemma {:induction false} HeldSince(p: Policy, acts: seq<Action>, key: string) returns (i: nat)
    requires Monotone(acts) && key in Run(p, acts).held
    ensures HeldFrom(p, acts, key, i)
  {
    hide Step, Passes, Inv, HoldOk;
    var n := |acts| - 1;
    assert acts != [];
    var before, a := acts[..n], acts[n];
    var s := Run(p, before);
    assert Monotone(before);
    RunKeeps(p, before);
    HoldsAreOk(p, s);
    HeldStep(p, s, a, key);
    assert acts[..|acts|] == acts;
    if key in s.held {
      i := HeldSince(p, before, key);
      StillHeld(p, acts, key, i);
    } else {
      i := n;
    }
  }

  lemma {:induction false} HoldsAreOk(p: Policy, s: State)
    requires Inv(p, s)
    ensures forall k :: k in s.held ==> HoldOk(p, s, k)
  {
  }

  lemma {:induction false} StillHeld(p: Policy, acts: seq<Action>, key: string, i: nat)
    requires acts != [] && HeldFrom(p, acts[..|acts| - 1], key, i)
    requires key in Run(p, acts).held && Run(p, acts).held[key] == Run(p, acts[..|acts| - 1]).held[key]
    requires !PassingDisconnect(p, Run(p, acts[..|acts| - 1]), acts[|acts| - 1], key)
    ensures HeldFrom(p, acts, key, i)
  {
    hide Run, Passes, PassingDisconnect;
    var before := acts[..|acts| - 1];
    assert forall j :: 0 <= j <= |before| ==> before[..j] == acts[..j];
    assert acts[..|acts|] == acts;
  }

  /** A connect that a timer delivers: its hold was made at least a debounce earlier by a
      connect that passed, and from then to the delivery no disconnect of the network
      passed. */
  lemma {:induction false} ReleasedHasLasted(p: Policy, acts: seq<Action>, key: string, id: nat, now: int) returns (i: nat)
    requires Monotone(acts + [Fire(key, id, now)]) && TimersKeepTime(p, acts + [Fire(key, id, now)])
    requires Holds(Run(p, acts), key, id)
    ensures HeldFrom(p, acts, key, i) && now >= acts[i].now + p.debounce
    ensures Run(p, acts + [Fire(key, id, now)]).log == Run(p, acts).log + [Released(Event(Connected, key), now, id)]
  {
    var all := acts + [Fire(key, id, now)];
    assert all[..|acts|] == acts;
    assert forall j :: 0 <= j < |acts| ==> all[j] == acts[j];
    RunKeeps(p, acts);
    i := HeldSince(p, acts, key);
    assert HoldOk(p, Run(p, acts), key);
  }
}
