/** The notification filter of internal/notify/filter.go: per-type switches, mutes,
    a debounce that holds connected events, and a rate limit. Every method is one
    locked section; timers are steps that may fire at any time after they were
    armed, also after they were stopped too late. */
module Filter {

  datatype EventType =
    | Connected | Disconnected | NoInternet | InternetRestored | VpnUp | VpnDown
    | Degraded | Recovered | WifiScan | StateChanged | SecretNeeded | SecretResolved

  datatype Event = Event(etype: EventType, key: string)

  datatype Policy = Policy(enabled: set<EventType>, muted: seq<string>, debounce: int, rateLimit: int) {
    predicate IsEnabled(t: EventType) { t in enabled }
    predicate IsMuted(key: string) { key != "" && key in muted }
  }

  /** A held connected event; id tells two holds of the same key apart, as the
      pointer does; since is when it was held. */
  datatype Hold = Hold(id: nat, event: Event, since: int)

  /** One event handed to the user; hold is the id of the hold it came from, if any. */
  datatype Delivery = Direct(event: Event, at: int) | Released(event: Event, at: int, hold: nat)

  /** The filter and its history: how many holds were ever made, what was delivered,
      which holds were cancelled, and the latest clock reading. */
  datatype State = State(
    held: map<string, Hold>, last: map<string, int>,
    made: nat, log: seq<Delivery>, cancelled: multiset<nat>, clock: int)

  const START := State(map[], map[], 0, [], multiset{}, 0)

  // ---- the rate key ----

  function TypeName(t: EventType): string {
    match t
    case Connected => "connected"
    case Disconnected => "disconnected"
    case NoInternet => "no-internet"
    case InternetRestored => "internet-restored"
    case VpnUp => "vpn-up"
    case VpnDown => "vpn-down"
    case Degraded => "degraded"
    case Recovered => "recovered"
    case WifiScan => "wifi-scan"
    case StateChanged => "state-changed"
    case SecretNeeded => "secret-needed"
    case SecretResolved => "secret-resolved"
  }

  function RateKey(e: Event): string { TypeName(e.etype) + "\0" + e.key }

  lemma {:induction false} NameHasNoNul(t: EventType)
    ensures '\0' !in TypeName(t)
  {
  }

  lemma {:induction false} NameIsUnique(t: EventType, u: EventType)
    requires TypeName(t) == TypeName(u)
    ensures t == u
  {
    assert TypeName(t)[0] == TypeName(u)[0] && TypeName(t)[1] == TypeName(u)[1] && |TypeName(t)| == |TypeName(u)|;
    assert TypeName(t)[|TypeName(t)| - 1] == TypeName(u)[|TypeName(u)| - 1];
  }

  lemma {:induction false} SplitAtNul(s: string, t: string, x: string, y: string)
    requires '\0' !in s && '\0' !in t && s + "\0" + x == t + "\0" + y
    ensures s == t && x == y
  {
    var u, v := s + "\0" + x, t + "\0" + y;
    forall i | 0 <= i < |s| ensures u[i] != '\0' {
      assert u[i] == s[i] && s[i] in s;
    }
    forall i | 0 <= i < |t| ensures v[i] != '\0' {
      assert v[i] == t[i] && t[i] in t;
    }
    assert u[|s|] == '\0' && v[|t|] == '\0';
    assert s == u[..|s|] && t == v[..|t|];
    assert x == u[|s| + 1..] && y == v[|t| + 1..];
  }

  /** Two events share a rate key exactly when type and network key agree. */
  lemma {:induction false} RateKeyInjective(e: Event, f: Event)
    ensures RateKey(e) == RateKey(f) <==> e == f
  {
    if RateKey(e) == RateKey(f) {
      NameHasNoNul(e.etype);
      NameHasNoNul(f.etype);
      SplitAtNul(TypeName(e.etype), TypeName(f.etype), e.key, f.key);
      NameIsUnique(e.etype, f.etype);
    }
  }

  // ---- the steps ----

  predicate IsLimited(p: Policy, s: State, e: Event, now: int) {
    p.rateLimit > 0 && RateKey(e) in s.last && now - s.last[RateKey(e)] < p.rateLimit
  }

  function Record(s: State, d: Delivery): State {
    s.(last := s.last[RateKey(d.event) := d.at], log := s.log + [d], clock := d.at)
  }

  /** Whether an event gets past the switches, the mutes and the rate limit. */
  predicate Passes(p: Policy, s: State, e: Event, now: int) {
    p.IsEnabled(e.etype) && !p.IsMuted(e.key) && !IsLimited(p, s, e, now)
  }

  function AllowStep(p: Policy, s: State, e: Event, now: int): (State, bool) {
    if !p.IsEnabled(e.etype) then (s.(clock := now), false)
    else if e.etype == SecretNeeded then (s.(log := s.log + [Direct(e, now)], clock := now), true)
    else if !Passes(p, s, e, now) then (s.(clock := now), false)
    else if e.etype == Connected && p.debounce > 0 then
      if e.key in s.held then (s.(clock := now), false)
      else (s.(held := s.held[e.key := Hold(s.made, e, now)], made := s.made + 1, clock := now), false)
    else if e.etype == Disconnected && e.key in s.held then
      (s.(held := s.held - {e.key}, cancelled := s.cancelled + multiset{s.held[e.key].id}, clock := now), false)
    else (Record(s, Direct(e, now)), true)
  }

  /** The timer callback of the hold id on key: a stale one finds another hold, or
      none, and does nothing. */
  function ReleaseStep(s: State, key: string, id: nat, now: int): State {
    if key in s.held && s.held[key].id == id
    then Record(s.(held := s.held - {key}), Released(s.held[key].event, now, id))
    else s.(clock := now)
  }

  /** Flush, visiting the held keys in the given order. */
  function FlushStep(s: State, order: seq<string>, now: int): State {
    if order == [] then s.(clock := now)
    else
      var t, key := FlushStep(s, order[..|order| - 1], now), order[|order| - 1];
      if key in t.held then ReleaseStep(t, key, t.held[key].id, now) else t
  }

  datatype Action = Allow(e: Event, now: int) | Fire(key: string, id: nat, now: int) | Flush(order: seq<string>, now: int)

  function Step(p: Policy, s: State, a: Action): State {
    match a
    case Allow(e, now) => AllowStep(p, s, e, now).0
    case Fire(key, id, now) => ReleaseStep(s, key, id, now)
    case Flush(order, now) => FlushStep(s, order, now)
  }

  function Run(p: Policy, acts: seq<Action>): State {
    if acts == [] then START else Step(p, Run(p, acts[..|acts| - 1]), acts[|acts| - 1])
  }

  /** The clock does not go back. */
  ghost predicate Monotone(acts: seq<Action>) {
    && (forall i :: 0 <= i < |acts| ==> acts[i].now >= 0)
    && (forall i, j :: 0 <= i < j < |acts| ==> acts[i].now <= acts[j].now)
  }

  // ---- what every step keeps ----

  /** The holds handed to the user, with repetitions. */
  function ReleasedIds(log: seq<Delivery>): multiset<nat> {
    if log == [] then multiset{}
    else
      var d := log[|log| - 1];
      ReleasedIds(log[..|log| - 1]) + (if d.Released? then multiset{d.hold} else multiset{})
  }

  predicate HoldOk(p: Policy, s: State, key: string)
    requires key in s.held
  {
    var h := s.held[key];
    && h.event == Event(Connected, key) && h.id < s.made && h.since <= s.clock && p.debounce > 0
    && !IsLimited(p, s, h.event, h.since)
  }

  /** Every hold is in exactly one place: pending, delivered or cancelled. */
  ghost predicate Placed(s: State, id: nat) {
    var pending := if exists key :: key in s.held && s.held[key].id == id then 1 else 0;
    ReleasedIds(s.log)[id] + s.cancelled[id] + pending == if id < s.made then 1 else 0
  }

  ghost predicate Counted(s: State) {
    s.made == |ReleasedIds(s.log)| + |s.cancelled| + |s.held|
  }

  ghost predicate Spaced(p: Policy, log: seq<Delivery>) {
    forall i, j :: 0 <= i < j < |log| && log[i].event == log[j].event && log[i].event.etype != SecretNeeded ==>
      log[j].at - log[i].at >= p.rateLimit
  }

  /** last holds the instant of the latest delivery of each rate key. */
  ghost predicate LastIsLatest(s: State) {
    forall i :: 0 <= i < |s.log| ==>
      && s.log[i].at <= s.clock
      && (s.log[i].event.etype != SecretNeeded ==>
           RateKey(s.log[i].event) in s.last && s.log[i].at <= s.last[RateKey(s.log[i].event)])
  }

  ghost predicate LastIsPast(s: State) { forall k :: k in s.last ==> s.last[k] <= s.clock }

  ghost predicate OneKeyPerHold(s: State) {
    forall x, y :: x in s.held && y in s.held && s.held[x].id == s.held[y].id ==> x == y
  }

  ghost predicate Inv(p: Policy, s: State) {
    && (forall key :: key in s.held ==> HoldOk(p, s, key))
    && OneKeyPerHold(s)
    && (forall id: nat :: Placed(s, id))
    && Counted(s) && Spaced(p, s.log) && LastIsLatest(s) && LastIsPast(s)
  }
}
