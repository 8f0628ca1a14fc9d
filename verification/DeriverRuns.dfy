/** Whole-run properties of the event deriver: its events, replayed, reconstruct
    its state; its timers are exact; a roam is silent. */
module DeriverRuns {
  import opened Options
  import opened Visiting
  import opened Deriver

  // ---- replaying events ----

  /** What a listener knows from the events alone. */
  datatype Shadow = Shadow(announced: bool, noInternet: bool, vpns: set<string>, key: string)

  function Hear(sh: Shadow, e: Event): Shadow {
    match e
    case Connected(k, _) => sh.(announced := true, noInternet := false, key := k)
    case Disconnected(_, _) => sh.(announced := false, noInternet := false, key := "")
    case NoInternet(_, _) => sh.(noInternet := true)
    case Restored(_, _) => sh.(noInternet := false)
    case VpnUp(id, _, _) => sh.(vpns := sh.vpns + {id})
    case VpnDown(id, _, _) => sh.(vpns := sh.vpns - {id})
  }

  function HearAll(sh: Shadow, es: seq<Event>): Shadow {
    if es == [] then sh else Hear(HearAll(sh, es[..|es| - 1]), es[|es| - 1])
  }

  /** The events a listener can make sense of. */
  predicate Expected(sh: Shadow, e: Event) {
    match e
    case Connected(_, _) => true
    case Disconnected(_, _) => sh.announced
    case NoInternet(_, _) => sh.announced && !sh.noInternet
    case Restored(_, _) => sh.announced && sh.noInternet
    case VpnUp(id, _, _) => id !in sh.vpns
    case VpnDown(id, _, _) => id in sh.vpns
  }

  predicate AllExpected(sh: Shadow, es: seq<Event>) {
    es == [] || (AllExpected(sh, es[..|es| - 1]) && Expected(HearAll(sh, es[..|es| - 1]), es[|es| - 1]))
  }

  lemma {:induction false} HearConcat(sh: Shadow, xs: seq<Event>, ys: seq<Event>)
    ensures HearAll(sh, xs + ys) == HearAll(HearAll(sh, xs), ys)
    ensures AllExpected(sh, xs + ys) <==> AllExpected(sh, xs) && AllExpected(HearAll(sh, xs), ys)
    decreases |ys|
  {
    if ys == [] {
      assert xs + ys == xs;
    } else {
      assert (xs + ys)[..|xs + ys| - 1] == xs + ys[..|ys| - 1];
      HearConcat(sh, xs, ys[..|ys| - 1]);
    }
  }

  lemma {:induction false} HearOne(sh: Shadow, e: Event)
    ensures HearAll(sh, [e]) == Hear(sh, e)
    ensures AllExpected(sh, [e]) <==> Expected(sh, e)
  {
    assert [e][..0] == [];
  }

  /** The deriver as its listeners should see it. */
  function ShadowOf(d: State): Shadow {
    Shadow(d.primary.Some? || d.pendingDisc.Some?, d.noInternet, d.vpnUp.Keys, d.monitorKey)
  }

  // ---- what every step keeps ----

  ghost predicate Inv(d: State) {
    && d.initialized && d.debounce >= 0 && d.grace >= 0
    && (d.pendingDisc.Some? ==> d.primary == None)
    && (d.noInternet ==> d.pendingNoNet == None)
    && (d.primary == None && d.pendingDisc == None ==> !d.noInternet && d.pendingNoNet == None)
    && (d.monitorKey == "" <==> d.primary == None && d.pendingDisc == None)
    && d.primaryName == (if d.primary.Some? then d.primary.value.name else "")
    && (d.primaryKey == "" <==> d.primary == None)
  }

  ghost predicate Follows(d: State, d': State, es: seq<Event>) {
    && Inv(d')
    && ShadowOf(d') == HearAll(ShadowOf(d), es)
  }

  lemma {:induction false} PrimaryFollows(d: State, cur: Option<Active>, key: string, now: int)
    requires Inv(d) && (key == "" <==> cur == None)
    ensures var (d', es) := PrimaryStep(d, cur, key, now);
      Follows(d, d', es) && AllExpected(ShadowOf(d), es) && d'.vpnUp == d.vpnUp
  {
    HearOne(ShadowOf(d), Connected(key, now));
  }

  lemma {:induction false} ConnectivityFollows(d: State, conn: Connectivity, now: int)
    requires Inv(d)
    ensures var (d', es) := ConnectivityStep(d, conn, now);
      Follows(d, d', es) && AllExpected(ShadowOf(d), es) && d'.vpnUp == d.vpnUp
  {
    HearOne(ShadowOf(d), Restored(d.primaryKey, now));
  }

  /** In a state the deriver can be in, at most one timer is due. */
  lemma {:induction false} FlushShape(d: State, now: int)
    requires Inv(d)
    ensures var quiet := d.(pendingDisc := None, monitorKey := "", monitorGateway := "");
      DiscDue(d, now) ==> Flush(d, now) == (ResetConnectivity(quiet), [Disconnected(d.pendingDisc.value.key, now)])
    ensures var offline := d.(pendingNoNet := None, noInternet := true);
      !DiscDue(d, now) && NoNetDue(d, now) ==> Flush(d, now) == (offline, [NoInternet(d.primaryKey, now)])
    ensures !DiscDue(d, now) && !NoNetDue(d, now) ==> Flush(d, now) == (d, [])
  {
    assert [] + [NoInternet(d.primaryKey, now)] == [NoInternet(d.primaryKey, now)];
  }

  lemma {:induction false} FlushFollows(d: State, now: int)
    requires Inv(d)
    ensures var (d', es) := Flush(d, now);
      Follows(d, d', es) && AllExpected(ShadowOf(d), es) && d'.vpnUp == d.vpnUp && |es| <= 1
  {
    FlushShape(d, now);
    hide Flush;
    if DiscDue(d, now) {
      HearOne(ShadowOf(d), Disconnected(d.pendingDisc.value.key, now));
    } else if NoNetDue(d, now) {
      HearOne(ShadowOf(d), NoInternet(d.primaryKey, now));
    }
  }

  // ---- vpns ----

  /** The ids announced by the vpn-up events of one view, repetitions included. */
  function NewIds(was: map<string, Vpn>, vpns: seq<Vpn>): seq<string> {
    if vpns == [] then []
    else
      var rest, last := NewIds(was, vpns[..|vpns| - 1]), vpns[|vpns| - 1];
      if last.connected && last.id !in was then rest + [last.id] else rest
  }

  predicate Distinct(ids: seq<string>) {
    ids == [] || (Distinct(ids[..|ids| - 1]) && ids[|ids| - 1] !in ids[..|ids| - 1])
  }

  lemma {:induction false} SeenKeys(vpns: seq<Vpn>, was: map<string, Vpn>, id: string)
    ensures id in Seen(vpns) && id !in was <==> id in NewIds(was, vpns)
  {
    if vpns != [] {
      SeenKeys(vpns[..|vpns| - 1], was, id);
    }
  }

  function SetOf(ids: seq<string>): (r: set<string>)
    ensures forall id :: id in r <==> id in ids
  {
    if ids == [] then {}
    else
      assert ids == ids[..|ids| - 1] + [ids[|ids| - 1]];
      SetOf(ids[..|ids| - 1]) + {ids[|ids| - 1]}
  }

  lemma {:induction false} HearMore(sh: Shadow, es: seq<Event>, e: Event)
    ensures HearAll(sh, es + [e]) == Hear(HearAll(sh, es), e)
    ensures AllExpected(sh, es + [e]) <==> AllExpected(sh, es) && Expected(HearAll(sh, es), e)
  {
    assert (es + [e])[..|es|] == es;
  }

  lemma {:induction false} OneMoreId(ids: seq<string>, id: string)
    ensures SetOf(ids + [id]) == SetOf(ids) + {id}
    ensures Distinct(ids + [id]) <==> Distinct(ids) && id !in SetOf(ids)
  {
    assert (ids + [id])[..|ids|] == ids;
  }

  lemma {:induction false} OneMoreUp(sh: Shadow, es: seq<Event>, ids: seq<string>, id: string, key: string, now: int)
    requires HearAll(sh, es).vpns == sh.vpns + SetOf(ids) && HearAll(sh, es) == sh.(vpns := HearAll(sh, es).vpns)
    requires AllExpected(sh, es) <==> Distinct(ids)
    requires id !in sh.vpns
    ensures HearAll(sh, es + [VpnUp(id, key, now)]) == sh.(vpns := sh.vpns + SetOf(ids + [id]))
    ensures AllExpected(sh, es + [VpnUp(id, key, now)]) <==> Distinct(ids + [id])
  {
    hide *;
    var e := VpnUp(id, key, now);
    HearMore(sh, es, e);
    OneMoreId(ids, id);
    SetPlus(sh.vpns, SetOf(ids), SetOf(ids + [id]), id);
    HearUp(HearAll(sh, es), id, key, now);
  }

  lemma {:induction false} HearUp(sh: Shadow, id: string, key: string, now: int)
    ensures Hear(sh, VpnUp(id, key, now)) == sh.(vpns := sh.vpns + {id})
    ensures Expected(sh, VpnUp(id, key, now)) <==> id !in sh.vpns
  {
  }

  lemma {:induction false} SetPlus(was: set<string>, before: set<string>, after: set<string>, id: string)
    requires after == before + {id} && id !in was
    ensures was + after == was + before + {id}
    ensures id in was + before <==> id in before
  {
  }

  /** The vpn-ups of a view are all expected exactly when no new id is repeated. */
  lemma {:induction false} UpsHeard(sh: Shadow, was: map<string, Vpn>, vpns: seq<Vpn>, key: string, now: int)
    requires sh.vpns == was.Keys
    ensures var es, ids := Ups(was, vpns, key, now), NewIds(was, vpns);
      && HearAll(sh, es) == sh.(vpns := was.Keys + SetOf(ids))
      && (AllExpected(sh, es) <==> Distinct(ids))
  {
    if vpns == [] {
      assert was.Keys + {} == was.Keys;
    } else {
      hide HearAll, AllExpected, Distinct, SetOf;
      var before, last := vpns[..|vpns| - 1], vpns[|vpns| - 1];
      UpsHeard(sh, was, before, key, now);
      if last.connected && last.id !in was {
        OneMoreUp(sh, Ups(was, before, key, now), NewIds(was, before), last.id, key, now);
      }
    }
  }

  lemma {:induction false} DownsHeard(sh: Shadow, order: seq<string>, key: string, now: int)
    requires Distinct(order) && SetOf(order) <= sh.vpns
    ensures HearAll(sh, Downs(order, key, now)) == sh.(vpns := sh.vpns - SetOf(order))
    ensures AllExpected(sh, Downs(order, key, now))
  {
    if order != [] {
      var before, last := order[..|order| - 1], order[|order| - 1];
      assert order == before + [last];
      OneMoreId(before, last);
      DownsHeard(sh, before, key, now);
      HearMore(sh, Downs(before, key, now), VpnDown(last, key, now));
    }
  }

  lemma {:induction false} VisitsDistinct(order: seq<string>, ids: set<string>)
    requires Visits(order, ids)
    ensures Distinct(order) && SetOf(order) == ids
  {
    if order == [] {
      forall id ensures id !in ids {
        assert id in ids <==> id in multiset(ids);
      }
    } else {
      var before, last := order[..|order| - 1], order[|order| - 1];
      assert order == before + [last];
      assert last in multiset(order);
      var rest := ids - {last};
      assert multiset(order) == multiset(before) + multiset{last};
      assert last in multiset(ids) && ids == rest + {last};
      assert multiset(ids) == multiset(rest) + multiset{last};
      assert multiset(before) == multiset(order) - multiset{last};
      assert multiset(rest) == multiset(ids) - multiset{last};
      VisitsDistinct(before, ids - {last});
      OneMoreId(before, last);
    }
  }

  lemma {:induction false} VpnFollows(d: State, vpns: seq<Vpn>, order: seq<string>, now: int)
    requires Inv(d) && Visits(order, Gone(d.vpnUp, Seen(vpns)))
    ensures var (d', es) := VpnStep(d, vpns, order, now);
      && Follows(d, d', es)
      && (AllExpected(ShadowOf(d), es) <==> Distinct(NewIds(d.vpnUp, vpns)))
  {
    hide Visits, AllExpected, HearAll, Distinct, SetOf;
    var sh, seen, ids := ShadowOf(d), Seen(vpns), NewIds(d.vpnUp, vpns);
    var ups, downs := Ups(d.vpnUp, vpns, d.primaryKey, now), Downs(order, d.primaryKey, now);
    UpsHeard(sh, d.vpnUp, vpns, d.primaryKey, now);
    VisitsDistinct(order, Gone(d.vpnUp, seen));
    var mid := HearAll(sh, ups);
    DownsHeard(mid, order, d.primaryKey, now);
    HearConcat(sh, ups, downs);
    forall id ensures id in seen.Keys <==> id in mid.vpns - SetOf(order) {
      SeenKeys(vpns, d.vpnUp, id);
    }
    assert mid.vpns - SetOf(order) == seen.Keys;
  }

  // ---- one apply ----

  lemma {:induction false} ApplyFollows(d: State, v: View, now: int, order: seq<string>)
    requires Inv(d) && Visits(order, Gone(d.vpnUp, Seen(v.vpns)))
    ensures var (d', es) := Apply(d, v, now, order);
      && Follows(d, d', es)
      && (AllExpected(ShadowOf(d), es) <==> Distinct(NewIds(d.vpnUp, v.vpns)))
  {
    hide Visits, Gone, Seen, NewIds, Distinct, AllExpected, HearAll, PrimaryStep, ConnectivityStep, VpnStep, Flush;
    var sh := ShadowOf(d);
    var (d1, e1) := PrimaryStep(d, ConnectedPrimary(v), KeyIn(v), now);
    PrimaryFollows(d, ConnectedPrimary(v), KeyIn(v), now);
    var (d2, e2) := ConnectivityStep(d1, v.connectivity, now);
    ConnectivityFollows(d1, v.connectivity, now);
    var (d3, e3) := VpnStep(d2, v.vpns, order, now);
    VpnFollows(d2, v.vpns, order, now);
    var (d4, e4) := Flush(d3, now);
    FlushFollows(d3, now);
    HearConcat(sh, e1, e2);
    HearConcat(sh, e1 + e2, e3);
    HearConcat(sh, e1 + e2 + e3, e4);
  }

  // ---- whole runs ----

  /** One call on the deriver; order is how Go visits the vpns that went down. */
  datatype Action = Viewed(v: View, now: int, order: seq<string>) | Timer(now: int)

  function Act(d: State, a: Action): (State, seq<Event>) {
    match a
    case Viewed(v, now, order) => Apply(d, v, now, order)
    case Timer(now) => Flush(d, now)
  }

  function Run(d: State, acts: seq<Action>): (State, seq<Event>) {
    if acts == [] then (d, [])
    else
      var (d1, e1) := Run(d, acts[..|acts| - 1]);
      var (d2, e2) := Act(d1, acts[|acts| - 1]);
      (d2, e1 + e2)
  }

  ghost predicate Possible(d: State, a: Action) {
    a.Viewed? ==> Visits(a.order, Gone(d.vpnUp, Seen(a.v.vpns)))
  }

  ghost predicate PossibleRun(d: State, acts: seq<Action>) {
    acts == [] || (PossibleRun(d, acts[..|acts| - 1]) && Possible(Run(d, acts[..|acts| - 1]).0, acts[|acts| - 1]))
  }

  /** No view of the run repeats an id among its newly connected vpns. */
  predicate NoRepeats(d: State, acts: seq<Action>) {
    if acts == [] then true
    else
      && NoRepeats(d, acts[..|acts| - 1])
      && (var a := acts[|acts| - 1]; a.Viewed? ==> Distinct(NewIds(Run(d, acts[..|acts| - 1]).0.vpnUp, a.v.vpns)))
  }

  /** The state a fresh deriver takes from the first view, before its timers run. */
  function Started(debounce: int, grace: int, v: View, now: int): State {
    FirstView(Initial(debounce, grace), v, now)
  }

  lemma {:induction false} StartedIsSound(debounce: int, grace: int, v: View, now: int, order: seq<string>)
    ensures Inv(Started(debounce, grace, v, now))
    ensures Apply(Initial(debounce, grace), v, now, order) == Flush(Started(debounce, grace, v, now), now)
  {
  }

  /** Replaying the events of any run reconstructs the deriver: a network is
      announced exactly when one is primary or its disconnect is pending, an
      outstanding no-internet, the vpns that are up and the monitored key are all
      what the events say; and every event is one its listener expects exactly
      when no view repeats a newly connected vpn id. */
  lemma {:induction false} EventsReconstruct(d: State, acts: seq<Action>)
    requires Inv(d) && PossibleRun(d, acts)
    ensures var (d', es) := Run(d, acts);
      && Follows(d, d', es)
      && (AllExpected(ShadowOf(d), es) <==> NoRepeats(d, acts))
  {
    if acts != [] {
      hide Possible, Apply, Flush, Inv, AllExpected, HearAll, Distinct, NewIds;
      var before, a := acts[..|acts| - 1], acts[|acts| - 1];
      var (d1, e1) := Run(d, before);
      EventsReconstruct(d, before);
      ActFollows(d1, a);
      HearConcat(ShadowOf(d), e1, Act(d1, a).1);
    }
  }

  lemma {:induction false} ActFollows(d: State, a: Action)
    requires Inv(d) && Possible(d, a)
    ensures var (d', es) := Act(d, a);
      && Follows(d, d', es)
      && (AllExpected(ShadowOf(d), es) <==> (a.Viewed? ==> Distinct(NewIds(d.vpnUp, a.v.vpns))))
  {
    hide Apply, Flush, AllExpected, HearAll, Distinct, NewIds, Inv;
    match a
    case Viewed(v, now, order) => ApplyFollows(d, v, now, order);
    case Timer(now) => FlushFollows(d, now);
  }

  /** The whole life of a deriver, from the first view on. */
  lemma {:induction false} LifeReconstructs(debounce: int, grace: int, v: View, now: int, acts: seq<Action>)
    requires PossibleRun(Started(debounce, grace, v, now), [Timer(now)] + acts)
    ensures var d := Started(debounce, grace, v, now);
      var (d', es) := Run(d, [Timer(now)] + acts);
      && Inv(d')
      && ShadowOf(d') == HearAll(Shadow(ConnectedPrimary(v).Some?, false, Seen(v.vpns).Keys, KeyIn(v)), es)
      && (AllExpected(ShadowOf(d), es) <==> NoRepeats(d, [Timer(now)] + acts))
  {
    var d := Started(debounce, grace, v, now);
    StartedIsSound(debounce, grace, v, now, []);
    EventsReconstruct(d, [Timer(now)] + acts);
    assert map[] + Seen(v.vpns) == Seen(v.vpns);
  }

  // ---- what expected events mean ----

  lemma {:induction false} ExpectedAt(sh: Shadow, es: seq<Event>, j: nat)
    requires AllExpected(sh, es) && j < |es|
    ensures Expected(HearAll(sh, es[..j]), es[j])
    decreases |es|
  {
    if j < |es| - 1 {
      ExpectedAt(sh, es[..|es| - 1], j);
      assert es[..|es| - 1][..j] == es[..j];
    }
  }

  /** No two disconnected without a connected between them. */
  lemma {:induction false} SilentWhileDown(sh: Shadow, es: seq<Event>, i: nat, j: nat)
    requires i < j <= |es| && es[i].Disconnected?
    requires forall k :: i < k < j ==> !es[k].Connected?
    ensures !HearAll(sh, es[..j]).announced
    decreases j
  {
    assert es[..j][..j - 1] == es[..j - 1];
    if i < j - 1 {
      SilentWhileDown(sh, es, i, j - 1);
    }
  }

  lemma {:induction false} DisconnectsAreSeparated(sh: Shadow, es: seq<Event>, i: nat, j: nat)
    requires AllExpected(sh, es) && i < j < |es| && es[i].Disconnected? && es[j].Disconnected?
    ensures exists k :: i < k < j && es[k].Connected?
  {
    ExpectedAt(sh, es, j);
    if forall k :: i < k < j ==> !es[k].Connected? {
      SilentWhileDown(sh, es, i, j);
    }
  }

  /** An outstanding no-internet goes back to a no-internet event that nothing has
      ended since. */
  lemma {:induction false} OutstandingSince(sh: Shadow, es: seq<Event>, j: nat) returns (i: nat)
    requires !sh.noInternet && j <= |es| && HearAll(sh, es[..j]).noInternet
    ensures i < j && es[i].NoInternet?
    ensures forall k :: i < k < j ==> !es[k].Restored? && !es[k].Connected? && !es[k].Disconnected?
    decreases j
  {
    assert es[..0] == [] && HearAll(sh, []) == sh;
    assert es[..j][..j - 1] == es[..j - 1];
    if es[j - 1].NoInternet? {
      i := j - 1;
    } else {
      i := OutstandingSince(sh, es, j - 1);
    }
  }

  /** Nothing that ends an outstanding no-internet happens between i and j. */
  predicate QuietBetween(es: seq<Event>, i: nat, j: nat)
    requires i < j < |es|
  {
    forall k :: i < k < j ==> !es[k].Restored? && !es[k].Connected? && !es[k].Disconnected?
  }

  lemma {:induction false} RestoredAnswersNoInternet(sh: Shadow, es: seq<Event>, j: nat)
    requires !sh.noInternet && AllExpected(sh, es) && j < |es| && es[j].Restored?
    ensures exists i :: 0 <= i < j && es[i].NoInternet? && QuietBetween(es, i, j)
  {
    ExpectedAt(sh, es, j);
    var i := OutstandingSince(sh, es, j);
  }

  lemma {:induction false} VpnStays(sh: Shadow, es: seq<Event>, id: string, i: nat, j: nat)
    requires i < j <= |es|
    ensures es[i].VpnUp? && es[i].id == id && (forall k :: i < k < j ==> !(es[k].VpnDown? && es[k].id == id)) ==>
      id in HearAll(sh, es[..j]).vpns
    ensures es[i].VpnDown? && es[i].id == id && (forall k :: i < k < j ==> !(es[k].VpnUp? && es[k].id == id)) ==>
      id !in HearAll(sh, es[..j]).vpns
    decreases j
  {
    assert es[..j][..j - 1] == es[..j - 1];
    if i < j - 1 {
      VpnStays(sh, es, id, i, j - 1);
    }
  }

  /** Per id, vpn-up and vpn-down alternate. */
  lemma {:induction false} VpnEventsAlternate(sh: Shadow, es: seq<Event>, id: string, i: nat, j: nat)
    requires AllExpected(sh, es) && i < j < |es|
    ensures es[i].VpnUp? && es[j].VpnUp? && es[i].id == es[j].id == id ==>
      exists k :: i < k < j && es[k].VpnDown? && es[k].id == id
    ensures es[i].VpnDown? && es[j].VpnDown? && es[i].id == es[j].id == id ==>
      exists k :: i < k < j && es[k].VpnUp? && es[k].id == id
  {
    ExpectedAt(sh, es, j);
    VpnStays(sh, es, id, i, j);
  }

  lemma {:induction false} UpsTwice(was: map<string, Vpn>, v: Vpn, key: string, now: int)
    requires v.connected && v.id !in was
    ensures Ups(was, [v, v], key, now) == [VpnUp(v.id, key, now), VpnUp(v.id, key, now)]
    ensures NewIds(was, [v, v]) == [v.id] + [v.id]
  {
    assert [v, v][..1] == [v] && [v][..0] == [];
    assert NewIds(was, [v]) == [v.id] && Ups(was, [v], key, now) == [VpnUp(v.id, key, now)];
  }

  /** The guard is needed: a view that lists a newly connected vpn twice announces it
      twice, and the second announcement is not one a listener expects. */
  lemma {:induction false} RepeatedIdIsAnnouncedTwice(sh: Shadow, was: map<string, Vpn>, v: Vpn, key: string, now: int)
    requires sh.vpns == was.Keys && v.connected && v.id !in was
    ensures var e := VpnUp(v.id, key, now);
      && Ups(was, [v, v], key, now) == [e, e]
      && !AllExpected(sh, Ups(was, [v, v], key, now))
  {
    hide *;
    UpsTwice(was, v, key, now);
    OneMoreId([v.id], v.id);
    UpsHeard(sh, was, [v, v], key, now);
  }

  lemma {:induction false} UpsByIndex(was: map<string, Vpn>, vpns: seq<Vpn>, key: string, now: int)
    ensures var es, ids := Ups(was, vpns, key, now), NewIds(was, vpns);
      |es| == |ids| && forall i :: 0 <= i < |es| ==> es[i] == VpnUp(ids[i], key, now)
  {
    if vpns != [] {
      UpsByIndex(was, vpns[..|vpns| - 1], key, now);
    }
  }

  lemma {:induction false} RepeatedAt(ids: seq<string>) returns (p: nat, q: nat)
    requires !Distinct(ids)
    ensures p < q < |ids| && ids[p] == ids[q]
  {
    var before, last := ids[..|ids| - 1], ids[|ids| - 1];
    if last in before {
      p :| p < |before| && before[p] == last;
      q := |ids| - 1;
    } else {
      p, q := RepeatedAt(before);
    }
  }

  /** Two vpn-ups of the same id at i and j with no vpn-down of it between them. */
  ghost predicate UpTwice(es: seq<Event>, i: nat, j: nat) {
    && i < j < |es| && es[i].VpnUp? && es[j].VpnUp? && es[i].id == es[j].id
    && forall k :: i < k < j ==> !(es[k].VpnDown? && es[k].id == es[i].id)
  }

  /** Two vpn-downs of the same id with no vpn-up of it between them. */
  ghost predicate DownTwice(es: seq<Event>, i: nat, j: nat) {
    && i < j < |es| && es[i].VpnDown? && es[j].VpnDown? && es[i].id == es[j].id
    && forall k :: i < k < j ==> !(es[k].VpnUp? && es[k].id == es[i].id)
  }

  /** Per id, vpn-ups and vpn-downs take turns. */
  ghost predicate Alternates(es: seq<Event>) {
    forall i: nat, j: nat :: !UpTwice(es, i, j) && !DownTwice(es, i, j)
  }

  /** One view that repeats a new id. */
  lemma {:induction false} ViewRepeats(d: State, v: View, now: int, order: seq<string>)
    requires d.initialized && !Distinct(NewIds(d.vpnUp, v.vpns))
    ensures exists i: nat, j: nat :: UpTwice(Apply(d, v, now, order).1, i, j)
  {
    hide PrimaryStep, ConnectivityStep, Flush, Ups, Downs, NewIds, Distinct;
    var (d1, e1) := PrimaryStep(d, ConnectedPrimary(v), KeyIn(v), now);
    var (d2, e2) := ConnectivityStep(d1, v.connectivity, now);
    VpnsRemain(d, ConnectedPrimary(v), KeyIn(v), now, v.connectivity);
    var ups, downs := Ups(d2.vpnUp, v.vpns, d2.primaryKey, now), Downs(order, d2.primaryKey, now);
    var e4 := Flush(VpnStep(d2, v.vpns, order, now).0, now).1;
    UpsByIndex(d2.vpnUp, v.vpns, d2.primaryKey, now);
    var p, q := RepeatedAt(NewIds(d2.vpnUp, v.vpns));
    var es := Apply(d, v, now, order).1;
    assert es == (e1 + e2) + ups + (downs + e4);
    UpTwiceWithin(e1 + e2, ups, downs + e4, p, q);
  }

  lemma {:induction false} VpnsRemain(d: State, cur: Option<Active>, key: string, now: int, conn: Connectivity)
    ensures var d1 := PrimaryStep(d, cur, key, now).0;
      d1.vpnUp == d.vpnUp && ConnectivityStep(d1, conn, now).0.vpnUp == d.vpnUp
  {
  }

  lemma {:induction false} UpTwiceWithin(before: seq<Event>, ups: seq<Event>, after: seq<Event>, p: nat, q: nat)
    requires p < q < |ups| && (forall i :: 0 <= i < |ups| ==> ups[i].VpnUp?) && ups[p].id == ups[q].id
    ensures UpTwice(before + ups + after, |before| + p, |before| + q)
  {
    var es, n := before + ups + after, |before|;
    assert forall k :: n <= k < n + |ups| ==> es[k] == ups[k - n];
  }

  /** Over whole runs: if any view repeats a newly connected id, the vpn-ups and vpn-downs
      of that id do not alternate in the events of the run. */
  lemma {:induction false} RepeatBreaksAlternation(d: State, acts: seq<Action>)
    requires Inv(d) && !NoRepeats(d, acts)
    ensures exists i: nat, j: nat :: UpTwice(Run(d, acts).1, i, j)
  {
    hide Inv, Apply, Flush, Distinct, NewIds;
    var before, a := acts[..|acts| - 1], acts[|acts| - 1];
    var (d1, e1) := Run(d, before);
    var e2 := Act(d1, a).1;
    assert Run(d, acts).1 == e1 + e2;
    if !NoRepeats(d, before) {
      RepeatBreaksAlternation(d, before);
      var i: nat, j: nat :| UpTwice(e1, i, j);
      assert UpTwice(Run(d, acts).1, i, j);
    } else {
      StaysInitialized(d, before);
      ViewRepeats(d1, a.v, a.now, a.order);
      var i: nat, j: nat :| UpTwice(e2, i, j);
      UpTwiceShifts(e1, e2, i, j);
      assert UpTwice(Run(d, acts).1, |e1| + i, |e1| + j);
    }
  }

  lemma {:induction false} UpTwiceShifts(before: seq<Event>, es: seq<Event>, i: nat, j: nat)
    requires UpTwice(es, i, j)
    ensures UpTwice(before + es, |before| + i, |before| + j)
  {
    forall k | |before| + i < k < |before| + j
      ensures !((before + es)[k].VpnDown? && (before + es)[k].id == es[i].id) {
      assert (before + es)[k] == es[k - |before|];
    }
  }

  lemma {:induction false} StaysInitialized(d: State, acts: seq<Action>)
    requires Inv(d)
    ensures Run(d, acts).0.initialized
  {
    if acts != [] {
      StaysInitialized(d, acts[..|acts| - 1]);
      hide Seen, Ups, Downs, NetworkKey, PrimaryStep, ConnectivityStep;
      InitializedStep(Run(d, acts[..|acts| - 1]).0, acts[|acts| - 1]);
    }
  }

  lemma {:induction false} InitializedStep(d: State, a: Action)
    requires d.initialized
    ensures Act(d, a).0.initialized
  {
  }

  /** Exactly: vpn-ups alternate with vpn-downs per id, over any run, if and only if no
      view repeats a newly connected id. */
  lemma {:induction false} AlternationExactly(d: State, acts: seq<Action>)
    requires Inv(d) && PossibleRun(d, acts)
    ensures Alternates(Run(d, acts).1) <==> NoRepeats(d, acts)
  {
    hide Inv, Run, NoRepeats, AllExpected, PossibleRun;
    EventsReconstruct(d, acts);
    if NoRepeats(d, acts) {
      var es := Run(d, acts).1;
      forall i: nat, j: nat ensures !UpTwice(es, i, j) && !DownTwice(es, i, j) {
        if i < j < |es| && (es[i].VpnUp? || es[i].VpnDown?) {
          VpnEventsAlternate(ShadowOf(d), es, es[i].id, i, j);
        }
      }
    } else {
      RepeatBreaksAlternation(d, acts);
    }
  }

  // ---- timers ----

  /** Deadlines lie after the zero instant, which nextDeadline uses for "none". */
  ghost predicate Timed(d: State) {
    && (d.pendingDisc.Some? ==> d.pendingDisc.value.at > 0)
    && (d.pendingNoNet.Some? ==> d.pendingNoNet.value.since > 0)
  }

  lemma {:induction false} ActTimed(d: State, a: Action)
    requires Timed(d) && a.now > 0
    ensures Timed(Act(d, a).0)
  {
    hide Seen, Ups, Downs, NetworkKey;
    match a
    case Timer(now) => FlushTimed(d, now);
    case Viewed(v, now, order) =>
      if d.initialized {
        var d1 := PrimaryStep(d, ConnectedPrimary(v), KeyIn(v), now).0;
        var d2 := ConnectivityStep(d1, v.connectivity, now).0;
        PrimaryTimed(d, ConnectedPrimary(v), KeyIn(v), now);
        assert Timed(d2);
        hide PrimaryStep, ConnectivityStep;
        FlushTimed(VpnStep(d2, v.vpns, order, now).0, now);
      } else {
        FlushTimed(FirstView(d, v, now), now);
      }
  }

  lemma {:induction false} PrimaryTimed(d: State, cur: Option<Active>, key: string, now: int)
    requires Timed(d) && now > 0
    ensures Timed(PrimaryStep(d, cur, key, now).0)
  {
  }

  lemma {:induction false} FlushTimed(d: State, now: int)
    requires Timed(d)
    ensures Timed(Flush(d, now).0)
  {
  }

  /** flush emits at most one event, exactly when nextDeadline has come, and leaves
      no deadline that has. */
  lemma {:induction false} FlushIsExact(d: State, now: int)
    requires Inv(d) && Timed(d)
    ensures var (d', es) := Flush(d, now);
      && |es| <= 1
      && (es != [] <==> NextDeadline(d).1 && NextDeadline(d).0 <= now)
      && (NextDeadline(d').1 ==> NextDeadline(d').0 > now)
  {
    FlushShape(d, now);
  }

  /** Every reachable state of a deriver that is shown positive instants. */
  lemma {:induction false} RunTimed(d: State, acts: seq<Action>)
    requires Timed(d) && forall i :: 0 <= i < |acts| ==> acts[i].now > 0
    ensures Timed(Run(d, acts).0)
  {
    if acts != [] {
      RunTimed(d, acts[..|acts| - 1]);
      ActTimed(Run(d, acts[..|acts| - 1]).0, acts[|acts| - 1]);
    }
  }

  // ---- deriving twice is harmless ----

  /** What one apply leaves behind: the primary is the view's, its connectivity has
      been taken in, its vpns are the ones that are up, and no timer is due. */
  ghost predicate Absorbed(d: State, v: View, now: int) {
    && d.initialized && d.vpnUp == Seen(v.vpns)
    && d.primary == ConnectedPrimary(v) && d.primaryKey == KeyIn(v)
    && d.primaryName == (if d.primary.Some? then d.primary.value.name else "")
    && (d.primary.Some? && IsBad(v.connectivity) && !d.noInternet ==>
         d.pendingNoNet.Some? && d.pendingNoNet.value.conn == v.connectivity)
    && (d.primary.Some? && v.connectivity == Full ==> !d.noInternet && d.pendingNoNet == None)
    && !DiscDue(d, now) && !NoNetDue(d, now)
  }

  lemma {:induction false} FlushAbsorbs(d: State, v: View, now: int)
    requires Inv(d) && d.vpnUp == Seen(v.vpns)
    requires d.primary == ConnectedPrimary(v) && d.primaryKey == KeyIn(v)
    requires d.primaryName == (if d.primary.Some? then d.primary.value.name else "")
    requires d.primary.Some? && IsBad(v.connectivity) && !d.noInternet ==>
      d.pendingNoNet.Some? && d.pendingNoNet.value.conn == v.connectivity
    requires d.primary.Some? && v.connectivity == Full ==> !d.noInternet && d.pendingNoNet == None
    ensures Absorbed(Flush(d, now).0, v, now)
  {
    hide Seen, NetworkKey;
    FlushShape(d, now);
  }

  lemma {:induction false} ApplyAbsorbs(d: State, v: View, now: int, order: seq<string>)
    requires Inv(d)
    ensures Absorbed(Apply(d, v, now, order).0, v, now)
  {
    hide Seen, Ups, Downs, NetworkKey;
    var cur, key := ConnectedPrimary(v), KeyIn(v);
    var d1 := PrimaryStep(d, cur, key, now).0;
    PrimaryFollows(d, cur, key, now);
    PrimaryAbsorbs(d, cur, key, now);
    var d2 := ConnectivityStep(d1, v.connectivity, now).0;
    ConnectivityFollows(d1, v.connectivity, now);
    hide PrimaryStep, Absorbed, Flush;
    FlushAbsorbs(d2.(vpnUp := Seen(v.vpns)), v, now);
  }

  lemma {:induction false} PrimaryAbsorbs(d: State, cur: Option<Active>, key: string, now: int)
    requires Inv(d) && (key == "" <==> cur == None)
    ensures var d' := PrimaryStep(d, cur, key, now).0;
      d'.primary == cur && d'.primaryKey == key && d'.primaryName == (if cur.Some? then cur.value.name else "")
  {
  }

  /** Only the monitored gateway may be refreshed by the view a state has absorbed. */
  function Refreshed(d: State): State {
    if d.primary.Some? && GatewayOf(d.primary) != "" && d.monitorKey == d.primaryKey
    then d.(monitorGateway := GatewayOf(d.primary)) else d
  }

  /** A state that has absorbed a view makes of it, at any later instant, exactly what
      its timers make of that instant; at most the monitored gateway is refreshed. */
  lemma {:induction false} AbsorbedAgain(d: State, v: View, now: int, later: int, order: seq<string>)
    requires Inv(d) && Absorbed(d, v, now) && Visits(order, Gone(d.vpnUp, Seen(v.vpns)))
    ensures Apply(d, v, later, order) == Flush(Refreshed(d), later)
    ensures Flush(Refreshed(d), later).1 == Flush(d, later).1
    ensures later == now ==> Apply(d, v, later, order) == (Refreshed(d), [])
  {
    var d' := Refreshed(d);
    NothingGone(d.vpnUp, order);
    NothingNew(d.vpnUp, v.vpns, d.primaryKey, later);
    hide Seen, Ups, Downs, NetworkKey, Visits;
    assert PrimaryStep(d, ConnectedPrimary(v), KeyIn(v), later) == (d', []);
    assert ConnectivityStep(d', v.connectivity, later) == (d', []);
    assert Ups(d'.vpnUp, v.vpns, d'.primaryKey, later) + Downs(order, d'.primaryKey, later) == [];
    assert VpnStep(d', v.vpns, order, later) == (d', []);
    FlushShape(d', later);
    hide PrimaryStep, ConnectivityStep, VpnStep;
    assert [] + [] + [] + Flush(d', later).1 == Flush(d', later).1;
  }

  lemma {:induction false} NothingGone(was: map<string, Vpn>, order: seq<string>)
    requires Visits(order, Gone(was, was))
    ensures order == []
  {
    assert Gone(was, was) == {};
    assert |multiset(order)| == 0;
  }

  lemma {:induction false} NothingNew(was: map<string, Vpn>, vpns: seq<Vpn>, key: string, now: int)
    requires was == Seen(vpns)
    ensures Ups(was, vpns, key, now) == []
  {
    if Ups(was, vpns, key, now) != [] {
      UpIsNew(was, vpns, key, now, 0);
    }
  }

  lemma {:induction false} UpIsNew(was: map<string, Vpn>, vpns: seq<Vpn>, key: string, now: int, i: nat)
    requires i < |Ups(was, vpns, key, now)|
    ensures var e := Ups(was, vpns, key, now)[i]; e.VpnUp? && e.id !in was && e.id in Seen(vpns)
  {
    var before, last := vpns[..|vpns| - 1], vpns[|vpns| - 1];
    if i < |Ups(was, before, key, now)| {
      UpIsNew(was, before, key, now, i);
    }
  }

  /** Deriving twice is harmless: showing the same view again, at the same instant or any
      later one, emits exactly what the timers emit by then without it (nothing at the
      same instant), from a fresh deriver and from any later state. */
  lemma {:induction false} DerivingTwiceIsHarmless(d: State, v: View, now: int, later: int, order: seq<string>, order': seq<string>)
    requires Inv(d) || exists db, gr :: d == Initial(db, gr)
    requires d.initialized ==> Visits(order, Gone(d.vpnUp, Seen(v.vpns)))
    requires now <= later && Visits(order', Gone(Apply(d, v, now, order).0.vpnUp, Seen(v.vpns)))
    ensures var d' := Apply(d, v, now, order).0;
      && Apply(d', v, later, order') == Flush(Refreshed(d'), later)
      && Apply(d', v, later, order').1 == Flush(d', later).1
      && (later == now ==> Apply(d', v, later, order') == (Refreshed(d'), []))
  {
    hide Apply, Absorbed, Visits, Flush, Refreshed;
    var d' := Apply(d, v, now, order).0;
    if Inv(d) {
      ApplyFollows(d, v, now, order);
      ApplyAbsorbs(d, v, now, order);
    } else {
      var db, gr :| d == Initial(db, gr);
      FirstAbsorbs(db, gr, v, now, order);
    }
    AbsorbedAgain(d', v, now, later, order');
  }

  lemma {:induction false} StartedTakes(debounce: int, grace: int, v: View, now: int)
    ensures var d := Started(debounce, grace, v, now);
      && d.vpnUp == Seen(v.vpns) && d.primary == ConnectedPrimary(v) && d.primaryKey == KeyIn(v)
      && d.primaryName == (if d.primary.Some? then d.primary.value.name else "")
      && (d.primary.Some? && IsBad(v.connectivity) && !d.noInternet ==>
           d.pendingNoNet.Some? && d.pendingNoNet.value.conn == v.connectivity)
      && (d.primary.Some? && v.connectivity == Full ==> !d.noInternet && d.pendingNoNet == None)
  {
    assert map[] + Seen(v.vpns) == Seen(v.vpns);
  }

  lemma {:induction false} FirstAbsorbs(debounce: int, grace: int, v: View, now: int, order: seq<string>)
    ensures var d' := Apply(Initial(debounce, grace), v, now, order).0; Inv(d') && Absorbed(d', v, now)
  {
    hide Apply, Flush, Absorbed, Started, HearAll, AllExpected;
    var d := Started(debounce, grace, v, now);
    StartedIsSound(debounce, grace, v, now, order);
    StartedTakes(debounce, grace, v, now);
    FlushFollows(d, now);
    FlushAbsorbs(d, v, now);
  }

  // ---- a roam is silent ----

  predicate AboutPrimary(e: Event) { !e.VpnUp? && !e.VpnDown? }
  predicate AboutNetwork(e: Event) { e.Connected? || e.Disconnected? }

  /** Something seen while the primary is gone and its disconnect not yet due. */
  predicate InGap(a: Action, deadline: int) {
    a.now < deadline && (a.Viewed? ==> ConnectedPrimary(a.v) == None)
  }

  ghost predicate Dropped(d: State) { d.initialized && d.primary == None && d.pendingDisc.Some? }

  function Deadline(d: State): int
    requires d.pendingDisc.Some?
  {
    d.pendingDisc.value.at + d.debounce
  }

  lemma {:induction false} UpsAreVpn(was: map<string, Vpn>, vpns: seq<Vpn>, key: string, now: int, e: Event)
    requires e in Ups(was, vpns, key, now)
    ensures e.VpnUp?
  {
    if vpns != [] && e in Ups(was, vpns[..|vpns| - 1], key, now) {
      UpsAreVpn(was, vpns[..|vpns| - 1], key, now, e);
    }
  }

  lemma {:induction false} DownsAreVpn(order: seq<string>, key: string, now: int, e: Event)
    requires e in Downs(order, key, now)
    ensures e.VpnDown?
  {
    if order != [] && e in Downs(order[..|order| - 1], key, now) {
      DownsAreVpn(order[..|order| - 1], key, now, e);
    }
  }

  lemma {:induction false} VpnStepQuiet(d: State, vpns: seq<Vpn>, order: seq<string>, now: int)
    ensures forall e :: e in VpnStep(d, vpns, order, now).1 ==> !AboutPrimary(e)
  {
    forall e | e in VpnStep(d, vpns, order, now).1 ensures !AboutPrimary(e) {
      if e in Ups(d.vpnUp, vpns, d.primaryKey, now) {
        UpsAreVpn(d.vpnUp, vpns, d.primaryKey, now, e);
      } else {
        DownsAreVpn(order, d.primaryKey, now, e);
      }
    }
  }

  /** In the gap nothing but vpn events happens and nothing but the vpns changes. */
  lemma {:induction false} GapStep(d: State, a: Action)
    requires Dropped(d) && InGap(a, Deadline(d))
    ensures Act(d, a).0 == d.(vpnUp := Act(d, a).0.vpnUp)
    ensures forall e :: e in Act(d, a).1 ==> !AboutPrimary(e)
  {
    if a.Viewed? {
      hide Seen, Ups, Downs, NetworkKey;
      VpnStepQuiet(d, a.v.vpns, a.order, a.now);
      assert PrimaryStep(d, None, KeyIn(a.v), a.now) == (d, []);
      assert ConnectivityStep(d, a.v.connectivity, a.now) == (d, []);
      var d3 := VpnStep(d, a.v.vpns, a.order, a.now).0;
      assert Flush(d3, a.now) == (d3, []);
    }
  }

  lemma {:induction false} GapIsSilent(d: State, acts: seq<Action>)
    requires Dropped(d) && forall i :: 0 <= i < |acts| ==> InGap(acts[i], Deadline(d))
    ensures Run(d, acts).0 == d.(vpnUp := Run(d, acts).0.vpnUp)
    ensures forall e :: e in Run(d, acts).1 ==> !AboutPrimary(e)
  {
    if acts != [] {
      hide Act;
      GapIsSilent(d, acts[..|acts| - 1]);
      GapStep(Run(d, acts[..|acts| - 1]).0, acts[|acts| - 1]);
    }
  }

  lemma {:induction false} DropStep(d: State, v: View, now: int, order: seq<string>)
    requires Inv(d) && d.primary.Some? && d.debounce > 0 && ConnectedPrimary(v) == None
    ensures var (d', es) := Apply(d, v, now, order);
      && Dropped(d') && Deadline(d') == now + d.debounce && d'.pendingDisc.value.key == d.primaryKey
      && d'.noInternet == d.noInternet && d'.pendingNoNet == d.pendingNoNet
      && d'.monitorKey == d.monitorKey && d'.monitorGateway == d.monitorGateway
      && d'.grace == d.grace
      && forall e :: e in es ==> !AboutPrimary(e)
  {
    hide Seen, Ups, Downs, NetworkKey;
    var (d1, e1) := PrimaryStep(d, None, KeyIn(v), now);
    VpnStepQuiet(d1, v.vpns, order, now);
    assert ConnectivityStep(d1, v.connectivity, now) == (d1, []);
    var d3 := VpnStep(d1, v.vpns, order, now).0;
    assert Flush(d3, now) == (d3, []);
  }

  /** The reconnecting view: no connected and no disconnected, the monitor stays on
      its network, an outstanding no-internet survives unless this very view brings
      full connectivity, which then says restored. */
  lemma {:induction false} RoamStep(d: State, v: View, now: int, order: seq<string>)
    requires Dropped(d) && ConnectedPrimary(v).Some? && KeyIn(v) == d.pendingDisc.value.key
    requires d.noInternet ==> d.pendingNoNet == None
    ensures var (d', es) := Apply(d, v, now, order);
      && (forall e :: e in es ==> !AboutNetwork(e))
      && d'.monitorKey == d.monitorKey && d'.monitorGateway == d.monitorGateway
      && d'.primary == ConnectedPrimary(v)
      && (d.noInternet && v.connectivity != Full ==> d'.noInternet && forall e :: e in es ==> !AboutPrimary(e))
      && (d.noInternet && v.connectivity == Full ==> Restored(KeyIn(v), now) in es)
  {
    hide Seen, Ups, Downs, NetworkKey;
    var cur, key := ConnectedPrimary(v), KeyIn(v);
    var (d1, e1) := PrimaryStep(d, cur, key, now);
    assert e1 == [];
    var (d2, e2) := ConnectivityStep(d1, v.connectivity, now);
    VpnStepQuiet(d2, v.vpns, order, now);
    var (d3, e3) := VpnStep(d2, v.vpns, order, now);
    var (d4, e4) := Flush(d3, now);
    hide PrimaryStep, ConnectivityStep, VpnStep, Flush;
    assert Apply(d, v, now, order) == (d4, e1 + e2 + e3 + e4);
  }

  /** A roam is silent: a drop followed, before any timer at or past its deadline, by
      a reconnect with the same key emits neither connected nor disconnected through
      any number of views in between, leaves the monitored network alone, and keeps
      an outstanding no-internet. */
  lemma {:induction false} RoamIsSilent(d: State, v0: View, t0: int, o0: seq<string>, gap: seq<Action>, v1: View, t1: int, o1: seq<string>)
    requires Inv(d) && d.primary.Some? && d.debounce > 0 && ConnectedPrimary(v0) == None
    requires forall i :: 0 <= i < |gap| ==> InGap(gap[i], t0 + d.debounce)
    requires ConnectedPrimary(v1).Some? && KeyIn(v1) == d.primaryKey
    ensures var (d1, e1) := Apply(d, v0, t0, o0);
      var (d2, e2) := Run(d1, gap);
      var (d3, e3) := Apply(d2, v1, t1, o1);
      && (forall e :: e in e1 + e2 + e3 ==> !AboutNetwork(e))
      && d.monitorKey == d1.monitorKey == d2.monitorKey == d3.monitorKey
      && d.monitorGateway == d1.monitorGateway == d2.monitorGateway == d3.monitorGateway
      && (d.noInternet && v1.connectivity != Full ==> d3.noInternet)
      && (d.noInternet && v1.connectivity == Full ==> Restored(KeyIn(v1), t1) in e3)
  {
    hide Apply, Run, NetworkKey;
    DropStep(d, v0, t0, o0);
    var d1 := Apply(d, v0, t0, o0).0;
    GapIsSilent(d1, gap);
    RoamStep(Run(d1, gap).0, v1, t1, o1);
  }

  /** A surviving no-internet is answered: the next view of the same connection with
      full connectivity says restored. */
  lemma {:induction false} FullConnectivityRestores(d: State, v: View, now: int, order: seq<string>)
    requires Inv(d) && d.noInternet && d.primary.Some? && v.connectivity == Full
    requires ConnectedPrimary(v).Some? && ConnectedPrimary(v).value.uuid == d.primary.value.uuid
    ensures Restored(KeyIn(v), now) in Apply(d, v, now, order).1
    ensures !Apply(d, v, now, order).0.noInternet
  {
    hide Seen, Ups, Downs, NetworkKey;
    var (d1, e1) := PrimaryStep(d, ConnectedPrimary(v), KeyIn(v), now);
    var (d2, e2) := ConnectivityStep(d1, Full, now);
    assert e2 == [Restored(KeyIn(v), now)];
    var d3 := VpnStep(d2, v.vpns, order, now).0;
    assert !DiscDue(d3, now) && !NoNetDue(d3, now);
    assert Restored(KeyIn(v), now) in e1 + e2;
  }
}
