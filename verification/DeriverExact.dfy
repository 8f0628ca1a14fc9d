/** What one view, and a row of views, makes the deriver say (internal/daemon/derive.go),
    in the words of the views themselves: connects, drops that last, networks without
    internet, vpns. */
module DeriverExact {
  import opened Options
  import opened Visiting
  import opened Deriver
  import opened DeriverRuns

  // ---- reading a view ----

  /** The view shows a connected primary: activated, or with no state given. */
  predicate Connects(v: View) {
    v.primary.Some? && (v.primary.value.state == Activated || v.primary.value.state == Blank)
  }

  /** ... of this connection. */
  predicate ShowsConn(v: View, uuid: string) { Connects(v) && v.primary.value.uuid == uuid }

  /** The view shows a network without internet. */
  predicate ShowsBad(v: View) {
    v.connectivity == NoConn || v.connectivity == Limited || v.connectivity == Portal
  }

  lemma {:induction false} ViewsAreRead(v: View)
    ensures ConnectedPrimary(v) == if Connects(v) then v.primary else None
    ensures IsBad(v.connectivity) <==> ShowsBad(v)
  {
  }

  /** The key of a connected primary is wifi:<ssid> or <type>:<uuid> of the first profile
      with its uuid, and conn:<uuid> when there is none. */
  lemma {:induction false} KeyExactly(p: Active, profiles: seq<Profile>, i: nat)
    requires i <= |profiles| && forall j :: 0 <= j < i ==> profiles[j].uuid != p.uuid
    requires i < |profiles| ==> profiles[i].uuid == p.uuid
    ensures NetworkKey(Some(p), profiles) ==
      if i == |profiles| then "conn:" + p.uuid
      else if profiles[i].ptype == "wifi" && profiles[i].ssid != "" then "wifi:" + profiles[i].ssid
      else profiles[i].ptype + ":" + p.uuid
  {
    KeyIsFirstMatch(p, profiles, i);
  }

  // ---- events about the network ----

  /** The events of a row that are not about vpns, in order. */
  function NetEvents(es: seq<Event>): seq<Event> {
    if es == [] then []
    else
      var rest, e := NetEvents(es[..|es| - 1]), es[|es| - 1];
      if e.VpnUp? || e.VpnDown? then rest else rest + [e]
  }

  lemma {:induction false} NetConcat(a: seq<Event>, b: seq<Event>)
    ensures NetEvents(a + b) == NetEvents(a) + NetEvents(b)
  {
    if b == [] {
      assert a + b == a;
    } else {
      assert (a + b)[..|a + b| - 1] == a + b[..|b| - 1];
      NetConcat(a, b[..|b| - 1]);
    }
  }

  lemma {:induction false} VpnsAreNot(es: seq<Event>)
    requires forall e :: e in es ==> e.VpnUp? || e.VpnDown?
    ensures NetEvents(es) == []
  {
    if es != [] {
      assert es[|es| - 1] in es && forall e :: e in es[..|es| - 1] ==> e in es;
      VpnsAreNot(es[..|es| - 1]);
    }
  }

  lemma {:induction false} NetOne(e: Event)
    ensures NetEvents([e]) == if e.VpnUp? || e.VpnDown? then [] else [e]
  {
    assert [e][..0] == [];
  }

  /** Of the four parts of apply only the first two and the flush speak of the network. */
  lemma {:induction false} ApplyNet(d: State, v: View, now: int, order: seq<string>)
    requires d.initialized
    ensures var (d1, e1) := PrimaryStep(d, ConnectedPrimary(v), KeyIn(v), now);
      var (d2, e2) := ConnectivityStep(d1, v.connectivity, now);
      var (d4, e4) := Flush(d2.(vpnUp := Seen(v.vpns)), now);
      && Apply(d, v, now, order).0 == d4
      && NetEvents(Apply(d, v, now, order).1) == NetEvents(e1) + NetEvents(e2) + NetEvents(e4)
  {
    hide PrimaryStep, ConnectivityStep, Flush, NetworkKey, Ups, Downs, Seen;
    var (d1, e1) := PrimaryStep(d, ConnectedPrimary(v), KeyIn(v), now);
    var (d2, e2) := ConnectivityStep(d1, v.connectivity, now);
    var (d3, e3) := VpnStep(d2, v.vpns, order, now);
    var (d4, e4) := Flush(d3, now);
    forall e | e in e3 ensures e.VpnUp? || e.VpnDown? {
      VpnPartIsVpn(d2, v.vpns, order, now, e);
    }
    VpnsAreNot(e3);
    NetConcat(e1, e2);
    NetConcat(e1 + e2, e3);
    NetConcat(e1 + e2 + e3, e4);
    assert NetEvents(e1) + NetEvents(e2) + [] == NetEvents(e1) + NetEvents(e2);
  }

  lemma {:induction false} VpnPartIsVpn(d: State, vpns: seq<Vpn>, order: seq<string>, now: int, e: Event)
    ensures e in VpnStep(d, vpns, order, now).1 ==> e.VpnUp? || e.VpnDown?
  {
    hide Ups, Downs, Seen;
    if e in Ups(d.vpnUp, vpns, d.primaryKey, now) {
      UpsAreVpn(d.vpnUp, vpns, d.primaryKey, now, e);
    }
    if e in Downs(order, d.primaryKey, now) {
      DownsAreVpn(order, d.primaryKey, now, e);
    }
  }

  // ---- one connection, and no internet ----

  /** On this connection, online as far as was said, with nothing pending. */
  predicate Online(d: State, uuid: string) {
    && d.initialized && d.primary.Some? && d.primary.value.uuid == uuid
    && d.pendingDisc == None && !d.noInternet && d.pendingNoNet == None
  }

  /** On this connection, with a no-internet coming up since that instant. */
  predicate Doubtful(d: State, uuid: string, since: int) {
    && d.initialized && d.primary.Some? && d.primary.value.uuid == uuid
    && d.pendingDisc == None && !d.noInternet && d.pendingNoNet.Some? && d.pendingNoNet.value.since == since
  }

  /** On this connection, no-internet said. */
  predicate Offline(d: State, uuid: string) {
    && d.initialized && d.primary.Some? && d.primary.value.uuid == uuid
    && d.pendingDisc == None && d.noInternet && d.pendingNoNet == None
  }

  /** The key the deriver has for its network after an action. */
  function KeyAfter(d: State, a: Action): string { if a.Viewed? then KeyIn(a.v) else d.primaryKey }

  /** One action of a connection in doubt: a timer, or a view of it that is bad. */
  predicate StaysBad(a: Action, uuid: string) { a.Viewed? ==> ShowsConn(a.v, uuid) && ShowsBad(a.v) }

  /** One action on a connection that shows nothing bad. */
  predicate StaysGood(a: Action, uuid: string) { a.Viewed? ==> ShowsConn(a.v, uuid) && !ShowsBad(a.v) }

  /** A view of the same connection leaves the first part without an event. */
  lemma {:induction false} SameConn(d: State, v: View, now: int)
    requires d.initialized && d.primary.Some? && ShowsConn(v, d.primary.value.uuid)
    ensures var (d1, es) := PrimaryStep(d, ConnectedPrimary(v), KeyIn(v), now);
      && es == [] && d1.initialized && d1.primary == v.primary && d1.primaryKey == KeyIn(v)
      && d1.pendingDisc == d.pendingDisc && d1.noInternet == d.noInternet && d1.pendingNoNet == d.pendingNoNet
      && d1.grace == d.grace && d1.debounce == d.debounce
  {
    hide NetworkKey;
  }

  lemma {:induction false} NoNetEvents()
    ensures NetEvents([]) == []
  {
  }

  /** The first bad view. */
  lemma {:induction false} DoubtBegins(d: State, a: Action, uuid: string)
    requires Online(d, uuid) && a.Viewed? && StaysBad(a, uuid)
    ensures var (d', es) := Act(d, a);
      && d'.grace == d.grace
      && (a.now < a.now + d.grace ==> Doubtful(d', uuid, a.now) && NetEvents(es) == [])
      && (a.now >= a.now + d.grace ==> Offline(d', uuid) && NetEvents(es) == [NoInternet(KeyIn(a.v), a.now)])
  {
    hide NetworkKey, Seen, NetEvents, Apply, PrimaryStep;
    ApplyNet(d, a.v, a.now, a.order);
    SameConn(d, a.v, a.now);
    NoNetEvents();
    NetOne(NoInternet(KeyIn(a.v), a.now));
    assert [] + [NoInternet(KeyIn(a.v), a.now)] == [NoInternet(KeyIn(a.v), a.now)];
  }

  /** A further bad view, or a timer, in doubt: silent before the deadline, one no-internet
      at it. */
  lemma {:induction false} DoubtStep(d: State, a: Action, uuid: string, since: int)
    requires Doubtful(d, uuid, since) && StaysBad(a, uuid)
    ensures var (d', es) := Act(d, a);
      && d'.grace == d.grace
      && (a.now < since + d.grace ==> Doubtful(d', uuid, since) && NetEvents(es) == [])
      && (a.now >= since + d.grace ==> Offline(d', uuid) && NetEvents(es) == [NoInternet(KeyAfter(d, a), a.now)])
  {
    hide NetworkKey, Seen, NetEvents, Apply, PrimaryStep;
    NoNetEvents();
    NetOne(NoInternet(KeyAfter(d, a), a.now));
    assert [] + [NoInternet(KeyAfter(d, a), a.now)] == [NoInternet(KeyAfter(d, a), a.now)];
    if a.Viewed? {
      ApplyNet(d, a.v, a.now, a.order);
      SameConn(d, a.v, a.now);
    }
  }

  lemma {:induction false} DoubtLasts(d: State, acts: seq<Action>, uuid: string, t0: int)
    requires Online(d, uuid) && acts != [] && acts[0].Viewed? && acts[0].now == t0
    requires forall i :: 0 <= i < |acts| ==> StaysBad(acts[i], uuid) && acts[i].now < t0 + d.grace
    ensures var (d', es) := Run(d, acts); Doubtful(d', uuid, t0) && NetEvents(es) == [] && d'.grace == d.grace
    decreases |acts|
  {
    hide NetEvents, StaysBad, Act, Online, Doubtful, Offline;
    var before, a := acts[..|acts| - 1], acts[|acts| - 1];
    var (d1, e1) := Run(d, before);
    if before == [] {
      DoubtBegins(d, a, uuid);
    } else {
      DoubtLasts(d, before, uuid, t0);
      DoubtStep(d1, a, uuid, t0);
    }
    NoNetEvents();
    NetConcat(e1, Act(d1, a).1);
  }

  /** No internet, exactly: on one connection, nothing outstanding, from a view at t0 on that
      shows no connectivity, limited connectivity or a portal, with only such views of it
      and timers after that: nothing is said before t0 + grace, and the first view or timer
      at or after it says no-internet, once, with the connection's key. */
  lemma {:induction false} NoInternetExactly(d: State, acts: seq<Action>, uuid: string, n: nat)
    requires Online(d, uuid) && n < |acts| && acts[0].Viewed?
    requires forall i :: 0 <= i <= n ==> StaysBad(acts[i], uuid)
    requires forall i :: 0 <= i < n ==> acts[i].now < acts[0].now + d.grace
    requires acts[n].now >= acts[0].now + d.grace
    ensures var (d1, e1) := Run(d, acts[..n]);
      var (d2, e2) := Act(d1, acts[n]);
      && NetEvents(e1) == [] && NetEvents(e2) == [NoInternet(KeyAfter(d1, acts[n]), acts[n].now)]
      && Offline(d2, uuid)
  {
    hide NetEvents, StaysBad, Act, Online, Doubtful, Offline;
    NoNetEvents();
    if n == 0 {
      assert acts[..0] == [];
      DoubtBegins(d, acts[0], uuid);
    } else {
      var before := acts[..n];
      forall i | 0 <= i < |before| ensures StaysBad(before[i], uuid) && before[i].now < acts[0].now + d.grace {
        assert before[i] == acts[i];
      }
      DoubtLasts(d, before, uuid, acts[0].now);
      DoubtStep(Run(d, before).0, acts[n], uuid, acts[0].now);
    }
  }

  /** Full connectivity in between: a view of it before any view or timer at or after the
      deadline takes the doubt back, and nothing is said. */
  lemma {:induction false} FullTakesBack(d: State, acts: seq<Action>, v: View, now: int, order: seq<string>, uuid: string)
    requires Online(d, uuid) && acts != [] && acts[0].Viewed?
    requires forall i :: 0 <= i < |acts| ==> StaysBad(acts[i], uuid) && acts[i].now < acts[0].now + d.grace
    requires ShowsConn(v, uuid) && v.connectivity == Full
    ensures var (d', es) := Run(d, acts + [Viewed(v, now, order)]);
      NetEvents(es) == [] && Online(d', uuid)
  {
    hide NetworkKey, Seen, NetEvents, Apply, PrimaryStep, StaysBad;
    DoubtLasts(d, acts, uuid, acts[0].now);
    var all := acts + [Viewed(v, now, order)];
    assert all[..|acts|] == acts;
    var (d1, e1) := Run(d, acts);
    ApplyNet(d1, v, now, order);
    SameConn(d1, v, now);
    NoNetEvents();
    NetConcat(e1, Apply(d1, v, now, order).1);
    hide Run;
  }

  /** Without a bad view nothing is said. */
  lemma {:induction false} GoodIsSilent(d: State, acts: seq<Action>, uuid: string)
    requires Online(d, uuid) && forall i :: 0 <= i < |acts| ==> StaysGood(acts[i], uuid)
    ensures var (d', es) := Run(d, acts); NetEvents(es) == [] && Online(d', uuid)
    decreases |acts|
  {
    NoNetEvents();
    if acts != [] {
      hide NetEvents, StaysGood, Act, Online;
      var before, a := acts[..|acts| - 1], acts[|acts| - 1];
      GoodIsSilent(d, before, uuid);
      var (d1, e1) := Run(d, before);
      GoodStep(d1, a, uuid);
      NetConcat(e1, Act(d1, a).1);
    }
  }

  lemma {:induction false} GoodStep(d: State, a: Action, uuid: string)
    requires Online(d, uuid) && StaysGood(a, uuid)
    ensures var (d', es) := Act(d, a); NetEvents(es) == [] && Online(d', uuid)
  {
    hide NetworkKey, Seen, NetEvents, Apply, PrimaryStep;
    NoNetEvents();
    if a.Viewed? {
      ApplyNet(d, a.v, a.now, a.order);
      SameConn(d, a.v, a.now);
    }
  }

  /** And after it was said, only full connectivity is answered, with restored. */
  lemma {:induction false} OfflineStep(d: State, a: Action, uuid: string)
    requires Offline(d, uuid) && (a.Viewed? ==> ShowsConn(a.v, uuid))
    ensures var (d', es) := Act(d, a);
      if a.Viewed? && a.v.connectivity == Full then NetEvents(es) == [Restored(KeyIn(a.v), a.now)] && Online(d', uuid)
      else NetEvents(es) == [] && Offline(d', uuid)
  {
    hide NetworkKey, Seen, NetEvents, Apply, PrimaryStep;
    NoNetEvents();
    if a.Viewed? {
      ApplyNet(d, a.v, a.now, a.order);
      SameConn(d, a.v, a.now);
      NetOne(Restored(KeyIn(a.v), a.now));
      assert [] + [Restored(KeyIn(a.v), a.now)] + [] == [Restored(KeyIn(a.v), a.now)];
    }
  }

  // ---- a drop that lasts ----

  /** Dropped at that instant, and nothing said of it yet. */
  predicate Missing(d: State, key: string, at: int) {
    d.initialized && d.primary == None && d.pendingDisc.Some? && d.pendingDisc.value.key == key && d.pendingDisc.value.at == at
  }

  /** Said to be gone: no network, nothing pending, the monitor on nothing. */
  predicate Lost(d: State) {
    && d.initialized && d.primary == None && d.pendingDisc == None && !d.noInternet && d.pendingNoNet == None
    && d.monitorKey == "" && d.monitorGateway == ""
  }

  predicate StaysAway(a: Action) { a.Viewed? ==> !Connects(a.v) }

  lemma {:induction false} AwayBegins(d: State, a: Action)
    requires d.initialized && d.primary.Some? && a.Viewed? && StaysAway(a)
    ensures var (d', es) := Act(d, a);
      && d'.debounce == d.debounce
      && (a.now < a.now + d.debounce ==> Missing(d', d.primaryKey, a.now) && NetEvents(es) == [])
      && (a.now >= a.now + d.debounce ==> Lost(d') && NetEvents(es) == [Disconnected(d.primaryKey, a.now)])
  {
    hide NetworkKey, Seen, NetEvents, Apply;
    ApplyNet(d, a.v, a.now, a.order);
    NoNetEvents();
    NetOne(Disconnected(d.primaryKey, a.now));
    assert [] + [Disconnected(d.primaryKey, a.now)] == [Disconnected(d.primaryKey, a.now)];
  }

  lemma {:induction false} AwayStep(d: State, a: Action, key: string, at: int)
    requires Missing(d, key, at) && StaysAway(a)
    ensures var (d', es) := Act(d, a);
      && d'.debounce == d.debounce
      && (a.now < at + d.debounce ==> Missing(d', key, at) && NetEvents(es) == [])
      && (a.now >= at + d.debounce ==> Lost(d') && NetEvents(es) == [Disconnected(key, a.now)])
  {
    hide NetworkKey, Seen, NetEvents, Apply;
    NoNetEvents();
    NetOne(Disconnected(key, a.now));
    assert [] + [Disconnected(key, a.now)] == [Disconnected(key, a.now)];
    if a.Viewed? {
      ApplyNet(d, a.v, a.now, a.order);
    }
  }

  lemma {:induction false} AwayLasts(d: State, acts: seq<Action>, t0: int)
    requires d.initialized && d.primary.Some? && acts != [] && acts[0].Viewed? && acts[0].now == t0
    requires forall i :: 0 <= i < |acts| ==> StaysAway(acts[i]) && acts[i].now < t0 + d.debounce
    ensures var (d', es) := Run(d, acts);
      Missing(d', d.primaryKey, t0) && NetEvents(es) == [] && d'.debounce == d.debounce
    decreases |acts|
  {
    hide NetEvents, StaysAway, Act, Missing;
    var before, a := acts[..|acts| - 1], acts[|acts| - 1];
    var (d1, e1) := Run(d, before);
    if before == [] {
      AwayBegins(d, a);
    } else {
      AwayLasts(d, before, t0);
      AwayStep(d1, a, d.primaryKey, t0);
    }
    NoNetEvents();
    NetConcat(e1, Act(d1, a).1);
  }

  /** A drop, exactly: from the first view without a connected primary on, with only such
      views and timers: nothing is said before t0 + debounce, and the first view or timer at
      or after it says disconnected, once, with the key of the network that was lost. */
  lemma {:induction false} DropExactly(d: State, acts: seq<Action>, n: nat)
    requires d.initialized && d.primary.Some? && n < |acts| && acts[0].Viewed?
    requires forall i :: 0 <= i <= n ==> StaysAway(acts[i])
    requires forall i :: 0 <= i < n ==> acts[i].now < acts[0].now + d.debounce
    requires acts[n].now >= acts[0].now + d.debounce
    ensures var (d1, e1) := Run(d, acts[..n]);
      var (d2, e2) := Act(d1, acts[n]);
      && NetEvents(e1) == [] && NetEvents(e2) == [Disconnected(d.primaryKey, acts[n].now)] && Lost(d2)
  {
    hide NetEvents, StaysAway, Act, Missing, Lost;
    NoNetEvents();
    if n == 0 {
      assert acts[..0] == [];
      AwayBegins(d, acts[0]);
    } else {
      var before := acts[..n];
      forall i | 0 <= i < |before| ensures StaysAway(before[i]) && before[i].now < acts[0].now + d.debounce {
        assert before[i] == acts[i];
      }
      AwayLasts(d, before, acts[0].now);
      AwayStep(Run(d, before).0, acts[n], d.primaryKey, acts[0].now);
    }
  }

  // ---- a new network ----

  /** The view brings a network the deriver is not on: there is none, or the drop that is
      pending was of another key, or another connection is primary. */
  predicate BringsNew(d: State, v: View) {
    && Connects(v)
    && (d.primary == None ==> d.pendingDisc == None || d.pendingDisc.value.key != KeyIn(v))
    && (d.primary.Some? ==> d.primary.value.uuid != v.primary.value.uuid)
  }

  /** The first part announces it. */
  lemma {:induction false} NewIsAnnounced(d: State, v: View, now: int)
    requires BringsNew(d, v)
    ensures PrimaryStep(d, ConnectedPrimary(v), KeyIn(v), now) == Announce(d, v.primary, KeyIn(v), now)
  {
    hide NetworkKey, Announce;
  }

  /** The rest of apply, online and with nothing pending. */
  lemma {:induction false} FreshRest(d: State, c: Connectivity, up: map<string, Vpn>, now: int)
    requires d.grace > 0 && d.primary.Some? && d.pendingDisc == None && !d.noInternet && d.pendingNoNet == None
    ensures var (d2, e2) := ConnectivityStep(d, c, now);
      e2 == [] && Flush(d2.(vpnUp := up), now) ==
        (d.(vpnUp := up, pendingNoNet := if c == NoConn || c == Limited || c == Portal then Some(PendingNoNet(c, now)) else None), [])
  {
  }

  /** A new network, exactly: connected is said at once, before anything else, with its key,
      the monitor is put on its key and gateway, and nothing of the last network is left
      over: no drop to announce, and no doubt older than this view. */
  lemma {:induction false} ConnectExactly(d: State, v: View, now: int, order: seq<string>)
    requires d.initialized && d.grace > 0 && BringsNew(d, v)
    ensures var (d', es) := Apply(d, v, now, order);
      && NetEvents(es) == [Connected(KeyIn(v), now)]
      && d'.primary == v.primary && d'.primaryKey == KeyIn(v) && d'.primaryName == v.primary.value.name
      && d'.monitorKey == KeyIn(v) && d'.monitorGateway == v.primary.value.gateway
      && d'.pendingDisc == None && !d'.noInternet
      && d'.pendingNoNet == if ShowsBad(v) then Some(PendingNoNet(v.connectivity, now)) else None
  {
    hide NetworkKey, Seen, NetEvents, Apply, PrimaryStep, ConnectivityStep, Flush;
    ApplyNet(d, v, now, order);
    NewIsAnnounced(d, v, now);
    FreshRest(Announce(d, v.primary, KeyIn(v), now).0, v.connectivity, Seen(v.vpns), now);
    NoNetEvents();
    NetOne(Connected(KeyIn(v), now));
    assert [Connected(KeyIn(v), now)] + [] + [] == [Connected(KeyIn(v), now)];
  }

  /** What the first part leaves for a known connection. */
  lemma {:induction false} SameConnMonitor(d: State, v: View, now: int)
    requires d.initialized && d.primary.Some? && ShowsConn(v, d.primary.value.uuid)
    ensures var d1 := PrimaryStep(d, ConnectedPrimary(v), KeyIn(v), now).0;
      && d1.monitorKey == d.monitorKey
      && d1.monitorGateway ==
           if v.primary.value.gateway != "" && d.monitorKey == KeyIn(v) then v.primary.value.gateway else d.monitorGateway
  {
    hide NetworkKey;
  }

  /** The rest of apply leaves primary and monitor alone while no drop is pending, and
      speaks of the internet only. */
  lemma {:induction false} RestKeeps(d: State, c: Connectivity, up: map<string, Vpn>, now: int)
    requires d.pendingDisc == None
    ensures var (d2, e2) := ConnectivityStep(d, c, now);
      var (d4, e4) := Flush(d2.(vpnUp := up), now);
      && d4.primary == d.primary && d4.primaryKey == d.primaryKey
      && d4.monitorKey == d.monitorKey && d4.monitorGateway == d.monitorGateway
      && OfInternet(e2) && OfInternet(e4)
  {
  }

  predicate OfInternet(es: seq<Event>) { forall i :: 0 <= i < |es| ==> es[i].NoInternet? || es[i].Restored? }

  lemma {:induction false} OfInternetNet(es: seq<Event>)
    requires OfInternet(es)
    ensures NetEvents(es) == es
  {
    if es != [] {
      OfInternetNet(es[..|es| - 1]);
      assert es[..|es| - 1] + [es[|es| - 1]] == es;
    }
  }

  /** A known one: a view of the connection that is primary says nothing of connects, and
      refreshes what is known of it; the monitor's gateway follows when the view has one and
      the monitor is on this key. */
  lemma {:induction false} RefreshExactly(d: State, v: View, now: int, order: seq<string>)
    requires d.initialized && d.primary.Some? && d.pendingDisc == None && ShowsConn(v, d.primary.value.uuid)
    ensures var (d', es) := Apply(d, v, now, order);
      && OfInternet(NetEvents(es))
      && d'.primary == v.primary && d'.primaryKey == KeyIn(v) && d'.monitorKey == d.monitorKey
      && d'.monitorGateway ==
           if v.primary.value.gateway != "" && d.monitorKey == KeyIn(v) then v.primary.value.gateway else d.monitorGateway
  {
    hide NetworkKey, Seen, NetEvents, Apply, PrimaryStep, ConnectivityStep, Flush;
    ApplyNet(d, v, now, order);
    SameConn(d, v, now);
    SameConnMonitor(d, v, now);
    NoNetEvents();
    var d1 := PrimaryStep(d, ConnectedPrimary(v), KeyIn(v), now).0;
    var (d2, e2) := ConnectivityStep(d1, v.connectivity, now);
    RestKeeps(d1, v.connectivity, Seen(v.vpns), now);
    OfInternetNet(e2);
    OfInternetNet(Flush(d2.(vpnUp := Seen(v.vpns)), now).1);
  }

  /** The first view is taken without a word (unless no grace is given): what it shows is
      what the deriver starts from. */
  lemma {:induction false} FirstViewExactly(debounce: int, grace: int, v: View, now: int, order: seq<string>)
    requires grace > 0
    ensures var (d, es) := Apply(Initial(debounce, grace), v, now, order);
      && es == [] && d.initialized && d.grace == grace && d.debounce == (if debounce < 0 then 0 else debounce)
      && d.primary == (if Connects(v) then v.primary else None)
      && d.primaryKey == KeyIn(v) == d.monitorKey
      && d.monitorGateway == (if Connects(v) then v.primary.value.gateway else "")
      && d.pendingDisc == None && !d.noInternet
      && d.pendingNoNet == (if Connects(v) && ShowsBad(v) then Some(PendingNoNet(v.connectivity, now)) else None)
  {
    hide NetworkKey, Seen;
    assert Connects(v) <==> ConnectedPrimary(v).Some?;
  }

  // ---- vpns ----

  /** A vpn with this id is connected in the view. */
  predicate VpnShown(vpns: seq<Vpn>, id: string) { exists i :: 0 <= i < |vpns| && vpns[i].id == id && vpns[i].connected }

  lemma {:induction false} SeenExactly(vpns: seq<Vpn>, id: string)
    ensures id in Seen(vpns) <==> VpnShown(vpns, id)
  {
    if vpns != [] {
      var before, last := vpns[..|vpns| - 1], vpns[|vpns| - 1];
      SeenExactly(before, id);
      if VpnShown(before, id) {
        var i :| 0 <= i < |before| && before[i].id == id && before[i].connected;
        assert vpns[i] == before[i];
      }
      if i :| 0 <= i < |vpns| - 1 && vpns[i].id == id && vpns[i].connected {
        assert before[i] == vpns[i];
      }
    }
  }

  lemma {:induction false} UpsExactly(was: map<string, Vpn>, vpns: seq<Vpn>, key: string, now: int, e: Event)
    ensures e in Ups(was, vpns, key, now) <==> e.VpnUp? && e.key == key && e.at == now && e.id !in was && VpnShown(vpns, e.id)
  {
    if vpns != [] {
      var before, last := vpns[..|vpns| - 1], vpns[|vpns| - 1];
      UpsExactly(was, before, key, now, e);
      if e.VpnUp? {
        SeenExactly(before, e.id);
        SeenExactly(vpns, e.id);
      }
    }
  }

  lemma {:induction false} DownsExactly(order: seq<string>, key: string, now: int, e: Event)
    ensures e in Downs(order, key, now) <==> e.VpnDown? && e.key == key && e.at == now && e.id in order
  {
    if order != [] {
      DownsExactly(order[..|order| - 1], key, now, e);
    }
  }

  /** The vpns of a view, exactly: afterwards those are up that it shows connected; up is
      said of those that were not, down of those that were and are no longer. */
  lemma {:induction false} VpnsExactly(d: State, vpns: seq<Vpn>, order: seq<string>, now: int, id: string)
    requires Visits(order, Gone(d.vpnUp, Seen(vpns)))
    ensures var (d', es) := VpnStep(d, vpns, order, now);
      && (id in d'.vpnUp <==> VpnShown(vpns, id))
      && (VpnUp(id, d.primaryKey, now) in es <==> id !in d.vpnUp && VpnShown(vpns, id))
      && (VpnDown(id, d.primaryKey, now) in es <==> id in d.vpnUp && !VpnShown(vpns, id))
  {
    hide Seen, Ups, Downs, Visits;
    SeenExactly(vpns, id);
    UpsExactly(d.vpnUp, vpns, d.primaryKey, now, VpnUp(id, d.primaryKey, now));
    UpsExactly(d.vpnUp, vpns, d.primaryKey, now, VpnDown(id, d.primaryKey, now));
    DownsExactly(order, d.primaryKey, now, VpnUp(id, d.primaryKey, now));
    DownsExactly(order, d.primaryKey, now, VpnDown(id, d.primaryKey, now));
    VisitsMembers(order, Gone(d.vpnUp, Seen(vpns)));
  }
}
