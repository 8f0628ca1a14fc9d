/** The event deriver of internal/daemon/derive.go: successive views of the world
    become connected, disconnected, no-internet, restored and vpn events. */
module Deriver {
  import opened Options
  import opened Visiting

  datatype Connectivity = Unknown | NoConn | Portal | Limited | Full
  datatype ActiveState = Activating | Activated | Deactivating | Deactivated | UnknownState | Blank

  datatype Active = Active(uuid: string, name: string, state: ActiveState, gateway: string)
  datatype Profile = Profile(uuid: string, ptype: string, ssid: string)
  datatype Vpn = Vpn(id: string, connected: bool)

  datatype View = View(primary: Option<Active>, connectivity: Connectivity, profiles: seq<Profile>, vpns: seq<Vpn>)

  /** Type, network key, instant and (for vpn events) the vpn's id. */
  datatype Event =
    | Connected(key: string, at: int)
    | Disconnected(key: string, at: int)
    | NoInternet(key: string, at: int)
    | Restored(key: string, at: int)
    | VpnUp(id: string, key: string, at: int)
    | VpnDown(id: string, key: string, at: int)

  datatype PendingDisc = PendingDisc(key: string, name: string, uuid: string, at: int)
  datatype PendingNoNet = PendingNoNet(conn: Connectivity, since: int)

  /** The deriver's fields. */
  datatype State = State(
    debounce: int, grace: int,
    initialized: bool,
    primary: Option<Active>, primaryKey: string, primaryName: string,
    noInternet: bool,
    pendingDisc: Option<PendingDisc>, pendingNoNet: Option<PendingNoNet>,
    vpnUp: map<string, Vpn>,
    monitorKey: string, monitorGateway: string)

  // ---- the network key (internal/core/types.go) ----

  function ProfileKey(p: Profile): string {
    if p.ptype == "wifi" && p.ssid != "" then "wifi:" + p.ssid else p.ptype + ":" + p.uuid
  }

  /** The key of the first profile with the primary's uuid, conn:<uuid> when no
      profile has it, and "" when nothing is primary. */
  function NetworkKey(primary: Option<Active>, profiles: seq<Profile>): (key: string)
    ensures key == "" <==> primary == None
    decreases |profiles|
  {
    match primary
    case None => ""
    case Some(p) =>
      if profiles == [] then "conn:" + p.uuid
      else if profiles[0].uuid == p.uuid then ProfileKey(profiles[0])
      else NetworkKey(primary, profiles[1..])
  }

  /** The key is that of the first matching profile, whatever comes after it. */
  lemma {:induction false} KeyIsFirstMatch(p: Active, profiles: seq<Profile>, i: nat)
    requires i <= |profiles| && forall j :: 0 <= j < i ==> profiles[j].uuid != p.uuid
    requires i < |profiles| ==> profiles[i].uuid == p.uuid
    ensures NetworkKey(Some(p), profiles) == if i < |profiles| then ProfileKey(profiles[i]) else "conn:" + p.uuid
    decreases |profiles|
  {
    if i > 0 {
      KeyIsFirstMatch(p, profiles[1..], i - 1);
    }
  }

  method FindNetworkKey(primary: Option<Active>, profiles: seq<Profile>) returns (key: string)
    ensures key == NetworkKey(primary, profiles)
  {
    if primary == None {
      return "";
    }
    for i := 0 to |profiles|
      invariant NetworkKey(primary, profiles) == NetworkKey(primary, profiles[i..])
    {
      var p := profiles[i];
      if p.uuid == primary.value.uuid {
        if p.ptype == "wifi" && p.ssid != "" {
          return "wifi:" + p.ssid;
        }
        return p.ptype + ":" + p.uuid;
      }
    }
    return "conn:" + primary.value.uuid;
  }

  // ---- reading a view ----

  function ConnectedPrimary(v: View): Option<Active> {
    if v.primary.Some? && (v.primary.value.state == Activated || v.primary.value.state == Blank)
    then v.primary else None
  }

  predicate IsBad(c: Connectivity) { c == NoConn || c == Limited || c == Portal }

  function GatewayOf(p: Option<Active>): string { if p.Some? then p.value.gateway else "" }

  function KeyIn(v: View): string { NetworkKey(ConnectedPrimary(v), v.profiles) }

  /** The connected vpns of a view by id; of two with the same id the later counts. */
  function Seen(vpns: seq<Vpn>): map<string, Vpn> {
    if vpns == [] then map[]
    else
      var rest, last := Seen(vpns[..|vpns| - 1]), vpns[|vpns| - 1];
      if last.connected then rest[last.id := last] else rest
  }

  /** One vpn-up per connected vpn of the view that was not up before. */
  function Ups(was: map<string, Vpn>, vpns: seq<Vpn>, key: string, now: int): seq<Event> {
    if vpns == [] then []
    else
      var rest, last := Ups(was, vpns[..|vpns| - 1], key, now), vpns[|vpns| - 1];
      if last.connected && last.id !in was then rest + [VpnUp(last.id, key, now)] else rest
  }

  function Downs(order: seq<string>, key: string, now: int): (r: seq<Event>)
    ensures |r| == |order|
  {
    if order == [] then [] else Downs(order[..|order| - 1], key, now) + [VpnDown(order[|order| - 1], key, now)]
  }

  /** The ids that went down. */
  function Gone(was: map<string, Vpn>, seen: map<string, Vpn>): set<string> { was.Keys - seen.Keys }

  // ---- the steps ----

  function Initial(debounce: int, grace: int): State {
    State(if debounce < 0 then 0 else debounce, if grace < 0 then 0 else grace,
          false, None, "", "", false, None, None, map[], "", "")
  }

  function SetPrimary(d: State, p: Option<Active>, key: string): State {
    if p == None then d.(primary := None, primaryKey := "", primaryName := "")
    else d.(primary := p, primaryKey := key, primaryName := p.value.name)
  }

  function ResetConnectivity(d: State): State { d.(noInternet := false, pendingNoNet := None) }

  /** A new network: announce it and put the monitor on it. */
  function Announce(d: State, cur: Option<Active>, key: string, now: int): (State, seq<Event>) {
    (ResetConnectivity(SetPrimary(d.(pendingDisc := None), cur, key)).(monitorKey := key, monitorGateway := GatewayOf(cur)),
     [Connected(key, now)])
  }

  /** The first part of apply: what became of the primary connection. */
  function PrimaryStep(d: State, cur: Option<Active>, key: string, now: int): (State, seq<Event>) {
    match (d.primary, cur)
    case (None, None) => (d, [])
    case (None, Some(_)) =>
      if d.pendingDisc.Some? && d.pendingDisc.value.key == key
      then (SetPrimary(d.(pendingDisc := None), cur, key), [])
      else Announce(d, cur, key, now)
    case (Some(p), None) =>
      (SetPrimary(d.(pendingDisc := Some(PendingDisc(d.primaryKey, d.primaryName, p.uuid, now))), None, ""), [])
    case (Some(p), Some(q)) =>
      if q.uuid != p.uuid then Announce(d, cur, key, now)
      else
        var d' := SetPrimary(d, cur, key);
        (if q.gateway != "" && d.monitorKey == key then d'.(monitorGateway := q.gateway) else d', [])
  }

  /** The second part: connectivity, looked at only while something is primary. */
  function ConnectivityStep(d: State, conn: Connectivity, now: int): (State, seq<Event>) {
    if d.primary == None then (d, [])
    else if IsBad(conn) && !d.noInternet then
      (d.(pendingNoNet := Some(PendingNoNet(conn, if d.pendingNoNet.Some? then d.pendingNoNet.value.since else now))), [])
    else if conn == Full then
      (d.(pendingNoNet := None, noInternet := false), if d.noInternet then [Restored(d.primaryKey, now)] else [])
    else (d, [])
  }

  /** The third part: vpns. */
  function VpnStep(d: State, vpns: seq<Vpn>, order: seq<string>, now: int): (State, seq<Event>) {
    (d.(vpnUp := Seen(vpns)), Ups(d.vpnUp, vpns, d.primaryKey, now) + Downs(order, d.primaryKey, now))
  }

  predicate DiscDue(d: State, now: int) { d.pendingDisc.Some? && now >= d.pendingDisc.value.at + d.debounce }

  predicate NoNetDue(d: State, now: int) {
    d.pendingNoNet.Some? && d.primary.Some? && now >= d.pendingNoNet.value.since + d.grace
  }

  /** flush: fire the timers that expired by now. */
  function Flush(d: State, now: int): (State, seq<Event>) {
    var (d1, e1) :=
      if DiscDue(d, now)
      then (ResetConnectivity(d.(pendingDisc := None, monitorKey := "", monitorGateway := "")),
            [Disconnected(d.pendingDisc.value.key, now)])
      else (d, []);
    if NoNetDue(d1, now)
    then (d1.(pendingNoNet := None, noInternet := true), e1 + [NoInternet(d1.primaryKey, now)])
    else (d1, e1)
  }

  /** The first view: taken silently. */
  function FirstView(d: State, v: View, now: int): State {
    var cur, key := ConnectedPrimary(v), KeyIn(v);
    var d' := SetPrimary(d.(initialized := true), cur, key)
              .(monitorKey := key, monitorGateway := GatewayOf(cur), vpnUp := d.vpnUp + Seen(v.vpns));
    if cur.Some? && IsBad(v.connectivity)
    then d'.(pendingNoNet := Some(PendingNoNet(v.connectivity, now)))
    else d'
  }

  /** apply, given the order in which the vpns that went down are visited. */
  function Apply(d: State, v: View, now: int, order: seq<string>): (State, seq<Event>) {
    if !d.initialized then Flush(FirstView(d, v, now), now)
    else
      var (d1, e1) := PrimaryStep(d, ConnectedPrimary(v), KeyIn(v), now);
      var (d2, e2) := ConnectivityStep(d1, v.connectivity, now);
      var (d3, e3) := VpnStep(d2, v.vpns, order, now);
      var (d4, e4) := Flush(d3, now);
      (d4, e1 + e2 + e3 + e4)
  }

  /** nextDeadline: the zero instant stands for none. */
  function NextDeadline(d: State): (int, bool) {
    var t := if d.pendingDisc.Some? then d.pendingDisc.value.at + d.debounce else 0;
    var u := if d.pendingNoNet.Some? && d.primary.Some? then d.pendingNoNet.value.since + d.grace else 0;
    var r := if d.pendingNoNet.Some? && d.primary.Some? && (t == 0 || u < t) then u else t;
    (r, r != 0)
  }

  // ---- the object ----

  class EventDeriver {
    const debounce: int
    const grace: int
    var initialized: bool
    var primary: Option<Active>
    var primaryKey: string
    var primaryName: string
    var noInternet: bool
    var pendingDisc: Option<PendingDisc>
    var pendingNoNet: Option<PendingNoNet>
    var vpnUp: map<string, Vpn>
    var monitorKey: string
    var monitorGateway: string

    function Now(): State
      reads this
    {
      State(debounce, grace, initialized, primary, primaryKey, primaryName, noInternet,
            pendingDisc, pendingNoNet, vpnUp, monitorKey, monitorGateway)
    }

    constructor (debounce: int, grace: int)
      ensures Now() == Initial(debounce, grace)
    {
      var db, gr := debounce, grace;
      if db < 0 {
        db := 0;
      }
      if gr < 0 {
        gr := 0;
      }
      this.debounce, this.grace := db, gr;
      initialized, primary, primaryKey, primaryName, noInternet := false, None, "", "", false;
      pendingDisc, pendingNoNet, vpnUp, monitorKey, monitorGateway := None, None, map[], "", "";
    }

    method ApplyView(v: View, now: int) returns (out: seq<Event>, ghost order: seq<string>)
      modifies this
      ensures old(initialized) ==> Visits(order, Gone(old(vpnUp), Seen(v.vpns)))
      ensures (Now(), out) == Apply(old(Now()), v, now, order)
    {
      hide Flush, PrimaryStep, ConnectivityStep, Seen, Ups, Downs, NetworkKey;
      out, order := [], [];
      var cur := ConnectedPrimary(v);
      var key := FindNetworkKey(cur, v.profiles);
      if !initialized {
        TakeFirstView(v, cur, key, now);
        out := FlushTimers(now);
        return;
      }
      out := FollowPrimary(cur, key, now);
      var conn := FollowConnectivity(v.connectivity, now);
      out := out + conn;
      var vpns, o := FollowVpns(v.vpns, now);
      order := o;
      out := out + vpns;
      var timers := FlushTimers(now);
      out := out + timers;
    }

    method TakeFirstView(v: View, cur: Option<Active>, key: string, now: int)
      requires cur == ConnectedPrimary(v) && key == KeyIn(v)
      modifies this
      ensures Now() == FirstView(old(Now()), v, now)
    {
      hide Seen, NetworkKey;
      initialized := true;
      SetThePrimary(cur, key);
      monitorKey, monitorGateway := key, GatewayOf(cur);
      NoteVpns(v.vpns);
      if cur.Some? && IsBad(v.connectivity) {
        pendingNoNet := Some(PendingNoNet(v.connectivity, now));
      }
    }

    method FollowPrimary(cur: Option<Active>, key: string, now: int) returns (out: seq<Event>)
      modifies this
      ensures (Now(), out) == PrimaryStep(old(Now()), cur, key, now) && vpnUp == old(vpnUp)
    {
      out := [];
      if primary == None && cur.Some? {
        var roam := false;
        if pendingDisc.Some? {
          roam := pendingDisc.value.key == key;
          pendingDisc := None;
        }
        SetThePrimary(cur, key);
        if !roam {
          ForgetConnectivity();
          monitorKey, monitorGateway := key, GatewayOf(cur);
          out := [Connected(key, now)];
        }
      } else if primary.Some? && cur == None {
        pendingDisc := Some(PendingDisc(primaryKey, primaryName, primary.value.uuid, now));
        SetThePrimary(None, "");
      } else if primary.Some? && cur.Some? && cur.value.uuid != primary.value.uuid {
        pendingDisc := None;
        SetThePrimary(cur, key);
        ForgetConnectivity();
        monitorKey, monitorGateway := key, GatewayOf(cur);
        out := [Connected(key, now)];
      } else if primary.Some? && cur.Some? {
        SetThePrimary(cur, key);
        var gw := GatewayOf(cur);
        if gw != "" && monitorKey == key {
          monitorGateway := gw;
        }
      }
    }

    method FollowConnectivity(conn: Connectivity, now: int) returns (out: seq<Event>)
      modifies this
      ensures (Now(), out) == ConnectivityStep(old(Now()), conn, now) && vpnUp == old(vpnUp)
    {
      out := [];
      if primary.Some? {
        if IsBad(conn) && !noInternet {
          if pendingNoNet == None {
            pendingNoNet := Some(PendingNoNet(conn, now));
          } else {
            pendingNoNet := Some(pendingNoNet.value.(conn := conn));
          }
        } else if conn == Full {
          pendingNoNet := None;
          if noInternet {
            noInternet := false;
            out := [Restored(primaryKey, now)];
          }
        }
      }
    }

    method FollowVpns(vpns: seq<Vpn>, now: int) returns (out: seq<Event>, ghost order: seq<string>)
      modifies this`vpnUp
      ensures Visits(order, Gone(old(vpnUp), Seen(vpns)))
      ensures (Now(), out) == VpnStep(old(Now()), vpns, order, now)
    {
      var seen, ups := WentUp(vpns, now);
      var downs, o := WentDown(seen, now);
      out, order := ups + downs, o;
      vpnUp := seen;
    }

    method WentUp(vpns: seq<Vpn>, now: int) returns (seen: map<string, Vpn>, out: seq<Event>)
      ensures seen == Seen(vpns) && out == Ups(vpnUp, vpns, primaryKey, now)
    {
      seen, out := map[], [];
      for i := 0 to |vpns|
        invariant seen == Seen(vpns[..i]) && out == Ups(vpnUp, vpns[..i], primaryKey, now)
      {
        assert vpns[..i + 1][..i] == vpns[..i];
        if !vpns[i].connected {
          continue;
        }
        seen := seen[vpns[i].id := vpns[i]];
        if vpns[i].id !in vpnUp {
          out := out + [VpnUp(vpns[i].id, primaryKey, now)];
        }
      }
      assert vpns[..|vpns|] == vpns;
    }

    /** Go iterates the map of vpns in an order of its own choosing. */
    method WentDown(seen: map<string, Vpn>, now: int) returns (out: seq<Event>, ghost order: seq<string>)
      ensures Visits(order, Gone(vpnUp, seen))
      ensures out == Downs(order, primaryKey, now)
    {
      hide Visits;
      out, order := [], [];
      var todo := vpnUp.Keys;
      ghost var gone := Gone(vpnUp, seen);
      VisitNone(gone, todo);
      while todo != {}
        invariant todo <= vpnUp.Keys
        invariant Visits(order, gone - todo)
        invariant out == Downs(order, primaryKey, now)
        decreases todo
      {
        var id :| id in todo;
        VisitStep(order, gone, todo, id);
        todo := todo - {id};
        if id !in seen {
          out := out + [VpnDown(id, primaryKey, now)];
          assert (order + [id])[..|order|] == order;
          order := order + [id];
        }
      }
      assert gone - {} == gone;
    }

    method NoteVpns(vpns: seq<Vpn>)
      modifies this`vpnUp
      ensures vpnUp == old(vpnUp) + Seen(vpns)
    {
      for i := 0 to |vpns|
        invariant vpnUp == old(vpnUp) + Seen(vpns[..i])
      {
        assert vpns[..i + 1][..i] == vpns[..i];
        if vpns[i].connected {
          vpnUp := vpnUp[vpns[i].id := vpns[i]];
        }
      }
      assert vpns[..|vpns|] == vpns;
    }

    method FlushTimers(now: int) returns (out: seq<Event>)
      modifies this
      ensures (Now(), out) == Flush(old(Now()), now)
    {
      out := [];
      if pendingDisc.Some? && !(now < pendingDisc.value.at + debounce) {
        out := [Disconnected(pendingDisc.value.key, now)];
        pendingDisc := None;
        monitorKey, monitorGateway := "", "";
        ForgetConnectivity();
      }
      if pendingNoNet.Some? && primary.Some? && !(now < pendingNoNet.value.since + grace) {
        pendingNoNet := None;
        noInternet := true;
        out := out + [NoInternet(primaryKey, now)];
      }
    }

    method SetThePrimary(p: Option<Active>, key: string)
      modifies this`primary, this`primaryKey, this`primaryName
      ensures Now() == SetPrimary(old(Now()), p, key)
    {
      if p == None {
        primary, primaryKey, primaryName := None, "", "";
        return;
      }
      primary, primaryKey, primaryName := p, key, p.value.name;
    }

    method ForgetConnectivity()
      modifies this`noInternet, this`pendingNoNet
      ensures Now() == ResetConnectivity(old(Now()))
    {
      noInternet := false;
      pendingNoNet := None;
    }
  }
}
