/** Safety of the secret agent over every interleaving of GetSecrets, answers,
    cancellations, timeouts, shutdown and forgetting. */
module AgentRuns {
  import opened Options
  import opened Visiting
  import opened Agent

  // ---- one resolution ----

  lemma {:induction false} ResolveOne(s: State, id: Id, e: Ending, keep: bool, other: Id)
    requires Inv(s) && IsOpen(s, id)
    ensures var r := Resolve(s, id, e, keep); SameKnown(r) && Sound(r, other)
  {
    var r := Resolve(s, id, e, keep);
    assert Sound(s, other) && Sound(s, id);
    forall o ensures (r.due + r.ran)[Call(other, o)] ==
        if other in r.handled && r.requests[other].ending.value.outcome == o then 1 else 0
    {
      assert (s.due + s.ran)[Call(other, o)] ==
        if other in s.handled && s.requests[other].ending.value.outcome == o then 1 else 0;
    }
  }

  lemma {:induction false} ResolveKeeps(s: State, id: Id, e: Ending, keep: bool)
    requires Inv(s) && IsOpen(s, id)
    ensures Inv(Resolve(s, id, e, keep))
  {
    hide Sound;
    forall other ensures Sound(Resolve(s, id, e, keep), other) {
      ResolveOne(s, id, e, keep, other);
    }
  }

  /** r is s with exactly the open requests among ids resolved with e. */
  ghost predicate Resolved(s: State, ids: seq<Id>, e: Ending, keep: bool, r: State) {
    && r.handler == s.handler && r.ran == s.ran && r.pending == s.pending && r.waiters == s.waiters
    && r.requests.Keys == s.requests.Keys
    && (forall id :: id in s.requests ==>
         r.requests[id] == if id in ids && IsOpen(s, id) then s.requests[id].(ending := Some(e)) else s.requests[id])
    && (forall id :: id in r.handled <==> id in s.handled || (keep && s.handler && id in ids && IsOpen(s, id)))
  }

  lemma {:induction false} ResolvedMore(s: State, ids: seq<Id>, id: Id, e: Ending, keep: bool, r: State)
    requires SameKnown(s) && SameKnown(r) && Resolved(s, ids, e, keep, r)
    ensures Resolved(s, ids + [id], e, keep, if IsOpen(r, id) then Resolve(r, id, e, keep) else r)
  {
    var t := if IsOpen(r, id) then Resolve(r, id, e, keep) else r;
    forall x | x in s.requests
      ensures t.requests[x] == if x in ids + [id] && IsOpen(s, x) then s.requests[x].(ending := Some(e)) else s.requests[x]
    {
      MoreRequests(s, ids, id, e, keep, r, x);
    }
    forall x ensures x in t.handled <==> x in s.handled || (keep && s.handler && x in ids + [id] && IsOpen(s, x)) {
      MoreHandled(s, ids, id, e, keep, r, x);
    }
  }

  lemma {:induction false} MoreRequests(s: State, ids: seq<Id>, id: Id, e: Ending, keep: bool, r: State, x: Id)
    requires SameKnown(s) && SameKnown(r) && Resolved(s, ids, e, keep, r) && x in s.requests
    ensures var t := if IsOpen(r, id) then Resolve(r, id, e, keep) else r;
      t.requests[x] == if x in ids + [id] && IsOpen(s, x) then s.requests[x].(ending := Some(e)) else s.requests[x]
  {
    assert x in ids + [id] <==> x in ids || x == id;
    assert r.requests[x] == if x in ids && IsOpen(s, x) then s.requests[x].(ending := Some(e)) else s.requests[x];
  }

  lemma {:induction false} MoreHandled(s: State, ids: seq<Id>, id: Id, e: Ending, keep: bool, r: State, x: Id)
    requires SameKnown(s) && SameKnown(r) && Resolved(s, ids, e, keep, r)
    ensures var t := if IsOpen(r, id) then Resolve(r, id, e, keep) else r;
      x in t.handled <==> x in s.handled || (keep && s.handler && x in ids + [id] && IsOpen(s, x))
  {
    assert x in ids + [id] <==> x in ids || x == id;
    assert IsOpen(r, id) <==> IsOpen(s, id) && id !in ids;
    assert x in r.handled <==> x in s.handled || (keep && s.handler && x in ids && IsOpen(s, x));
  }

  /** Resolving a set of requests in any order: those that were open are resolved
      with e, everything else is untouched. */
  lemma {:induction false} ResolveAllKeeps(s: State, ids: seq<Id>, e: Ending, keep: bool)
    requires Inv(s)
    ensures Inv(ResolveAll(s, ids, e, keep)) && Resolved(s, ids, e, keep, ResolveAll(s, ids, e, keep))
  {
    if ids != [] {
      hide Sound, OneOpenEach, Resolved;
      var before, id := ids[..|ids| - 1], ids[|ids| - 1];
      assert ids == before + [id];
      ResolveAllKeeps(s, before, e, keep);
      var rest := ResolveAll(s, before, e, keep);
      ResolvedMore(s, before, id, e, keep, rest);
      if IsOpen(rest, id) {
        ResolveKeeps(rest, id, e, keep);
      }
    }
  }

  // ---- what every action keeps ----

  lemma {:induction false} EnterSound(t: State, id: Id, path: Path, setting: string, fields: seq<string>, other: Id)
    requires Inv(t) && id !in t.requests
    ensures var r := Enter(t, id, path, setting, fields); SameKnown(r) && Sound(r, other)
  {
    assert Sound(t, other) && Sound(t, id);
  }

  /** Entering a request next to which none of its profile and setting is open. */
  lemma {:induction false} EnterKeeps(t: State, id: Id, path: Path, setting: string, fields: seq<string>)
    requires Inv(t) && id !in t.requests
    requires forall x :: IsOpen(t, x) ==> t.requests[x].path != path || t.requests[x].setting != setting
    ensures var r := Enter(t, id, path, setting, fields);
      && Inv(r) && IsOpen(r, id)
      && (forall x :: IsOpen(r, x) && r.requests[x].path == path && r.requests[x].setting == setting ==> x == id)
      && (forall x :: x in t.requests ==> r.requests[x] == t.requests[x])
      && r.due == t.due && r.ran == t.ran && r.handled == t.handled
  {
    var r := Enter(t, id, path, setting, fields);
    forall other ensures Sound(r, other) {
      EnterSound(t, id, path, setting, fields, other);
    }
    hide Sound;
    forall x | IsOpen(r, x) && x != id ensures IsOpen(t, x) && r.requests[x] == t.requests[x] {
    }
  }

  /** A new request supersedes exactly the open ones for its profile and setting. */
  lemma {:induction false} BeginKeeps(s: State, id: Id, path: Path, setting: string, fields: seq<string>, order: seq<Id>)
    requires Inv(s) && id !in s.requests && Visits(order, Matching(s, path, setting))
    ensures var r := Begin(s, id, path, setting, fields, order);
      && Inv(r) && IsOpen(r, id)
      && (forall x :: IsOpen(r, x) && r.requests[x].path == path && r.requests[x].setting == setting ==> x == id)
      && (forall x :: x in Matching(s, path, setting) ==>
           r.requests[x].ending == Some(Ending(Cancelled, NO_ANSWER, true)))
      && r.due == s.due && r.ran == s.ran && r.handled == s.handled
  {
    var e := Ending(Cancelled, NO_ANSWER, true);
    var t := ResolveAll(s, order, e, false);
    ResolveAllKeeps(s, order, e, false);
    VisitsMembers(order, Matching(s, path, setting));
    ResolveAllQuiet(s, order, e);
    ResolvedIsQuiet(s, order, e, t);
    hide ResolveAll, Visits, Inv, Resolved, Enter;
    forall x | IsOpen(t, x) ensures t.requests[x].path != path || t.requests[x].setting != setting {
      assert IsOpen(s, x) && x !in order;
    }
    assert id !in t.requests;
    EnterKeeps(t, id, path, setting, fields);
  }

  lemma {:induction false} ResolvedIsQuiet(s: State, order: seq<Id>, e: Ending, t: State)
    requires SameKnown(s) && SameKnown(t) && Resolved(s, order, e, false, t)
    ensures forall x :: IsOpen(t, x) <==> IsOpen(s, x) && x !in order
    ensures forall x :: IsOpen(t, x) ==> t.requests[x] == s.requests[x]
    ensures forall x :: x in order && IsOpen(s, x) ==> x in t.requests && t.requests[x].ending == Some(e)
    ensures t.handled == s.handled && t.ran == s.ran
  {
    assert forall x :: x in t.handled <==> x in s.handled;
  }

  lemma {:induction false} ResolveAllQuiet(s: State, ids: seq<Id>, e: Ending)
    requires SameKnown(s)
    ensures ResolveAll(s, ids, e, false).due == s.due
  {
    if ids != [] {
      ResolveAllQuiet(s, ids[..|ids| - 1], e);
    }
  }

  /** The timer or the shutdown: whatever happened before, the request is resolved
      afterwards, so its GetSecrets does not wait for ever. */
  lemma {:induction false} ExpireKeeps(s: State, id: Id, e: Ending)
    requires Inv(s) && id in s.waiters && s.waiters[id] == Selecting
    ensures id in s.requests
    ensures var r := ResolveIfKnown(s.(waiters := s.waiters[id := Draining]), id, e);
      && Inv(r) && !r.requests[id].Open()
      && (!s.requests[id].Open() ==> r.requests[id] == s.requests[id])
      && Enabled(r, Return(id))
  {
    assert Sound(s, id);
    var r0 := if IsOpen(s, id) then Resolve(s, id, e, true) else s;
    if IsOpen(s, id) {
      ResolveKeeps(s, id, e, true);
    }
    DrainKeeps(r0, id);
  }

  lemma {:induction false} DrainKeeps(s: State, id: Id)
    requires Inv(s) && id in s.waiters && !s.waiters[id].Returned? && id in s.requests && !s.requests[id].Open()
    ensures Inv(s.(waiters := s.waiters[id := Draining]))
  {
    var r := s.(waiters := s.waiters[id := Draining]);
    forall other ensures Sound(r, other) {
      assert Sound(s, other) && Sound(s, id);
    }
  }

  lemma {:induction false} ReturnKeeps(s: State, id: Id)
    requires Inv(s) && Enabled(s, Return(id))
    ensures Inv(Step(s, Return(id)))
  {
    var r := Step(s, Return(id));
    forall other ensures Sound(r, other) {
      assert Sound(s, other) && Sound(s, id);
    }
  }

  /** forget runs only after its GetSecrets returned, so it never drops an open
      request. */
  lemma {:induction false} ForgetDropsResolvedOnly(s: State, id: Id)
    requires Inv(s) && Enabled(s, Forget(id))
    ensures Inv(Step(s, Forget(id)))
    ensures !IsOpen(s, id)
    ensures forall x :: IsOpen(s, x) <==> IsOpen(Step(s, Forget(id)), x)
  {
    var r := Step(s, Forget(id));
    assert Sound(s, id);
    forall other ensures Sound(r, other) {
      assert Sound(s, other);
    }
  }

  lemma {:induction false} CallbackKeeps(s: State, call: Call)
    requires Inv(s) && call in s.due
    ensures Inv(Step(s, RunCallback(call)))
  {
    var r := Step(s, RunCallback(call));
    assert r.due + r.ran == s.due + s.ran;
    forall other ensures Sound(r, other) {
      assert Sound(s, other);
    }
  }

  lemma {:induction false} HandlerKeeps(s: State, on: bool)
    requires Inv(s)
    ensures Inv(s.(handler := on))
  {
    forall other ensures Sound(s.(handler := on), other) {
      assert Sound(s, other);
    }
  }

  lemma {:induction false} StepKeeps(s: State, a: Action)
    requires Inv(s) && Enabled(s, a)
    ensures Inv(Step(s, a))
  {
    hide Sound, Visits, ResolveAll, OneOpenEach;
    match a
    case GetSecrets(id, path, setting, fields, order) => BeginKeeps(s, id, path, setting, fields, order);
    case DoAnswer(id, ans) => if IsOpen(s, id) { ResolveKeeps(s, id, Ending(Answered, ans, false), true); }
    case DoCancel(id) => if IsOpen(s, id) { ResolveKeeps(s, id, Ending(Cancelled, NO_ANSWER, false), true); }
    case CancelByNM(path, setting, order) => ResolveAllKeeps(s, order, Ending(Cancelled, NO_ANSWER, true), true);
    case CancelAll(order) => ResolveAllKeeps(s, order, Ending(Cancelled, NO_ANSWER, false), true);
    case TimerFires(id) => ExpireKeeps(s, id, Ending(TimedOut, NO_ANSWER, false));
    case ShutdownSeen(id) => ExpireKeeps(s, id, Ending(Cancelled, NO_ANSWER, false));
    case DoneSeen(id) => DrainKeeps(s, id);
    case Return(id) => ReturnKeeps(s, id);
    case Forget(id) => ForgetDropsResolvedOnly(s, id);
    case SetHandler(on) => HandlerKeeps(s, on);
    case RunCallback(call) => CallbackKeeps(s, call);
  }

  // ---- the first resolution stands ----

  /** later extends earlier: requests keep their identity, and a resolution is final. */
  ghost predicate Extends(earlier: State, later: State) {
    forall id :: id in earlier.requests ==>
      && id in later.requests
      && (!earlier.requests[id].Open() ==> later.requests[id] == earlier.requests[id])
      && later.requests[id].(ending := None) == earlier.requests[id].(ending := None)
      && (id in earlier.waiters && earlier.waiters[id].Returned? ==>
           id in later.waiters && later.waiters[id] == earlier.waiters[id])
  }

  lemma {:induction false} ResolvedExtends(s: State, ids: seq<Id>, e: Ending, keep: bool, r: State)
    requires Resolved(s, ids, e, keep, r)
    ensures Extends(s, r)
  {
  }

  lemma {:induction false} ResolveExtends(s: State, id: Id, e: Ending, keep: bool)
    requires SameKnown(s) && IsOpen(s, id)
    ensures Extends(s, Resolve(s, id, e, keep))
  {
  }

  lemma {:induction false} BeginExtends(s: State, id: Id, path: Path, setting: string, fields: seq<string>, order: seq<Id>)
    requires Inv(s) && id !in s.requests
    ensures Extends(s, Begin(s, id, path, setting, fields, order))
  {
    hide Sound, OneOpenEach, ResolveAll, Resolved;
    var e := Ending(Cancelled, NO_ANSWER, true);
    ResolveAllKeeps(s, order, e, false);
    ResolvedExtends(s, order, e, false, ResolveAll(s, order, e, false));
    WaiterIsKnown(s, id);
  }

  lemma {:induction false} ExpireExtends(s: State, id: Id, e: Ending)
    requires SameKnown(s) && id in s.waiters && s.waiters[id] == Selecting
    ensures Extends(s, ResolveIfKnown(s.(waiters := s.waiters[id := Draining]), id, e))
  {
  }

  lemma {:induction false} StepExtends(s: State, a: Action)
    requires Inv(s) && Enabled(s, a)
    ensures Extends(s, Step(s, a))
  {
    hide Sound, Visits, OneOpenEach, ResolveAll, Resolved, Begin, Extends, Resolve, ResolveIfKnown, Matching;
    match a
    case GetSecrets(id, path, setting, fields, order) => BeginExtends(s, id, path, setting, fields, order);
    case DoAnswer(id, ans) =>
      if IsOpen(s, id) { ResolveExtends(s, id, Ending(Answered, ans, false), true); }
      SameExtends(s, s);
    case DoCancel(id) =>
      if IsOpen(s, id) { ResolveExtends(s, id, Ending(Cancelled, NO_ANSWER, false), true); }
      SameExtends(s, s);
    case CancelByNM(path, setting, order) =>
      var e := Ending(Cancelled, NO_ANSWER, true);
      ResolveAllKeeps(s, order, e, true);
      ResolvedExtends(s, order, e, true, ResolveAll(s, order, e, true));
    case CancelAll(order) =>
      var e := Ending(Cancelled, NO_ANSWER, false);
      ResolveAllKeeps(s, order, e, true);
      ResolvedExtends(s, order, e, true, ResolveAll(s, order, e, true));
    case TimerFires(id) => ExpireExtends(s, id, Ending(TimedOut, NO_ANSWER, false));
    case ShutdownSeen(id) => ExpireExtends(s, id, Ending(Cancelled, NO_ANSWER, false));
    case DoneSeen(id) => SameExtends(s, Step(s, a));
    case Return(id) => SameExtends(s, Step(s, a));
    case Forget(id) => SameExtends(s, Step(s, a));
    case SetHandler(on) => SameExtends(s, Step(s, a));
    case RunCallback(call) => SameExtends(s, Step(s, a));
  }

  lemma {:induction false} SameExtends(s: State, r: State)
    requires r.requests == s.requests
    requires forall id :: id in s.waiters && s.waiters[id].Returned? ==> id in r.waiters && r.waiters[id] == s.waiters[id]
    ensures Extends(s, r)
  {
  }

  lemma {:induction false} WaiterIsKnown(s: State, id: Id)
    requires Inv(s) && id !in s.requests
    ensures id !in s.waiters
  {
    assert Sound(s, id);
  }

  ghost predicate IsRun(ss: seq<State>, acts: seq<Action>) {
    && |ss| == |acts| + 1 && ss[0] == START
    && forall i :: 0 <= i < |acts| ==> SameKnown(ss[i]) && Enabled(ss[i], acts[i]) && ss[i + 1] == Step(ss[i], acts[i])
  }

  lemma {:induction false} RunKeeps(ss: seq<State>, acts: seq<Action>, n: nat)
    requires IsRun(ss, acts) && n < |ss|
    ensures Inv(ss[n])
  {
    if n == 0 {
      forall id ensures Sound(START, id) {
      }
    } else {
      hide Inv, Enabled, Step;
      RunKeeps(ss, acts, n - 1);
      StepKeeps(ss[n - 1], acts[n - 1]);
    }
  }

  lemma {:induction false} ResolutionStands(ss: seq<State>, acts: seq<Action>, i: nat, j: nat, id: Id)
    requires IsRun(ss, acts) && i <= j < |ss|
    requires id in ss[i].requests && !ss[i].requests[id].Open()
    ensures id in ss[j].requests && ss[j].requests[id] == ss[i].requests[id]
    decreases j - i
  {
    hide Inv, Enabled, Step, SameKnown;
    if i < j {
      ResolutionStands(ss, acts, i, j - 1, id);
      RunKeeps(ss, acts, j - 1);
      StepExtends(ss[j - 1], acts[j - 1]);
    }
  }

  /** In every run: once a request is resolved, its outcome, answer and origin never
      change, its done channel has been closed exactly once, and whatever its
      GetSecrets returns is that first ending. */
  lemma {:induction false} FirstResolverWins(ss: seq<State>, acts: seq<Action>, i: nat, j: nat, id: Id)
    requires IsRun(ss, acts) && i <= j < |ss|
    requires id in ss[i].requests && !ss[i].requests[id].Open()
    ensures id in ss[j].requests && ss[j].requests[id] == ss[i].requests[id]
    ensures id in ss[j].closes && ss[j].closes[id] == 1
    ensures id in ss[j].waiters && (ss[j].waiters[id].Returned? ==>
      Some(ss[j].waiters[id].ending) == ss[i].requests[id].ending)
  {
    hide Inv, IsRun;
    ResolutionStands(ss, acts, i, j, id);
    RunKeeps(ss, acts, j);
    ResolvedIsSound(ss[j], id);
  }

  lemma {:induction false} ResolvedIsSound(s: State, id: Id)
    requires Inv(s) && id in s.requests && !s.requests[id].Open()
    ensures id in s.closes && s.closes[id] == 1
    ensures id in s.waiters && (s.waiters[id].Returned? ==> Some(s.waiters[id].ending) == s.requests[id].ending)
  {
    assert Sound(s, id);
  }

  /** In every run: no done channel is closed twice, a request's resolved callback
      runs at most once and reports its outcome, and at most one request is open
      per profile and setting. */
  lemma {:induction false} AtMostOnce(ss: seq<State>, acts: seq<Action>, n: nat, id: Id, o: Outcome)
    requires IsRun(ss, acts) && n < |ss|
    ensures id in ss[n].closes ==> ss[n].closes[id] <= 1
    ensures ss[n].ran[Call(id, o)] <= 1
    ensures ss[n].ran[Call(id, o)] == 1 ==>
      id in ss[n].handled && id in ss[n].requests && ss[n].requests[id].ending.Some?
      && ss[n].requests[id].ending.value.outcome == o
    ensures id in ss[n].handled && ss[n].due == multiset{} ==>
      id in ss[n].requests && ss[n].requests[id].ending.Some?
      && (ss[n].requests[id].ending.value.outcome == o ==> ss[n].ran[Call(id, o)] == 1)
    ensures OneOpenEach(ss[n])
  {
    RunKeeps(ss, acts, n);
    assert Sound(ss[n], id);
    assert (ss[n].due + ss[n].ran)[Call(id, o)] == ss[n].due[Call(id, o)] + ss[n].ran[Call(id, o)];
  }

  /** A resolution runs its callback exactly when a handler is set, except that a
      superseded request's callback is thrown away. */
  lemma {:induction false} WhoIsTold(s: State, a: Action, id: Id)
    requires Inv(s) && Enabled(s, a) && id in s.requests && s.requests[id].Open()
    requires !Step(s, a).requests[id].Open()
    ensures id in Step(s, a).handled <==> s.handler && !a.GetSecrets?
  {
    hide Visits, OneOpenEach;
    assert Sound(s, id);
    match a
    case GetSecrets(nid, path, setting, fields, order) =>
      ResolveAllKeeps(s, order, Ending(Cancelled, NO_ANSWER, true), false);
    case CancelByNM(path, setting, order) => ResolveAllKeeps(s, order, Ending(Cancelled, NO_ANSWER, true), true);
    case CancelAll(order) => ResolveAllKeeps(s, order, Ending(Cancelled, NO_ANSWER, false), true);
    case _ =>
  }

  /** A fired timeout, or the shutdown, always unblocks its GetSecrets: it can return,
      and with the first ending if somebody else was faster. */
  lemma {:induction false} TimeoutUnblocks(s: State, a: Action)
    requires Inv(s) && Enabled(s, a) && (a.TimerFires? || a.ShutdownSeen?)
    ensures var r := Step(s, a);
      && Enabled(r, Return(a.id))
      && a.id in s.requests && a.id in r.requests
      && (!s.requests[a.id].Open() ==> r.requests[a.id] == s.requests[a.id])
      && var e := Ending(if a.TimerFires? then TimedOut else Cancelled, NO_ANSWER, false);
      (s.requests[a.id].Open() ==> r.requests[a.id].ending == Some(e))
  {
    hide OneOpenEach;
    assert Sound(s, a.id);
    ExpireKeeps(s, a.id, Ending(if a.TimerFires? then TimedOut else Cancelled, NO_ANSWER, false));
  }

  /** CancelGetSecrets leaves nothing open for the profile and setting, the client's
      shutdown nothing at all; both leave other requests alone. */
  lemma {:induction false} CancelsReachEverything(s: State, a: Action, id: Id)
    requires Inv(s) && Enabled(s, a) && (a.CancelByNM? || a.CancelAll?) && id in s.requests
    ensures var hit := IsOpen(s, id) && (a.CancelByNM? ==> s.requests[id].path == a.path && s.requests[id].setting == a.setting);
      Step(s, a).requests[id] ==
        if hit then s.requests[id].(ending := Some(Ending(Cancelled, NO_ANSWER, a.CancelByNM?))) else s.requests[id]
  {
    hide Sound, OneOpenEach;
    match a
    case CancelByNM(path, setting, order) =>
      VisitsMembers(order, Matching(s, path, setting));
      ResolveAllKeeps(s, order, Ending(Cancelled, NO_ANSWER, true), true);
    case CancelAll(order) =>
      VisitsMembers(order, s.pending);
      ResolveAllKeeps(s, order, Ending(Cancelled, NO_ANSWER, false), true);
  }
}
