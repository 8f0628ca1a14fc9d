/** The secret agent as the object its goroutines share: every method is one locked
    section, proved against the steps of Agent. The callbacks a section returns are
    run by its caller after unlocking. */
module AgentObject {
  import opened Options
  import opened Visiting
  import opened Agent

  class SecretAgent {
    var requests: map<Id, Request>
    var pending: set<Id>
    var handler: bool
    ghost var waiters: map<Id, Waiter>
    ghost var due: multiset<Call>
    ghost var ran: multiset<Call>
    ghost var handled: set<Id>
    ghost var closes: map<Id, nat>

    ghost function Now(): State
      reads this
    {
      State(requests, pending, waiters, handler, due, ran, handled, closes)
    }

    constructor ()
      ensures Now() == START
    {
      requests, pending, handler := map[], {}, false;
      waiters, due, ran, handled, closes := map[], multiset{}, multiset{}, {}, map[];
    }

    /** Marks the request resolved unless it already is; returns the callback to run,
        if a handler wants one. keep says whether the caller will run it. */
    method ResolveLocked(id: Id, e: Ending, ghost keep: bool) returns (cb: Option<Call>)
      requires SameKnown(Now()) && id in requests
      modifies this`requests, this`due, this`handled, this`closes
      ensures old(!requests[id].Open()) ==> cb == None && Now() == old(Now())
      ensures old(requests[id].Open()) ==> Now() == Resolve(old(Now()), id, e, keep)
      ensures old(requests[id].Open()) ==> cb == if handler then Some(Call(id, e.outcome)) else None
    {
      if !requests[id].Open() {
        return None;
      }
      requests := requests[id := requests[id].(ending := Some(e))];
      closes := closes[id := closes[id] + 1];
      if !handler {
        return None;
      }
      if keep {
        due := due + multiset{Call(id, e.outcome)};
        handled := handled + {id};
      }
      return Some(Call(id, e.outcome));
    }

    method ResolveById(id: Id, e: Ending) returns (known: bool, cb: Option<Call>)
      requires SameKnown(Now())
      modifies this`requests, this`due, this`handled, this`closes
      ensures known <==> id in pending
      ensures Now() == ResolveIfKnown(old(Now()), id, e)
      ensures cb.Some? <==> old(IsOpen(Now(), id)) && handler
    {
      if id !in pending {
        return false, None;
      }
      cb := ResolveLocked(id, e, true);
      known := true;
    }

    method AnswerRequest(id: Id, ans: Answer) returns (reply: Reply, cb: Option<Call>)
      requires SameKnown(Now())
      modifies this`requests, this`due, this`handled, this`closes
      ensures (Now(), reply) == AnswerStep(old(Now()), id, ans)
      ensures cb.Some? <==> reply == Ok && handler
    {
      cb := None;
      if id !in pending {
        return NotFound, None;
      }
      var p := requests[id];
      if !p.Open() {
        return Conflict(p.ending.value.outcome), None;
      }
      var got := 0;
      for i := 0 to |p.fields|
        invariant got >= 0 && (got > 0 <==> exists j :: 0 <= j < i && p.fields[j] in ans.secrets)
      {
        if p.fields[i] in ans.secrets {
          got := got + 1;
        }
      }
      CarriesByIndex(p.fields, ans);
      if got == 0 {
        return NoneRequested, None;
      }
      cb := ResolveLocked(id, Ending(Answered, ans, false), true);
      reply := Ok;
    }

    method CancelRequest(id: Id) returns (reply: Reply, cb: Option<Call>)
      requires SameKnown(Now())
      modifies this`requests, this`due, this`handled, this`closes
      ensures (Now(), reply) == CancelStep(old(Now()), id)
      ensures cb.Some? <==> reply == Ok && handler
    {
      if id !in pending {
        return NotFound, None;
      }
      if !requests[id].Open() {
        return Conflict(requests[id].ending.value.outcome), None;
      }
      cb := ResolveLocked(id, Ending(Cancelled, NO_ANSWER, false), true);
      reply := Ok;
    }

    /** Visits the pending map in Go's arbitrary order and resolves what is open for
        the profile and setting. */
    method ResolveMatching(path: Path, setting: string, e: Ending, ghost keep: bool)
      returns (cbs: seq<Call>, ghost order: seq<Id>)
      requires SameKnown(Now())
      modifies this`requests, this`due, this`handled, this`closes
      ensures Visits(order, Matching(old(Now()), path, setting))
      ensures Now() == ResolveAll(old(Now()), order, e, keep)
      ensures !handler ==> cbs == []
      ensures handler ==> |cbs| == |order|
    {
      hide Visits, Matching;
      ghost var s0 := Now();
      ghost var all := Matching(s0, path, setting);
      cbs, order := [], [];
      var todo := pending;
      MatchingIsPending(s0, path, setting);
      VisitNone(all, todo);
      while todo != {}
        invariant todo <= pending == s0.pending && handler == s0.handler
        invariant Visits(order, all - todo)
        invariant Now() == ResolveAll(s0, order, e, keep)
        invariant forall id :: id in todo ==> id in requests && id in s0.requests && requests[id] == s0.requests[id]
        invariant |cbs| == if handler then |order| else 0
        decreases todo
      {
        var id :| id in todo;
        VisitStep(order, all, todo, id);
        InMatching(s0, path, setting, id);
        todo := todo - {id};
        var p := requests[id];
        if p.Open() && p.path == path && p.setting == setting {
          ResolveAllMore(s0, order, id, e, keep);
          var cb := ResolveLocked(id, e, keep);
          order := order + [id];
          if cb.Some? {
            cbs := cbs + [cb.value];
          }
        }
      }
      assert all - {} == all;
    }

    /** CancelGetSecrets. */
    method CancelByNetworkManager(path: Path, setting: string) returns (cbs: seq<Call>, ghost order: seq<Id>)
      requires SameKnown(Now())
      modifies this`requests, this`due, this`handled, this`closes
      ensures Enabled(old(Now()), CancelByNM(path, setting, order))
      ensures Now() == Step(old(Now()), CancelByNM(path, setting, order))
    {
      cbs, order := ResolveMatching(path, setting, Ending(Cancelled, NO_ANSWER, true), true);
    }

    /** Client shutdown: everything pending, in Go's arbitrary order. */
    method CancelEverything() returns (cbs: seq<Call>, ghost order: seq<Id>)
      requires SameKnown(Now())
      modifies this`requests, this`due, this`handled, this`closes
      ensures Visits(order, old(pending)) && Now() == Step(old(Now()), CancelAll(order))
    {
      hide Visits;
      ghost var s0 := Now();
      var e := Ending(Cancelled, NO_ANSWER, false);
      cbs, order := [], [];
      var todo := pending;
      VisitNone(s0.pending, todo);
      while todo != {}
        invariant todo <= pending == s0.pending && SameKnown(Now())
        invariant Visits(order, s0.pending - todo)
        invariant Now() == ResolveAll(s0, order, e, true)
        decreases todo
      {
        var id :| id in todo;
        VisitStep(order, s0.pending, todo, id);
        ResolveAllMore(s0, order, id, e, true);
        todo := todo - {id};
        order := order + [id];
        var cb := ResolveLocked(id, e, true);
        if cb.Some? {
          cbs := cbs + [cb.value];
        }
      }
      assert s0.pending - {} == s0.pending;
    }

    /** getSecrets up to its select, under a fresh id. */
    method BeginRequest(id: Id, path: Path, setting: string, fields: seq<string>) returns (ghost order: seq<Id>)
      requires SameKnown(Now()) && id !in requests
      modifies this
      ensures Enabled(old(Now()), GetSecrets(id, path, setting, fields, order))
      ensures Now() == Step(old(Now()), GetSecrets(id, path, setting, fields, order))
    {
      var dropped: seq<Call>;
      dropped, order := ResolveMatching(path, setting, Ending(Cancelled, NO_ANSWER, true), false);
      requests := requests[id := Request(path, setting, fields, None)];
      pending := pending + {id};
      waiters := waiters[id := Selecting];
      closes := closes[id := 0];
    }

    method ForgetRequest(id: Id)
      modifies this`pending
      ensures Now() == old(Now()).(pending := old(pending) - {id})
    {
      pending := pending - {id};
    }

    /** Whether a request for the profile is open. */
    method PendingFor(path: Path) returns (found: bool)
      requires SameKnown(Now())
      ensures found <==> path != "" && path != "/" && exists id :: IsOpen(Now(), id) && requests[id].path == path
    {
      if path == "" || path == "/" {
        return false;
      }
      var todo := pending;
      while todo != {}
        invariant todo <= pending
        invariant forall id :: id in pending - todo ==> !(requests[id].Open() && requests[id].path == path)
        decreases todo
      {
        var id :| id in todo;
        todo := todo - {id};
        if requests[id].Open() && requests[id].path == path {
          assert IsOpen(Now(), id);
          return true;
        }
      }
      found := false;
    }
  }

  lemma {:induction false} MatchingIsPending(s: State, path: Path, setting: string)
    ensures Matching(s, path, setting) <= s.pending
  {
  }

  lemma {:induction false} InMatching(s: State, path: Path, setting: string, id: Id)
    requires id in s.pending && id in s.requests
    ensures id in Matching(s, path, setting) <==>
      s.requests[id].Open() && s.requests[id].path == path && s.requests[id].setting == setting
  {
  }

  lemma {:induction false} ResolveAllMore(s: State, ids: seq<Id>, id: Id, e: Ending, keep: bool)
    requires SameKnown(s)
    ensures var rest := ResolveAll(s, ids, e, keep);
      ResolveAll(s, ids + [id], e, keep) == if IsOpen(rest, id) then Resolve(rest, id, e, keep) else rest
  {
    assert (ids + [id])[..|ids|] == ids;
  }

  lemma {:induction false} CarriesByIndex(fields: seq<string>, ans: Answer)
    ensures Carries(fields, ans) <==> exists j :: 0 <= j < |fields| && fields[j] in ans.secrets
  {
    if Carries(fields, ans) {
      var f :| f in fields && f in ans.secrets;
      var j :| 0 <= j < |fields| && fields[j] == f;
    }
  }
}
