/** What answering and cancelling a secret request does, and what GetSecrets then gives
    back (internal/nm/agent.go answer, cancel and the end of getSecrets). */
module AgentAnswers {
  import opened Options
  import opened Agent
  import opened AgentRuns

  /** Everything but one request's ending, its done channel and the callback is the same. */
  ghost predicate OnlyEnds(s: State, r: State, id: Id, e: Ending)
    requires id in s.requests && id in s.closes
  {
    && r.requests == s.requests[id := s.requests[id].(ending := Some(e))]
    && r.closes == s.closes[id := s.closes[id] + 1]
    && r.pending == s.pending && r.waiters == s.waiters && r.handler == s.handler && r.ran == s.ran
    && r.due == s.due + (if s.handler then multiset{Call(id, e.outcome)} else multiset{})
  }

  /** An answer, exactly: accepted for an open request if and only if it carries one of the
      requested fields; the request then ends as answered, with this very answer, and a
      handler is told so. Otherwise nothing changes, and the reply says why. */
  lemma {:induction false} AnswerExactly(s: State, id: Id, ans: Answer)
    requires SameKnown(s)
    ensures var (r, reply) := AnswerStep(s, id, ans);
      && r == Step(s, DoAnswer(id, ans))
      && (id !in s.pending ==> reply == NotFound && r == s)
      && (id in s.pending && s.requests[id].ending.Some? ==>
           reply == Conflict(s.requests[id].ending.value.outcome) && r == s)
      && (id in s.pending && s.requests[id].ending == None ==>
           if exists f :: f in s.requests[id].fields && f in ans.secrets
           then reply == Ok && OnlyEnds(s, r, id, Ending(Answered, ans, false))
           else reply == NoneRequested && r == s)
  {
    assert forall x: multiset<Call> :: x + multiset{} == x;
  }

  /** A cancel, exactly: an open request ends as cancelled, without an answer. */
  lemma {:induction false} CancelExactly(s: State, id: Id)
    requires SameKnown(s)
    ensures var (r, reply) := CancelStep(s, id);
      && r == Step(s, DoCancel(id))
      && (id !in s.pending ==> reply == NotFound && r == s)
      && (id in s.pending && s.requests[id].ending.Some? ==>
           reply == Conflict(s.requests[id].ending.value.outcome) && r == s)
      && (id in s.pending && s.requests[id].ending == None ==>
           reply == Ok && OnlyEnds(s, r, id, Ending(Cancelled, NO_ANSWER, false)))
  {
    assert forall x: multiset<Call> :: x + multiset{} == x;
  }

  /** In every run: once an answer is accepted, GetSecrets can only give back that answer,
      and every callback of the request reports that it was answered. */
  lemma {:induction false} AnswerIsReturned(ss: seq<State>, acts: seq<Action>, i: nat, j: nat, id: Id, ans: Answer)
    requires IsRun(ss, acts) && i < |acts| && i < j < |ss| && acts[i] == DoAnswer(id, ans)
    requires id in ss[i].pending && id in ss[i].requests && ss[i].requests[id].ending == None
    requires exists f :: f in ss[i].requests[id].fields && f in ans.secrets
    ensures id in ss[j].waiters
    ensures ss[j].waiters[id].Returned? ==> ss[j].waiters[id].ending == Ending(Answered, ans, false)
    ensures forall o :: (ss[j].due + ss[j].ran)[Call(id, o)] > 0 ==> o == Answered
  {
    hide Inv, Sound, OneOpenEach;
    RunKeeps(ss, acts, i);
    AnswerExactly(ss[i], id, ans);
    EndsAs(ss, acts, i, j, id, Ending(Answered, ans, false));
  }

  /** The same for a cancel. */
  lemma {:induction false} CancelIsReturned(ss: seq<State>, acts: seq<Action>, i: nat, j: nat, id: Id)
    requires IsRun(ss, acts) && i < |acts| && i < j < |ss| && acts[i] == DoCancel(id)
    requires id in ss[i].pending && id in ss[i].requests && ss[i].requests[id].ending == None
    ensures id in ss[j].waiters
    ensures ss[j].waiters[id].Returned? ==> ss[j].waiters[id].ending == Ending(Cancelled, NO_ANSWER, false)
    ensures forall o :: (ss[j].due + ss[j].ran)[Call(id, o)] > 0 ==> o == Cancelled
  {
    hide Inv, Sound, OneOpenEach;
    RunKeeps(ss, acts, i);
    CancelExactly(ss[i], id);
    EndsAs(ss, acts, i, j, id, Ending(Cancelled, NO_ANSWER, false));
  }

  /** A request that a step ends so stays so, for GetSecrets and for the callbacks. */
  lemma {:induction false} EndsAs(ss: seq<State>, acts: seq<Action>, i: nat, j: nat, id: Id, e: Ending)
    requires IsRun(ss, acts) && i < j < |ss|
    requires id in ss[i + 1].requests && ss[i + 1].requests[id].ending == Some(e)
    ensures id in ss[j].waiters
    ensures ss[j].waiters[id].Returned? ==> ss[j].waiters[id].ending == e
    ensures forall o :: (ss[j].due + ss[j].ran)[Call(id, o)] > 0 ==> o == e.outcome
  {
    hide OneOpenEach, IsRun;
    FirstResolverWins(ss, acts, i + 1, j, id);
    RunKeeps(ss, acts, j);
    assert Sound(ss[j], id);
  }

  // ---- forgetting ----

  /** A forgotten request is not pending again, and nobody can answer or cancel it: the
      reply is not found. */
  lemma {:induction false} ForgottenStays(ss: seq<State>, acts: seq<Action>, i: nat, j: nat, id: Id, ans: Answer)
    requires IsRun(ss, acts) && i < |acts| && i < j < |ss| && acts[i] == Forget(id)
    ensures id !in ss[j].pending && id in ss[j].requests && SameKnown(ss[j])
    ensures AnswerStep(ss[j], id, ans) == (ss[j], NotFound) && CancelStep(ss[j], id) == (ss[j], NotFound)
    decreases j
  {
    hide Inv, Sound, OneOpenEach, IsRun, Step, Enabled;
    RunKeeps(ss, acts, j - 1);
    RunKeeps(ss, acts, j);
    InvKnows(ss[j - 1]);
    InvKnows(ss[j]);
    StepOf(ss, acts, i);
    StepOf(ss, acts, j - 1);
    if j == i + 1 {
      ForgetTakesOut(ss[i], id);
    } else {
      ForgottenStays(ss, acts, i, j - 1, id, ans);
      OutStaysOut(ss[j - 1], acts[j - 1], id);
    }
  }

  lemma {:induction false} StepOf(ss: seq<State>, acts: seq<Action>, i: nat)
    requires IsRun(ss, acts) && i < |acts|
    ensures |ss| == |acts| + 1 && SameKnown(ss[i]) && Enabled(ss[i], acts[i]) && ss[i + 1] == Step(ss[i], acts[i])
  {
  }

  lemma {:induction false} InvKnows(s: State)
    requires Inv(s)
    ensures SameKnown(s)
    ensures forall id :: id in s.waiters ==> id in s.requests
  {
    forall id | id in s.waiters ensures id in s.requests {
      assert Sound(s, id);
    }
  }

  lemma {:induction false} ForgetTakesOut(s: State, id: Id)
    requires SameKnown(s) && Enabled(s, Forget(id)) && forall x :: x in s.waiters ==> x in s.requests
    ensures id !in Step(s, Forget(id)).pending && id in Step(s, Forget(id)).requests
  {
  }

  /** Ids are fresh, so a request that is out of the pending ones never comes back. */
  lemma {:induction false} OutStaysOut(s: State, a: Action, id: Id)
    requires SameKnown(s) && Enabled(s, a) && id in s.requests && id !in s.pending
    ensures id in Step(s, a).requests && id !in Step(s, a).pending
  {
  }
}
