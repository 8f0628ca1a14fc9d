/** The hysteresis machine exactly: from any start without streaks, what its state, streaks
    and stamps are after any row of verdicts, and when it changes. */
module Streaks {
  import opened Engine

  /** A verdict, its instant, and whether the window was long enough to be judged. */
  datatype Turn = Turn(enough: bool, v: Verdict, at: int)

  /** The machine that starts at m and is shown these verdicts. */
  function Feed(c: Config, m: Machine, ts: seq<Turn>): Machine {
    if ts == [] then m
    else
      var t := ts[|ts| - 1];
      MachineStep(c, Feed(c, m, ts[..|ts| - 1]), t.enough, t.v, t.at)
  }

  predicate NoStreak(m: Machine) { m.badStreak == 0 && m.goodStreak == 0 }

  // ---- runs of verdicts ----

  /** How many verdicts at the end are good (bad). */
  function TrailingGood(ts: seq<Turn>): nat {
    if ts == [] || !ts[|ts| - 1].v.good then 0 else TrailingGood(ts[..|ts| - 1]) + 1
  }

  function TrailingBad(ts: seq<Turn>): nat {
    if ts == [] || !ts[|ts| - 1].v.Bad() then 0 else TrailingBad(ts[..|ts| - 1]) + 1
  }

  predicate LastGood(ts: seq<Turn>, n: nat) { n <= |ts| && forall i :: |ts| - n <= i < |ts| ==> ts[i].v.good }
  predicate LastBad(ts: seq<Turn>, n: nat) { n <= |ts| && forall i :: |ts| - n <= i < |ts| ==> ts[i].v.Bad() }

  lemma {:induction false} TrailingGoodIs(ts: seq<Turn>, n: nat)
    ensures TrailingGood(ts) >= n <==> LastGood(ts, n)
    decreases |ts|
  {
    if ts != [] && n > 0 {
      var before := ts[..|ts| - 1];
      TrailingGoodIs(before, n - 1);
      assert forall i :: 0 <= i < |before| ==> ts[i] == before[i];
    }
  }

  lemma {:induction false} TrailingBadIs(ts: seq<Turn>, n: nat)
    ensures TrailingBad(ts) >= n <==> LastBad(ts, n)
    decreases |ts|
  {
    if ts != [] && n > 0 {
      var before := ts[..|ts| - 1];
      TrailingBadIs(before, n - 1);
      assert forall i :: 0 <= i < |before| ==> ts[i] == before[i];
    }
  }

  // ---- how long the machine has been in its state ----

  /** How many of the last verdicts count towards a change of the present state: those
      given since it was entered, and the one that ended the learning, which is counted. */
  function Counting(c: Config, m: Machine, ts: seq<Turn>): nat {
    if ts == [] then 0
    else
      var before := ts[..|ts| - 1];
      var was, now := Feed(c, m, before).state, Feed(c, m, ts).state;
      if was == now then Counting(c, m, before) + 1
      else if (was == Learning || was == Idle) && now == OK then 1
      else 0
  }

  /** When the present state was entered: at the last change, or at the start. */
  function EnteredAt(c: Config, m: Machine, ts: seq<Turn>): int {
    if ts == [] then m.since
    else
      var before := ts[..|ts| - 1];
      if Feed(c, m, before).state == Feed(c, m, ts).state then EnteredAt(c, m, before) else ts[|ts| - 1].at
  }

  function Min(x: nat, y: nat): nat { if x < y then x else y }

  /** A streak is the longest run of good (bad) verdicts at the end of those that count. */
  ghost predicate Exact(c: Config, m: Machine, ts: seq<Turn>) {
    var r := Feed(c, m, ts);
    && r.since == EnteredAt(c, m, ts)
    && (r.state == OK ==> r.badStreak == Min(TrailingBad(ts), Counting(c, m, ts)) < c.degradeStreak)
    && (r.state == Degraded ==> r.goodStreak == Min(TrailingGood(ts), Counting(c, m, ts)) < c.recoverStreak)
  }

  /** One verdict, in the words of the source. */
  lemma {:induction false} OneTurn(c: Config, m: Machine, t: Turn)
    requires Effective(c) && (m.state == OK ==> m.badStreak < c.degradeStreak)
    ensures var r := MachineStep(c, m, t.enough, t.v, t.at);
      && (!t.enough ==> r.state == Learning)
      && (t.enough && (m.state == Learning || m.state == Idle || m.state == OK) ==>
           var bad := if !t.v.Bad() then 0 else if m.state == OK then m.badStreak + 1 else 1;
           && r.state == (if bad >= c.degradeStreak then Degraded else OK)
           && r.badStreak == bad && (r.state == Degraded ==> r.goodStreak == 0)
           && (t.v.Bad() ==> r.lastReason == if t.v.rttBad then Rtt else Loss))
      && (t.enough && m.state == Degraded ==>
           var good := if t.v.good then m.goodStreak + 1 else 0;
           && r.state == (if good >= c.recoverStreak then OK else Degraded)
           && r.goodStreak == good && (r.state == OK ==> r.badStreak == 0) && r.lastReason == m.lastReason)
      && r.since == (if r.state != m.state then t.at else m.since)
  {
  }

  lemma {:induction false} StreaksAreExact(c: Config, m: Machine, ts: seq<Turn>)
    requires Effective(c) && NoStreak(m) && m.state != Unset
    ensures Exact(c, m, ts) && Feed(c, m, ts).state != Unset
  {
    if ts != [] {
      var before, t := ts[..|ts| - 1], ts[|ts| - 1];
      StreaksAreExact(c, m, before);
      OneTurn(c, Feed(c, m, before), t);
      hide MachineStep;
    }
  }

  // ---- when it changes ----

  /** Recovery, exactly: a degraded machine is ok after a verdict if and only if the last
      RecoverStreak verdicts are good, all of them given since it became degraded (or
      since the start); otherwise it is degraded still. */
  lemma {:induction false} RecoversExactly(c: Config, m: Machine, ts: seq<Turn>)
    requires Effective(c) && NoStreak(m) && m.state != Unset && ts != [] && ts[|ts| - 1].enough
    requires Feed(c, m, ts[..|ts| - 1]).state == Degraded
    ensures var before, r := ts[..|ts| - 1], Feed(c, m, ts).state;
      && (r == OK <==> LastGood(ts, c.recoverStreak) && Counting(c, m, before) + 1 >= c.recoverStreak)
      && (r == OK || r == Degraded)
  {
    var before, t := ts[..|ts| - 1], ts[|ts| - 1];
    StreaksAreExact(c, m, before);
    OneTurn(c, Feed(c, m, before), t);
    TrailingGoodIs(ts, c.recoverStreak);
    hide MachineStep, LastGood, Counting;
  }

  /** Degrading, exactly: a machine that is ok is degraded after a verdict if and only if
      the last DegradeStreak verdicts are bad, all of them given since it became ok (or
      since the start); the reason is that of the last one. */
  lemma {:induction false} DegradesExactly(c: Config, m: Machine, ts: seq<Turn>)
    requires Effective(c) && NoStreak(m) && m.state != Unset && ts != [] && ts[|ts| - 1].enough
    requires Feed(c, m, ts[..|ts| - 1]).state == OK
    ensures var before, t, r := ts[..|ts| - 1], ts[|ts| - 1], Feed(c, m, ts);
      && (r.state == Degraded <==> LastBad(ts, c.degradeStreak) && Counting(c, m, before) + 1 >= c.degradeStreak)
      && (r.state == OK || r.state == Degraded)
      && (r.state == Degraded ==> r.since == t.at && r.lastReason == if t.v.rttBad then Rtt else Loss)
  {
    var before, t := ts[..|ts| - 1], ts[|ts| - 1];
    StreaksAreExact(c, m, before);
    OneTurn(c, Feed(c, m, before), t);
    TrailingBadIs(ts, c.degradeStreak);
    hide MachineStep, LastBad, Counting;
  }

  /** The end of learning: the first judged verdict, if bad, is the first of a streak. */
  lemma {:induction false} LearningEndsExactly(c: Config, m: Machine, ts: seq<Turn>)
    requires Effective(c) && NoStreak(m) && m.state != Unset && ts != []
    requires var was := Feed(c, m, ts[..|ts| - 1]).state; was == Learning || was == Idle
    ensures var t, r := ts[|ts| - 1], Feed(c, m, ts).state;
      r == if !t.enough then Learning else if t.v.Bad() && c.degradeStreak == 1 then Degraded else OK
  {
    var before := ts[..|ts| - 1];
    StreaksAreExact(c, m, before);
    OneTurn(c, Feed(c, m, before), ts[|ts| - 1]);
  }

  // ---- and that it does change ----

  lemma {:induction false} FeedMore(c: Config, m: Machine, xs: seq<Turn>, t: Turn)
    ensures Feed(c, m, xs + [t]) == MachineStep(c, Feed(c, m, xs), t.enough, t.v, t.at)
  {
    assert (xs + [t])[..|xs|] == xs;
  }

  /** From degraded, RecoverStreak good verdicts in a row lead to ok, the last of them at
      the latest. */
  lemma {:induction false} GoodRunRecovers(c: Config, m: Machine, ts: seq<Turn>, n: nat)
    requires Effective(c) && NoStreak(m) && m.state != Unset && n <= |ts|
    requires Feed(c, m, ts[..n]).state == Degraded && |ts| - n >= c.recoverStreak
    requires forall i :: n <= i < |ts| ==> ts[i].enough && ts[i].v.good
    ensures exists k :: n < k <= n + c.recoverStreak && Feed(c, m, ts[..k]).state == OK
  {
    if forall k :: n < k <= n + c.recoverStreak ==> Feed(c, m, ts[..k]).state != OK {
      StillDegraded(c, m, ts, n, n + c.recoverStreak);
      var all := ts[..n + c.recoverStreak];
      StreaksAreExact(c, m, all);
      CountedSince(c, m, ts, n, n + c.recoverStreak);
      TrailingGoodIs(all, c.recoverStreak);
    }
  }

  /** As long as it is not ok, a degraded machine that is judged stays degraded. */
  lemma {:induction false} StillDegraded(c: Config, m: Machine, ts: seq<Turn>, n: nat, k: nat)
    requires Effective(c) && NoStreak(m) && m.state != Unset && n <= k <= |ts|
    requires Feed(c, m, ts[..n]).state == Degraded
    requires forall i :: n <= i < k ==> ts[i].enough
    requires forall i :: n < i <= k ==> Feed(c, m, ts[..i]).state != OK
    ensures forall i :: n <= i <= k ==> Feed(c, m, ts[..i]).state == Degraded
    decreases k
  {
    if n < k {
      StillDegraded(c, m, ts, n, k - 1);
      assert ts[..k][..k - 1] == ts[..k - 1];
      RecoversExactly(c, m, ts[..k]);
    }
  }

  lemma {:induction false} CountedSince(c: Config, m: Machine, ts: seq<Turn>, n: nat, k: nat)
    requires n <= k <= |ts| && forall i :: n <= i <= k ==> Feed(c, m, ts[..i]).state == Degraded
    ensures Counting(c, m, ts[..k]) >= k - n
    decreases k
  {
    if n < k {
      CountedSince(c, m, ts, n, k - 1);
      assert ts[..k][..k - 1] == ts[..k - 1];
    }
  }
}
