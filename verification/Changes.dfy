/** When an anchor changes state, exactly, in terms of its own samples. */
module Changes {
  import opened Engine
  import opened EngineRuns
  import opened Streaks

  /** The verdict on every window of the history, one per sample. */
  function Turns(c: Config, ss: seq<Sample>): (ts: seq<Turn>)
    requires Effective(c)
    ensures |ts| == |ss|
  {
    if ss == [] then []
    else Turns(c, ss[..|ss| - 1]) + [Turn(|ss| >= c.minSamples, Judge(c, Last(ss, c.window)), ss[|ss| - 1].time)]
  }

  lemma {:induction false} TurnAt(c: Config, ss: seq<Sample>, i: nat)
    requires Effective(c) && i < |ss|
    ensures Turns(c, ss)[i] == Turn(i + 1 >= c.minSamples, Judge(c, WindowAt(c, ss, i + 1)), ss[i].time)
    decreases |ss|
  {
    hide Judge;
    if i < |ss| - 1 {
      TurnAt(c, ss[..|ss| - 1], i);
      assert ss[..|ss| - 1][..i + 1] == ss[..i + 1];
    } else {
      assert ss[..|ss|] == ss;
    }
  }

  lemma {:induction false} TurnsOfPrefix(c: Config, ss: seq<Sample>, n: nat)
    requires Effective(c) && n <= |ss|
    ensures Turns(c, ss)[..n] == Turns(c, ss[..n])
    decreases |ss|
  {
    hide Judge;
    if n == |ss| {
      assert ss[..n] == ss && Turns(c, ss)[..n] == Turns(c, ss);
    } else {
      var before := ss[..|ss| - 1];
      TurnsOfPrefix(c, before, n);
      assert before[..n] == ss[..n];
      assert Turns(c, ss)[..|before|] == Turns(c, before);
      hide Turns;
      assert Turns(c, ss)[..|before|][..n] == Turns(c, ss)[..n];
    }
  }

  function Start(ss: seq<Sample>): Machine
    requires ss != []
  {
    FreshMachine(ss[0].time)
  }

  lemma {:induction false} ReplayStep(c: Config, ss: seq<Sample>)
    requires Effective(c) && ss != []
    ensures var s, m := ss[|ss| - 1], if |ss| == 1 then FreshMachine(ss[0].time) else Replay(c, ss[..|ss| - 1]).m;
      Replay(c, ss).m == MachineStep(c, m, |ss| >= c.minSamples, Judge(c, Last(ss, c.window)), s.time)
  {
    WindowIsSuffix(c, ss);
    hide Judge, Snapshot, MachineStep, Last;
    var s := ss[|ss| - 1];
    var a := AnchorStep(c, if |ss| == 1 then Fresh(s.time) else Replay(c, ss[..|ss| - 1]), s);
    assert Replay(c, ss) == a && a.samples == Last(ss, c.window);
  }

  lemma {:induction false} ReplayIsFeed(c: Config, ss: seq<Sample>)
    requires Effective(c) && ss != []
    ensures Replay(c, ss).m == Feed(c, Start(ss), Turns(c, ss))
    decreases |ss|
  {
    hide Judge, MachineStep, Replay;
    ReplayStep(c, ss);
    var before, ts := ss[..|ss| - 1], Turns(c, ss);
    assert ts[..|ss| - 1] == Turns(c, before);
    if |ss| > 1 {
      ReplayIsFeed(c, before);
    } else {
      assert before == [];
    }
  }

  predicate In(c: Config, ss: seq<Sample>, st: State)
    requires Effective(c)
  {
    ss != [] && Replay(c, ss).m.state == st
  }

  /** How many samples an anchor has been degraded for, the one that degraded it aside. */
  function DegradedFor(c: Config, ss: seq<Sample>): nat
    requires Effective(c)
  {
    if ss == [] || !In(c, ss, Degraded) || !In(c, ss[..|ss| - 1], Degraded) then 0
    else DegradedFor(c, ss[..|ss| - 1]) + 1
  }

  /** How many samples an anchor has been ok for; the one that recovered it does not count,
      the one that ended its learning does. */
  function OkFor(c: Config, ss: seq<Sample>): nat
    requires Effective(c)
  {
    if ss == [] || !In(c, ss, OK) || In(c, ss[..|ss| - 1], Degraded) then 0
    else if In(c, ss[..|ss| - 1], OK) then OkFor(c, ss[..|ss| - 1]) + 1
    else 1
  }

  lemma {:induction false} CountingIs(c: Config, ss: seq<Sample>)
    requires Effective(c) && ss != []
    ensures In(c, ss, Degraded) ==> Counting(c, Start(ss), Turns(c, ss)) == DegradedFor(c, ss)
    ensures In(c, ss, OK) ==> Counting(c, Start(ss), Turns(c, ss)) == OkFor(c, ss)
    decreases |ss|
  {
    hide Judge, Replay, MachineStep;
    var before, ts := ss[..|ss| - 1], Turns(c, ss);
    assert ts[..|ss| - 1] == Turns(c, before);
    ReplayIsFeed(c, ss);
    LearningLasts(c, ss);
    if |ss| > 1 {
      CountingIs(c, before);
      ReplayIsFeed(c, before);
      LearningLasts(c, before);
    }
    hide Turns;
  }

  // ---- recovery ----

  ghost predicate GoodWindows(c: Config, ss: seq<Sample>, n: nat)
    requires Effective(c)
  {
    n <= |ss| && forall k :: |ss| - n < k <= |ss| ==> Judge(c, WindowAt(c, ss, k)).good
  }

  ghost predicate BadWindows(c: Config, ss: seq<Sample>, n: nat)
    requires Effective(c)
  {
    n <= |ss| && forall k :: |ss| - n < k <= |ss| ==> Judge(c, WindowAt(c, ss, k)).Bad()
  }

  lemma {:induction false} WindowsAreTurns(c: Config, ss: seq<Sample>, n: nat)
    requires Effective(c)
    ensures GoodWindows(c, ss, n) <==> LastGood(Turns(c, ss), n)
    ensures BadWindows(c, ss, n) <==> LastBad(Turns(c, ss), n)
  {
    hide Judge, Turns, WindowAt;
    var ts := Turns(c, ss);
    forall i | 0 <= i < |ss| ensures ts[i].v == Judge(c, WindowAt(c, ss, i + 1)) {
      TurnAt(c, ss, i);
    }
    if LastGood(ts, n) {
      forall k | |ss| - n < k <= |ss| ensures Judge(c, WindowAt(c, ss, k)).good {
        assert ts[k - 1].v.good;
      }
    }
    if LastBad(ts, n) {
      forall k | |ss| - n < k <= |ss| ensures Judge(c, WindowAt(c, ss, k)).Bad() {
        assert ts[k - 1].v.Bad();
      }
    }
  }

  /** A degraded anchor is ok after a sample if and only if its last RecoverStreak windows
      are good and it has been degraded for that long; otherwise it is degraded still. */
  lemma {:induction false} AnchorRecoversExactly(c: Config, ss: seq<Sample>)
    requires Effective(c) && ss != [] && In(c, ss[..|ss| - 1], Degraded)
    ensures In(c, ss, OK) <==>
      GoodWindows(c, ss, c.recoverStreak) && DegradedFor(c, ss[..|ss| - 1]) + 1 >= c.recoverStreak
    ensures In(c, ss, OK) || In(c, ss, Degraded)
  {
    hide Judge, Replay, GoodWindows, LastGood, DegradedFor, Counting, Feed;
    var before, ts := ss[..|ss| - 1], Turns(c, ss);
    assert ts[..|ss| - 1] == Turns(c, before);
    LearningLasts(c, before);
    ReplayIsFeed(c, ss);
    ReplayIsFeed(c, before);
    CountingIs(c, before);
    WindowsAreTurns(c, ss, c.recoverStreak);
    RecoversExactly(c, Start(ss), ts);
  }

  /** An anchor that is ok is degraded after a sample if and only if its last DegradeStreak
      windows are bad and it has been ok for that long; the reason is latency if the last
      window's latency is bad, and loss otherwise. */
  lemma {:induction false} AnchorDegradesExactly(c: Config, ss: seq<Sample>)
    requires Effective(c) && ss != [] && In(c, ss[..|ss| - 1], OK)
    ensures In(c, ss, Degraded) <==>
      BadWindows(c, ss, c.degradeStreak) && OkFor(c, ss[..|ss| - 1]) + 1 >= c.degradeStreak
    ensures In(c, ss, OK) || In(c, ss, Degraded)
    ensures In(c, ss, Degraded) ==>
      && Replay(c, ss).m.since == ss[|ss| - 1].time
      && Replay(c, ss).m.lastReason == if Judge(c, Last(ss, c.window)).rttBad then Rtt else Loss
  {
    hide Judge, Replay, BadWindows, LastBad, OkFor, Counting, Feed;
    var before, ts := ss[..|ss| - 1], Turns(c, ss);
    assert ts[..|ss| - 1] == Turns(c, before);
    LearningLasts(c, before);
    ReplayIsFeed(c, ss);
    ReplayIsFeed(c, before);
    CountingIs(c, before);
    WindowsAreTurns(c, ss, c.degradeStreak);
    DegradesExactly(c, Start(ss), ts);
  }

  /** Recovery happens: RecoverStreak good windows in a row, the last of them at the
      latest, bring a degraded anchor back to ok. */
  lemma {:induction false} GoodWindowsRecover(c: Config, ss: seq<Sample>, n: nat)
    requires Effective(c) && 0 < n <= |ss| && In(c, ss[..n], Degraded) && |ss| - n >= c.recoverStreak
    requires forall k :: n < k <= |ss| ==> Judge(c, WindowAt(c, ss, k)).good
    ensures exists k :: n < k <= n + c.recoverStreak && In(c, ss[..k], OK)
  {
    hide Judge, Replay, Feed, WindowAt, Turns;
    var ts := Turns(c, ss);
    LearningLasts(c, ss[..n]);
    forall i | n <= i < |ss| ensures ts[i].enough && ts[i].v.good {
      TurnAt(c, ss, i);
      assert Judge(c, WindowAt(c, ss, i + 1)).good;
    }
    PrefixFed(c, ss, n);
    GoodRunRecovers(c, Start(ss), ts, n);
    var k :| n < k <= n + c.recoverStreak && Feed(c, Start(ss), ts[..k]).state == OK;
    PrefixFed(c, ss, k);
    assert In(c, ss[..k], OK);
  }

  lemma {:induction false} PrefixFed(c: Config, ss: seq<Sample>, k: nat)
    requires Effective(c) && 0 < k <= |ss|
    ensures Replay(c, ss[..k]).m == Feed(c, Start(ss), Turns(c, ss)[..k])
  {
    hide Replay, Feed, Turns;
    ReplayIsFeed(c, ss[..k]);
    TurnsOfPrefix(c, ss, k);
  }

  /** Degrading happens: an anchor that is ok with bad streak b is degraded after
      DegradeStreak - b more bad windows in a row, or earlier. */
  lemma {:induction false} BadWindowsDegrade(c: Config, ss: seq<Sample>, n: nat)
    requires Effective(c) && 0 < n <= |ss| && In(c, ss[..n], OK) && |ss| - n >= c.degradeStreak
    requires forall k :: n < k <= |ss| ==> Judge(c, WindowAt(c, ss, k)).Bad()
    ensures exists k :: n < k <= n + c.degradeStreak && In(c, ss[..k], Degraded)
  {
    hide Replay, Judge, WindowAt;
    if forall k :: n < k <= n + c.degradeStreak ==> !In(c, ss[..k], Degraded) {
      StillOk(c, ss, n, n + c.degradeStreak);
      var all, before := ss[..n + c.degradeStreak], ss[..n + c.degradeStreak - 1];
      assert all[..|all| - 1] == before;
      AnchorDegradesExactly(c, all);
      forall k | |all| - c.degradeStreak < k <= |all| ensures Judge(c, WindowAt(c, all, k)).Bad() {
        SameWindow(c, ss, |all|, k);
      }
    }
  }

  lemma {:induction false} SameWindow(c: Config, ss: seq<Sample>, n: nat, k: nat)
    requires Effective(c) && k <= n <= |ss|
    ensures WindowAt(c, ss[..n], k) == WindowAt(c, ss, k)
  {
    assert ss[..n][..k] == ss[..k];
  }

  lemma {:induction false} StillOk(c: Config, ss: seq<Sample>, n: nat, k: nat)
    requires Effective(c) && 0 < n <= k <= |ss| && In(c, ss[..n], OK)
    requires forall i :: n < i <= k ==> !In(c, ss[..i], Degraded)
    ensures In(c, ss[..k], OK) && OkFor(c, ss[..k]) >= k - n
    decreases k
  {
    hide Replay;
    if n < k {
      StillOk(c, ss, n, k - 1);
      assert ss[..k][..k - 1] == ss[..k - 1];
      AnchorDegradesExactly(c, ss[..k]);
    }
  }

  /** The end of learning, exactly: an anchor with MinSamples samples is ok, unless a
      streak is one verdict long and its first is bad. */
  lemma {:induction false} LearningEnds(c: Config, ss: seq<Sample>)
    requires Effective(c) && |ss| == c.minSamples
    ensures Replay(c, ss).m.state ==
      if Judge(c, Last(ss, c.window)).Bad() && c.degradeStreak == 1 then Degraded else OK
  {
    hide Judge, Replay, Feed;
    var ts := Turns(c, ss);
    assert ts[..|ss| - 1] == Turns(c, ss[..|ss| - 1]);
    ReplayIsFeed(c, ss);
    if |ss| > 1 {
      ReplayIsFeed(c, ss[..|ss| - 1]);
      LearningLasts(c, ss[..|ss| - 1]);
    } else {
      assert ts[..0] == [];
      FeedsNothing(c, Start(ss));
    }
    LearningEndsExactly(c, Start(ss), ts);
  }

  lemma {:induction false} FeedsNothing(c: Config, m: Machine)
    ensures Feed(c, m, []) == m
  {
  }
}
