/** Streak counters after a warm start (internal/monitor/engine.go Load): they restart at
    zero, so a verdict carried over the restart needs a full streak to change. */
module WarmStreaks {
  import opened Engine
  import opened EngineRuns
  import opened Loading
  import opened WarmStart
  import opened Streaks

  // ---- Load starts every streak at zero ----

  predicate NoStreaks(a: AnchorState) { a.m.badStreak == 0 && a.m.goodStreak == 0 }

  predicate Unstreaked(ks: KeyState) { forall a :: a in ks.anchors ==> NoStreaks(ks.anchors[a]) }

  lemma {:induction false} SamplesUnstreaked(keys: Keys, ss: seq<Sample>, k: string)
    requires Unstreaked(KeyOf(keys, k))
    ensures Unstreaked(KeyOf(LoadSamples(keys, ss), k))
  {
    if ss != [] {
      SamplesUnstreaked(keys, ss[..|ss| - 1], k);
    }
  }

  lemma {:induction false} BaselinesUnstreaked(keys: Keys, bs: seq<Baseline>, k: string)
    requires Unstreaked(KeyOf(keys, k))
    ensures Unstreaked(KeyOf(LoadBaselines(keys, bs), k))
  {
    if bs != [] {
      BaselinesUnstreaked(keys, bs[..|bs| - 1], k);
    }
  }

  /** An anchor as Load leaves it: no streaks, a window that fits, and a verdict only
      where the window is long enough for one. */
  predicate Restarted(c: Config, a: AnchorState) {
    && NoStreaks(a) && a.m.state != Unset && |a.samples| <= c.window
    && (a.m.state == Degraded || a.m.state == OK ==> |a.samples| >= c.minSamples)
  }

  lemma {:induction false} FinishRestarts(c: Config, k: string, a: string, s: AnchorState)
    requires Effective(c) && NoStreaks(s)
    ensures Restarted(c, FinishAnchor(c, k, a, s))
  {
  }

  /** Every anchor of a warmed key is restarted, whatever was stored and whatever the
      anchor names are. */
  lemma {:induction false} WarmRestarts(c: Config, names: seq<string>, w: World, k: string, bs: seq<Baseline>, w': World, a: string)
    requires Effective(c) && Warmed(c, names, w, k, bs, w')
    requires k in w'.keys && a in w'.keys[k].anchors
    ensures Restarted(c, w'.keys[k].anchors[a])
  {
    hide LoadSamples, LoadBaselines, FinishAnchor, Recall, Lists, SortByTime, Restarted;
    var ss := Recall(w.db, names, k, c.window);
    var keys := w.keys - {k};
    var mid := LoadBaselines(LoadSamples(keys, SortByTime(ss)), bs);
    SamplesUnstreaked(keys, SortByTime(ss), k);
    BaselinesUnstreaked(LoadSamples(keys, SortByTime(ss)), bs, k);
    TouchedOrGone(c, names, w, k, bs);
    assert k in mid && FinishedKey(c, k, mid[k], w'.keys[k]);
    FinishRestarts(c, k, a, mid[k].anchors[a]);
  }

  /** The key is known after the two passes only if a sample or a baseline touched it. */
  lemma {:induction false} TouchedOrGone(c: Config, names: seq<string>, w: World, k: string, bs: seq<Baseline>)
    requires Effective(c)
    ensures var ss := Recall(w.db, names, k, c.window);
      k in LoadBaselines(LoadSamples(w.keys - {k}, SortByTime(ss)), bs) ==> k in Touched(bs, ss)
  {
    hide LoadSamples, LoadBaselines, Recall, SortByTime;
    var ss := Recall(w.db, names, k, c.window);
    KnownBySample(w.keys - {k}, SortByTime(ss), k);
    KnownByBaseline(LoadSamples(w.keys - {k}, SortByTime(ss)), bs, k);
    forall s ensures s in SortByTime(ss) <==> s in ss {
      SortKeepsMembers(ss, s);
    }
  }

  lemma {:induction false} KnownBySample(keys: Keys, ss: seq<Sample>, k: string)
    ensures k in LoadSamples(keys, ss) && k !in keys ==> exists s :: s in ss && Accepted(s) && s.key == k
  {
    if ss != [] {
      KnownBySample(keys, ss[..|ss| - 1], k);
      assert ss == ss[..|ss| - 1] + [ss[|ss| - 1]];
    }
  }

  lemma {:induction false} KnownByBaseline(keys: Keys, bs: seq<Baseline>, k: string)
    ensures k in LoadBaselines(keys, bs) && k !in keys ==> exists b :: b in bs && Named(b) && b.key == k
  {
    if bs != [] {
      KnownByBaseline(keys, bs[..|bs| - 1], k);
      assert bs == bs[..|bs| - 1] + [bs[|bs| - 1]];
    }
  }

  // ---- an anchor going on from some state ----

  function Resume(c: Config, a: AnchorState, ss: seq<Sample>): AnchorState
    requires Effective(c)
  {
    if ss == [] then a else AnchorStep(c, Resume(c, a, ss[..|ss| - 1]), ss[|ss| - 1])
  }

  /** An anchor the engine knows goes on from its state through its own samples alone. */
  lemma {:induction false} AnchorResumes(c: Config, keys: Keys, ss: seq<Sample>, k: string, a: string)
    requires Effective(c) && k != "" && a != "" && k in keys && a in keys[k].anchors
    ensures var after := AddAll(c, keys, ss);
      k in after && a in after[k].anchors && after[k].anchors[a] == Resume(c, keys[k].anchors[a], Sub(ss, k, a))
  {
    hide Judge, Snapshot, MachineStep;
    if ss != [] {
      var before, s := ss[..|ss| - 1], ss[|ss| - 1];
      AnchorResumes(c, keys, before, k, a);
      if Hit(s, k, a) {
        var own := Sub(ss, k, a);
        assert own[..|own| - 1] == Sub(before, k, a);
      }
    }
  }

  /** The verdicts on the windows after each of the further samples. */
  function Further(c: Config, a: AnchorState, ss: seq<Sample>): (ts: seq<Turn>)
    requires Effective(c)
    ensures |ts| == |ss|
  {
    if ss == [] then []
    else
      var w := Resume(c, a, ss).samples;
      Further(c, a, ss[..|ss| - 1]) + [Turn(|w| >= c.minSamples, Judge(c, w), ss[|ss| - 1].time)]
  }

  /** The i-th of them is the verdict on the window as it is after i + 1 samples. */
  lemma {:induction false} FurtherAt(c: Config, a: AnchorState, ss: seq<Sample>, i: nat)
    requires Effective(c) && i < |ss|
    ensures var w := Resume(c, a, ss[..i + 1]).samples;
      Further(c, a, ss)[i] == Turn(|w| >= c.minSamples, Judge(c, w), ss[i].time)
  {
    hide Judge, Resume;
    if i < |ss| - 1 {
      FurtherAt(c, a, ss[..|ss| - 1], i);
      assert ss[..|ss| - 1][..i + 1] == ss[..i + 1];
    } else {
      assert ss[..i + 1] == ss;
    }
  }

  lemma {:induction false} ResumeIsFeed(c: Config, a: AnchorState, ss: seq<Sample>)
    requires Effective(c)
    ensures Resume(c, a, ss).m == Feed(c, a.m, Further(c, a, ss))
  {
    if ss != [] {
      hide Judge, Snapshot, MachineStep, Further;
      var before := ss[..|ss| - 1];
      ResumeIsFeed(c, a, before);
      FurtherEnds(c, a, ss);
      assert Resume(c, a, ss) == AnchorStep(c, Resume(c, a, before), ss[|ss| - 1]);
    }
  }

  lemma {:induction false} FurtherEnds(c: Config, a: AnchorState, ss: seq<Sample>)
    requires Effective(c) && ss != []
    ensures var w, ts := Resume(c, a, ss).samples, Further(c, a, ss);
      ts[..|ss| - 1] == Further(c, a, ss[..|ss| - 1])
      && ts[|ss| - 1] == Turn(|w| >= c.minSamples, Judge(c, w), ss[|ss| - 1].time)
  {
    hide Judge, Resume;
  }

  /** A window never gets shorter, so a judged anchor goes on being judged. */
  lemma {:induction false} StaysJudged(c: Config, a: AnchorState, ss: seq<Sample>)
    requires Effective(c) && Restarted(c, a)
    ensures var r := Resume(c, a, ss);
      |r.samples| <= c.window && (r.m.state == Degraded || r.m.state == OK ==> |r.samples| >= c.minSamples)
  {
    if ss != [] {
      hide Judge, Snapshot;
      StaysJudged(c, a, ss[..|ss| - 1]);
    }
  }

  lemma {:induction false} JudgedNext(c: Config, a: AnchorState, ss: seq<Sample>)
    requires Effective(c) && Restarted(c, a) && ss != []
    requires var was := Resume(c, a, ss[..|ss| - 1]).m.state; was == Degraded || was == OK
    ensures |Resume(c, a, ss).samples| >= c.minSamples
  {
    hide Judge, Snapshot, MachineStep;
    StaysJudged(c, a, ss[..|ss| - 1]);
  }

  /** A warmed anchor that is degraded is ok after a further sample if and only if its last
      RecoverStreak windows are good and all of them came after the restart and since it
      became degraded; otherwise it is degraded still. */
  lemma {:induction false} RecoversAfresh(c: Config, a: AnchorState, ss: seq<Sample>)
    requires Effective(c) && Restarted(c, a) && ss != []
    requires Resume(c, a, ss[..|ss| - 1]).m.state == Degraded
    ensures var before, now := Further(c, a, ss[..|ss| - 1]), Resume(c, a, ss).m.state;
      && (now == OK <==>
           LastGood(Further(c, a, ss), c.recoverStreak) && Counting(c, a.m, before) + 1 >= c.recoverStreak)
      && (now == OK || now == Degraded)
    ensures Resume(c, a, ss).m.state == OK ==> |ss| >= c.recoverStreak
  {
    hide Resume, Further, Judge, Feed, Counting;
    ResumeIsFeed(c, a, ss);
    ResumeIsFeed(c, a, ss[..|ss| - 1]);
    FurtherEnds(c, a, ss);
    JudgedNext(c, a, ss);
    RecoversExactly(c, a.m, Further(c, a, ss));
  }

  /** A warmed anchor that is ok is degraded after a further sample if and only if its last
      DegradeStreak windows are bad and all of them came after the restart and since it
      became ok; otherwise it is ok still. */
  lemma {:induction false} DegradesAfresh(c: Config, a: AnchorState, ss: seq<Sample>)
    requires Effective(c) && Restarted(c, a) && ss != []
    requires Resume(c, a, ss[..|ss| - 1]).m.state == OK
    ensures var before, now := Further(c, a, ss[..|ss| - 1]), Resume(c, a, ss).m.state;
      && (now == Degraded <==>
           LastBad(Further(c, a, ss), c.degradeStreak) && Counting(c, a.m, before) + 1 >= c.degradeStreak)
      && (now == OK || now == Degraded)
    ensures Resume(c, a, ss).m.state == Degraded ==> |ss| >= c.degradeStreak
  {
    hide Resume, Further, Judge, Feed, Counting;
    ResumeIsFeed(c, a, ss);
    ResumeIsFeed(c, a, ss[..|ss| - 1]);
    FurtherEnds(c, a, ss);
    JudgedNext(c, a, ss);
    DegradesExactly(c, a.m, Further(c, a, ss));
  }

  /** A warmed anchor that is learning degrades at once only where a streak is one verdict
      long. */
  lemma {:induction false} LearnsAfresh(c: Config, a: AnchorState, ss: seq<Sample>)
    requires Effective(c) && Restarted(c, a) && ss != []
    requires Resume(c, a, ss[..|ss| - 1]).m.state == Learning
    ensures var w, now := Resume(c, a, ss).samples, Resume(c, a, ss).m.state;
      now == if |w| < c.minSamples then Learning else if Judge(c, w).Bad() && c.degradeStreak == 1 then Degraded else OK
  {
    hide Resume, Further, Judge, Feed;
    ResumeIsFeed(c, a, ss);
    ResumeIsFeed(c, a, ss[..|ss| - 1]);
    FurtherEnds(c, a, ss);
    LearningEndsExactly(c, a.m, Further(c, a, ss));
  }

  /** And it does recover: RecoverStreak good windows after the restart are enough. */
  lemma {:induction false} RecoversAfterRestart(c: Config, a: AnchorState, ss: seq<Sample>)
    requires Effective(c) && Restarted(c, a) && a.m.state == Degraded && |ss| >= c.recoverStreak
    requires LastGood(Further(c, a, ss), |ss|)
    ensures exists k :: 0 < k <= c.recoverStreak && Resume(c, a, ss[..k]).m.state == OK
  {
    hide Resume, Further, Judge, Feed;
    var ts := Further(c, a, ss);
    assert ts[..0] == [];
    FeedNothing(c, a.m);
    forall i | 0 <= i < |ss| ensures ts[i].enough && ts[i].v.good {
      FurtherAt(c, a, ss, i);
      WindowsGrow(c, a, ss[..i + 1]);
    }
    GoodRunRecovers(c, a.m, ts, 0);
    var k :| 0 < k <= c.recoverStreak && Feed(c, a.m, ts[..k]).state == OK;
    FurtherOfPrefix(c, a, ss, k);
    ResumeIsFeed(c, a, ss[..k]);
  }

  lemma {:induction false} FeedNothing(c: Config, m: Machine)
    ensures Feed(c, m, []) == m
  {
  }

  lemma {:induction false} WindowsGrow(c: Config, a: AnchorState, ss: seq<Sample>)
    requires Effective(c) && c.minSamples <= |a.samples| <= c.window
    ensures c.minSamples <= |Resume(c, a, ss).samples| <= c.window
  {
    if ss != [] {
      hide Judge, Snapshot, MachineStep;
      WindowsGrow(c, a, ss[..|ss| - 1]);
    }
  }

  lemma {:induction false} FurtherOfPrefix(c: Config, a: AnchorState, ss: seq<Sample>, n: nat)
    requires Effective(c) && n <= |ss|
    ensures Further(c, a, ss)[..n] == Further(c, a, ss[..n])
    decreases |ss|
  {
    hide Resume, Judge, Further;
    if n == |ss| {
      assert ss[..n] == ss && Further(c, a, ss)[..n] == Further(c, a, ss);
    } else {
      var before := ss[..|ss| - 1];
      FurtherOfPrefix(c, a, before, n);
      FurtherEnds(c, a, ss);
      assert before[..n] == ss[..n];
      assert Further(c, a, ss)[..|before|][..n] == Further(c, a, ss)[..n];
    }
  }

  lemma {:induction false} StaysDegradedAWhile(c: Config, a: AnchorState, ss: seq<Sample>)
    requires Effective(c) && Restarted(c, a) && a.m.state == Degraded && |ss| < c.recoverStreak
    ensures Resume(c, a, ss).m.state == Degraded
  {
    if ss != [] {
      hide Resume, Restarted, Further, Counting, LastGood;
      StaysDegradedAWhile(c, a, ss[..|ss| - 1]);
      RecoversAfresh(c, a, ss);
    } else {
      assert Resume(c, a, ss) == a;
    }
  }

  /** In the engine: a degraded anchor of a warmed key is degraded still after fewer than
      RecoverStreak samples of its own, whatever else is added. */
  lemma {:induction false} WarmedStaysDegraded(c: Config, names: seq<string>, w: World, k: string, bs: seq<Baseline>, w': World,
                                               a: string, ss: seq<Sample>)
    requires Effective(c) && k != "" && a != "" && Warmed(c, names, w, k, bs, w')
    requires k in w'.keys && a in w'.keys[k].anchors && w'.keys[k].anchors[a].m.state == Degraded
    requires |Sub(ss, k, a)| < c.recoverStreak
    ensures var after := AddAll(c, w'.keys, ss);
      k in after && a in after[k].anchors && after[k].anchors[a].m.state == Degraded
  {
    hide Warmed, Resume, Restarted, Sub, AddAll;
    WarmRestarts(c, names, w, k, bs, w', a);
    AnchorResumes(c, w'.keys, ss, k, a);
    StaysDegradedAWhile(c, w'.keys[k].anchors[a], Sub(ss, k, a));
  }
}
