/** When the verdict rules of internal/monitor/engine.go fire, exactly, and that a rise in
    latency degrades an anchor and clean answers bring it back. */
module Slowness {
  import opened Median
  import opened Engine
  import opened EngineRuns
  import opened Verdicts
  import opened Changes

  // ---- the three rules ----

  lemma {:induction false} AnswersAreNotNegative(ss: seq<Sample>)
    ensures forall x :: x in Answered(ss) ==> x >= 0.0
  {
    if ss != [] {
      AnswersAreNotNegative(ss[..|ss| - 1]);
    }
  }

  lemma {:induction false} AllCounted(s: seq<real>, lo: real, hi: real)
    requires forall x :: x in s ==> Within(x, lo, hi)
    ensures CountIn(s, lo, hi) == |s|
  {
    if s != [] {
      assert s[0] in s && forall x :: x in s[1..] ==> x in s;
      AllCounted(s[1..], lo, hi);
    }
  }

  lemma {:induction false} Largest(s: seq<real>) returns (m: real)
    ensures forall x :: x in s ==> x <= m
  {
    if s == [] {
      m := 0.0;
    } else {
      m := Largest(s[1..]);
      if m < s[0] {
        m := s[0];
      }
      assert s == [s[0]] + s[1..];
    }
  }

  /** There is a median exactly when there are answers. */
  lemma {:induction false} MedianKnown(ss: seq<Sample>)
    ensures MedianRtt(ss) >= 0.0 <==> Answered(ss) != []
    ensures Answered(ss) == [] ==> MedianRtt(ss) == -1.0
  {
    var vals := Answered(ss);
    if vals != [] {
      AnswersAreNotNegative(ss);
      var m := Largest(vals);
      AllCounted(vals, 0.0, m);
      MedianRobust(vals, 0.0, m);
    }
  }

  /** The rules, read off the samples. Latency is bad when there are answers and the
      median of the current ones exceeds the window's both by the factor and by the delta;
      loss is bad when the current samples lost too much and the window as a whole little;
      the window is good when the current median is close to the window's and the current
      samples lost little. */
  lemma {:induction false} RulesExactly(c: Config, w: seq<Sample>)
    requires Effective(c) && |w| >= c.currentWindow
    ensures var cur, v := Last(w, c.currentWindow), Judge(c, w);
      var all, now := MedianRtt(w), MedianRtt(cur);
      && (v.rttBad <==> Answered(cur) != [] && now > c.degradeFactor * all && now > all + c.degradeDelta)
      && (v.lossBad <==> LossSum(cur) > c.degradeLoss * (c.currentWindow as real)
                         && LossSum(w) < c.degradeBaseLoss * (|w| as real))
      && (v.good <==> Answered(cur) != [] && now < c.recoverFactor * all
                      && LossSum(cur) < c.recoverLoss * (c.currentWindow as real))
  {
    hide *;
    MediansKnown(c, w);
    JudgeSays(c, w);
    LossesAreShares(c, w);
  }

  lemma {:induction false} MediansKnown(c: Config, w: seq<Sample>)
    requires Effective(c)
    ensures var cur := Last(w, c.currentWindow);
      Answered(cur) != [] <==> MedianRtt(cur) >= 0.0 && MedianRtt(w) >= 0.0
  {
    hide MedianRtt, Answered;
    MedianKnown(w);
    MedianKnown(Last(w, c.currentWindow));
    CurrentAnswers(w, c.currentWindow);
  }

  lemma {:induction false} LossesAreShares(c: Config, w: seq<Sample>)
    requires Effective(c) && |w| >= c.currentWindow
    ensures var cur := Last(w, c.currentWindow);
      && (MeanLoss(cur) > c.degradeLoss <==> LossSum(cur) > c.degradeLoss * (c.currentWindow as real))
      && (MeanLoss(cur) < c.recoverLoss <==> LossSum(cur) < c.recoverLoss * (c.currentWindow as real))
      && (MeanLoss(w) < c.degradeBaseLoss <==> LossSum(w) < c.degradeBaseLoss * (|w| as real))
  {
    hide MeanLoss, LossSum;
    var cur := Last(w, c.currentWindow);
    assert |cur| == c.currentWindow;
    MeanIsShare(cur, c.degradeLoss);
    MeanIsShare(cur, c.recoverLoss);
    MeanIsShare(w, c.degradeBaseLoss);
  }

  lemma {:induction false} AnswersConcat(a: seq<Sample>, b: seq<Sample>)
    ensures Answered(a + b) == Answered(a) + Answered(b)
  {
    if b == [] {
      assert a + b == a;
    } else {
      assert (a + b)[..|a + b| - 1] == a + b[..|b| - 1];
      AnswersConcat(a, b[..|b| - 1]);
    }
  }

  lemma {:induction false} CurrentAnswers(w: seq<Sample>, n: nat)
    ensures Answered(Last(w, n)) != [] ==> Answered(w) != []
  {
    var cur := Last(w, n);
    var older := w[..|w| - |cur|];
    assert w == older + cur;
    AnswersConcat(older, cur);
  }

  lemma {:induction false} JudgeSays(c: Config, w: seq<Sample>)
    requires Effective(c)
    ensures var cur, v := Last(w, c.currentWindow), Judge(c, w);
      var all, now := MedianRtt(w), MedianRtt(cur);
      && (v.rttBad <==> now >= 0.0 && all >= 0.0 && now > c.degradeFactor * all && now > all + c.degradeDelta)
      && (v.lossBad <==> MeanLoss(cur) > c.degradeLoss && MeanLoss(w) < c.degradeBaseLoss)
      && (v.good <==> now >= 0.0 && all >= 0.0 && now < c.recoverFactor * all && MeanLoss(cur) < c.recoverLoss)
  {
    hide MedianRtt, MeanLoss, Rules;
    var cur := Last(w, c.currentWindow);
    RulesSay(c, MedianRtt(w), MeanLoss(w), MedianRtt(cur), MeanLoss(cur), c.degradeFactor * MedianRtt(w), c.recoverFactor * MedianRtt(w));
  }

  /** The same over four numbers; high and near are the products the rules compare with. */
  lemma {:induction false} RulesSay(c: Config, all: real, allLoss: real, now: real, nowLoss: real, high: real, near: real)
    requires high == c.degradeFactor * all && near == c.recoverFactor * all
    ensures var v := Rules(c, all, allLoss, now, nowLoss);
      && (v.rttBad <==> now >= 0.0 && all >= 0.0 && now > high && now > all + c.degradeDelta)
      && (v.lossBad <==> nowLoss > c.degradeLoss && allLoss < c.degradeBaseLoss)
      && (v.good <==> now >= 0.0 && all >= 0.0 && now < near && nowLoss < c.recoverLoss)
  {
  }

  /** If most answers of the window lie in one band and most of the current ones in a
      higher one, out of reach by the factor and by the delta, the latency rule fires. */
  lemma {:induction false} SlowIsBad(c: Config, w: seq<Sample>, lo: real, hi: real, lo': real, hi': real)
    requires Effective(c) && 0.0 <= lo && 0.0 <= lo'
    requires MostlyWithin(w, lo, hi) && MostlyWithin(Last(w, c.currentWindow), lo', hi')
    requires lo' > c.degradeFactor * hi && lo' > hi + c.degradeDelta
    ensures Judge(c, w).rttBad
  {
    hide MedianRtt, MeanLoss, Judge;
    MostMedian(w, lo, hi);
    MostMedian(Last(w, c.currentWindow), lo', hi');
    JudgeSays(c, w);
    Scaled(c.degradeFactor, MedianRtt(w), hi);
  }

  lemma {:induction false} Scaled(f: real, x: real, y: real)
    requires f > 0.0 && x <= y
    ensures f * x <= f * y
  {
  }

  /** If most current answers lie below RecoverFactor times the band of most of the
      window's and the current samples lost little, the window is good. */
  lemma {:induction false} FastIsGood(c: Config, w: seq<Sample>, lo: real, hi: real, lo': real, hi': real)
    requires Effective(c) && 0.0 <= lo && 0.0 <= lo' && |w| >= c.currentWindow
    requires MostlyWithin(w, lo, hi) && MostlyWithin(Last(w, c.currentWindow), lo', hi')
    requires hi' < c.recoverFactor * lo
    requires LossSum(Last(w, c.currentWindow)) < c.recoverLoss * (c.currentWindow as real)
    ensures Judge(c, w).good
  {
    hide MedianRtt, MeanLoss, Judge, LossSum;
    MostMedian(w, lo, hi);
    MostMedian(Last(w, c.currentWindow), lo', hi');
    JudgeSays(c, w);
    MeanIsShare(Last(w, c.currentWindow), c.recoverLoss);
    Scaled(c.recoverFactor, lo, MedianRtt(w));
  }

  // ---- runs ----

  /** DegradeStreak windows in a row with bad latency: an ok anchor is degraded by the last
      of them at the latest, and the reason it gives is latency. */
  lemma {:induction false} SlownessDegrades(c: Config, ss: seq<Sample>, n: nat)
    requires Effective(c) && 0 < n <= |ss| && In(c, ss[..n], OK) && |ss| - n >= c.degradeStreak
    requires forall k :: n < k <= |ss| ==> Judge(c, WindowAt(c, ss, k)).rttBad
    ensures exists k :: n < k <= n + c.degradeStreak && In(c, ss[..k], Degraded) && Replay(c, ss[..k]).m.lastReason == Rtt
  {
    hide Judge, Replay, WindowAt, BadWindows, OkFor;
    BadWindowsDegrade(c, ss, n);
    var j :| n < j <= n + c.degradeStreak && In(c, ss[..j], Degraded);
    var k := FirstDegraded(c, ss, n, j);
    assert ss[..k][..k - 1] == ss[..k - 1];
    AnchorDegradesExactly(c, ss[..k]);
    assert Last(ss[..k], c.window) == WindowAt(c, ss, k) by { LastIsWindow(c, ss, k); }
  }

  lemma {:induction false} LastIsWindow(c: Config, ss: seq<Sample>, k: nat)
    requires Effective(c) && k <= |ss|
    ensures Last(ss[..k], c.window) == WindowAt(c, ss, k)
  {
  }

  lemma {:induction false} FirstDegraded(c: Config, ss: seq<Sample>, n: nat, j: nat) returns (k: nat)
    requires Effective(c) && 0 < n < j <= |ss| && In(c, ss[..n], OK) && In(c, ss[..j], Degraded)
    ensures n < k <= j && In(c, ss[..k], Degraded) && In(c, ss[..k - 1], OK)
    decreases j
  {
    hide Replay;
    LearningLasts(c, ss[..n]);
    LearningLasts(c, ss[..j - 1]);
    if In(c, ss[..j - 1], OK) {
      k := j;
    } else {
      k := FirstDegraded(c, ss, n, j - 1);
    }
  }

  /** The same in the samples' own words: from ok, DegradeStreak windows most of whose
      answers lie in one band and most of whose current ones lie in a band out of reach. */
  lemma {:induction false} SlowWindowsDegrade(c: Config, ss: seq<Sample>, n: nat, lo: real, hi: real, lo': real, hi': real)
    requires Effective(c) && 0 < n <= |ss| && In(c, ss[..n], OK) && |ss| - n >= c.degradeStreak
    requires 0.0 <= lo && 0.0 <= lo' && lo' > c.degradeFactor * hi && lo' > hi + c.degradeDelta
    requires forall k :: n < k <= |ss| ==>
      MostlyWithin(WindowAt(c, ss, k), lo, hi) && MostlyWithin(Last(WindowAt(c, ss, k), c.currentWindow), lo', hi')
    ensures exists k :: n < k <= n + c.degradeStreak && In(c, ss[..k], Degraded) && Replay(c, ss[..k]).m.lastReason == Rtt
  {
    hide Judge, Replay, WindowAt, MostlyWithin;
    forall k | n < k <= |ss| ensures Judge(c, WindowAt(c, ss, k)).rttBad {
      SlowIsBad(c, WindowAt(c, ss, k), lo, hi, lo', hi');
    }
    SlownessDegrades(c, ss, n);
  }

  /** Loss without slowness: the same, with loss for a reason. */
  lemma {:induction false} LossDegrades(c: Config, ss: seq<Sample>, n: nat)
    requires Effective(c) && 0 < n <= |ss| && In(c, ss[..n], OK) && |ss| - n >= c.degradeStreak
    requires forall k :: n < k <= |ss| ==> var v := Judge(c, WindowAt(c, ss, k)); v.lossBad && !v.rttBad
    ensures exists k :: n < k <= n + c.degradeStreak && In(c, ss[..k], Degraded) && Replay(c, ss[..k]).m.lastReason == Loss
  {
    hide Judge, Replay, WindowAt, BadWindows, OkFor;
    BadWindowsDegrade(c, ss, n);
    var j :| n < j <= n + c.degradeStreak && In(c, ss[..j], Degraded);
    var k := FirstDegraded(c, ss, n, j);
    assert ss[..k][..k - 1] == ss[..k - 1];
    AnchorDegradesExactly(c, ss[..k]);
    assert Last(ss[..k], c.window) == WindowAt(c, ss, k) by { LastIsWindow(c, ss, k); }
  }

  // ---- a step up in latency, and back ----

  /** Every sample answered, in the band, without loss. */
  ghost predicate AllClean(ss: seq<Sample>, lo: real, hi: real) { forall i :: 0 <= i < |ss| ==> Clean(ss[i], lo, hi) }

  lemma {:induction false} CleanCount(ss: seq<Sample>, lo: real, hi: real)
    requires 0.0 <= lo && AllClean(ss, lo, hi)
    ensures |Answered(ss)| == |ss| && CountIn(Answered(ss), lo, hi) == |ss| && LossSum(ss) == 0.0
  {
    if ss != [] {
      CleanCount(ss[..|ss| - 1], lo, hi);
      CountMore(Answered(ss[..|ss| - 1]), ss[|ss| - 1].rtt, lo, hi);
    }
  }

  lemma {:induction false} CountMore(s: seq<real>, x: real, lo: real, hi: real)
    ensures CountIn(s + [x], lo, hi) == CountIn(s, lo, hi) + if Within(x, lo, hi) then 1 else 0
  {
    CountSplit(s + [x], |s|, lo, hi);
    assert (s + [x])[..|s|] == s && (s + [x])[|s|..] == [x];
  }

  /** At least this many answers of a + b lie in the band of a (of b). */
  lemma {:induction false} MixedCount(a: seq<Sample>, b: seq<Sample>, lo: real, hi: real, lo': real, hi': real)
    requires 0.0 <= lo && 0.0 <= lo' && AllClean(a, lo, hi) && AllClean(b, lo', hi')
    ensures |Answered(a + b)| == |a| + |b|
    ensures CountIn(Answered(a + b), lo, hi) >= |a| && CountIn(Answered(a + b), lo', hi') >= |b|
  {
    AnswersConcat(a, b);
    CleanCount(a, lo, hi);
    CleanCount(b, lo', hi');
    var s := Answered(a + b);
    assert s[..|a|] == Answered(a) && s[|a|..] == Answered(b);
    CountSplit(s, |a|, lo, hi);
    CountSplit(s, |a|, lo', hi');
  }

  /** The window after fast samples and then k slow ones, with more slow than fast samples
      among the current ones and more fast than slow ones overall: latency is bad. */
  lemma {:induction false} StepIsBad(c: Config, fast: seq<Sample>, slow: seq<Sample>, lo: real, hi: real, lo': real, hi': real)
    requires Effective(c) && c.currentWindow <= c.window && 0.0 <= lo && 0.0 <= lo'
    requires AllClean(fast, lo, hi) && AllClean(slow, lo', hi')
    requires lo' > c.degradeFactor * hi && lo' > hi + c.degradeDelta
    requires |fast| + |slow| >= c.currentWindow && c.currentWindow < 2 * |slow| && |slow| < |fast| && 2 * |slow| < c.window
    ensures Judge(c, Last(fast + slow, c.window)).rttBad
  {
    hide Judge, Answered;
    var w := Last(fast + slow, c.window);
    var f := if |fast| + |slow| <= c.window then fast else fast[|fast| + |slow| - c.window..];
    assert w == f + slow;
    MixedCount(f, slow, lo, hi, lo', hi');
    var cur := Last(w, c.currentWindow);
    if |slow| <= c.currentWindow {
      var g := f[|f| + |slow| - c.currentWindow..];
      assert cur == g + slow;
      MixedCount(g, slow, lo, hi, lo', hi');
    } else {
      var s := slow[|slow| - c.currentWindow..];
      assert cur == [] + s;
      MixedCount([], s, lo, hi, lo', hi');
    }
    SlowIsBad(c, w, lo, hi, lo', hi');
  }

  /** Nothing lost, no verdict on loss. */
  lemma {:induction false} NothingLost(c: Config, ss: seq<Sample>)
    requires Effective(c) && forall i :: 0 <= i < |ss| ==> ss[i].loss == 0.0
    ensures !Judge(c, Last(ss, c.window)).lossBad
  {
    hide Judge, MedianRtt;
    var w := Last(ss, c.window);
    JudgeSays(c, w);
    NoSum(Last(w, c.currentWindow));
  }

  lemma {:induction false} NoSum(ss: seq<Sample>)
    requires forall i :: 0 <= i < |ss| ==> ss[i].loss == 0.0
    ensures LossSum(ss) == 0.0 && MeanLoss(ss) == 0.0
  {
    if ss != [] {
      NoSum(ss[..|ss| - 1]);
    }
  }

  /** Without loss an anchor degrades for its latency. */
  lemma {:induction false} LosslessReason(c: Config, ss: seq<Sample>)
    requires Effective(c) && ss != [] && In(c, ss[..|ss| - 1], OK) && In(c, ss, Degraded)
    requires forall i :: 0 <= i < |ss| ==> ss[i].loss == 0.0
    ensures Replay(c, ss).m.lastReason == Rtt
  {
    hide Judge, Replay, OkFor, Last;
    AnchorDegradesExactly(c, ss);
    NothingLost(c, ss);
    LastIsWindow(c, ss, |ss|);
    assert ss[..|ss|] == ss;
    assert Judge(c, WindowAt(c, ss, |ss|)).Bad();
  }

  /** A rise in latency degrades: an anchor that is ok after clean samples in one band is
      degraded, with latency for a reason, somewhere in the clean samples that follow in a
      band out of reach of it, half the current window and DegradeStreak of them. */
  lemma {:induction false} RiseDegrades(c: Config, fast: seq<Sample>, slow: seq<Sample>, lo: real, hi: real, lo': real, hi': real)
    requires Effective(c) && c.currentWindow <= c.minSamples && 0.0 <= lo && 0.0 <= lo'
    requires AllClean(fast, lo, hi) && AllClean(slow, lo', hi')
    requires lo' > c.degradeFactor * hi && lo' > hi + c.degradeDelta
    requires |slow| == c.currentWindow / 2 + c.degradeStreak && |slow| < |fast| && 2 * |slow| < c.window
    requires |fast| >= c.minSamples && In(c, fast, OK)
    ensures exists k :: 0 < k <= |slow| && In(c, fast + slow[..k], Degraded)
                     && Replay(c, fast + slow[..k]).m.lastReason == Rtt
  {
    hide Judge, Replay;
    var half := c.currentWindow / 2;
    var ss, n := fast + slow, |fast| + half;
    assert ss[..n] == fast + slow[..half] && ss[..|fast|] == fast;
    var k: nat;
    if In(c, ss[..n], OK) {
      k := RiseFromOk(c, fast, slow, lo, hi, lo', hi');
    } else {
      LearningLasts(c, ss[..|fast|]);
      LearningLasts(c, ss[..n]);
      k := FirstDegraded(c, ss, |fast|, n);
      assert ss[..k][..k - 1] == ss[..k - 1];
      LosslessReason(c, ss[..k]);
    }
    assert ss[..k] == fast + slow[..k - |fast|];
  }

  lemma {:induction false} RiseFromOk(c: Config, fast: seq<Sample>, slow: seq<Sample>, lo: real, hi: real, lo': real, hi': real)
    returns (k: nat)
    requires Effective(c) && c.currentWindow <= c.minSamples && 0.0 <= lo && 0.0 <= lo'
    requires AllClean(fast, lo, hi) && AllClean(slow, lo', hi')
    requires lo' > c.degradeFactor * hi && lo' > hi + c.degradeDelta
    requires |slow| == c.currentWindow / 2 + c.degradeStreak && |slow| < |fast| && 2 * |slow| < c.window
    requires |fast| >= c.minSamples && In(c, (fast + slow)[..|fast| + c.currentWindow / 2], OK)
    ensures |fast| < k <= |fast + slow|
    ensures In(c, (fast + slow)[..k], Degraded) && Replay(c, (fast + slow)[..k]).m.lastReason == Rtt
  {
    hide Judge, Replay;
    var ss, n := fast + slow, |fast| + c.currentWindow / 2;
    forall k | n < k <= |ss| ensures Judge(c, WindowAt(c, ss, k)).rttBad {
      assert ss[..k] == fast + slow[..k - |fast|];
      StepIsBad(c, fast, slow[..k - |fast|], lo, hi, lo', hi');
    }
    SlownessDegrades(c, ss, n);
    k :| n < k <= n + c.degradeStreak && In(c, ss[..k], Degraded) && Replay(c, ss[..k]).m.lastReason == Rtt;
  }

  /** Clean answers bring an anchor back: once the current window is clean again and in
      reach of most of the whole window, RecoverStreak more samples make it ok. */
  lemma {:induction false} CleanRunRecovers(c: Config, ss: seq<Sample>, n: nat, lo: real, hi: real, lo': real, hi': real)
    requires Effective(c) && c.currentWindow <= c.minSamples && 0.0 <= lo && 0.0 <= lo'
    requires 0 < n <= |ss| && In(c, ss[..n], Degraded) && |ss| - n >= c.currentWindow - 1 + c.recoverStreak
    requires AllClean(ss[n..], lo', hi') && hi' < c.recoverFactor * lo
    requires forall k :: n < k <= |ss| ==> MostlyWithin(WindowAt(c, ss, k), lo, hi)
    ensures exists k :: n < k <= |ss| && In(c, ss[..k], OK)
  {
    hide Judge, Replay, MostlyWithin;
    LearningLasts(c, ss[..n]);
    var m := n + c.currentWindow - 1;
    if !In(c, ss[..m], Degraded) {
      SomeOk(c, ss, n, m);
    } else {
      forall k | m < k <= |ss| ensures Judge(c, WindowAt(c, ss, k)).good {
        CleanIsGood(c, ss, n, k, lo, hi, lo', hi');
      }
      GoodWindowsRecover(c, ss, m);
    }
  }

  lemma {:induction false} SomeOk(c: Config, ss: seq<Sample>, n: nat, m: nat)
    requires Effective(c) && 0 < n <= m <= |ss| && In(c, ss[..n], Degraded) && !In(c, ss[..m], Degraded)
    ensures exists k :: n < k <= m && In(c, ss[..k], OK)
  {
    hide Replay;
    LearningLasts(c, ss[..n]);
    LearningLasts(c, ss[..m]);
    assert In(c, ss[..m], OK);
  }

  lemma {:induction false} CleanIsGood(c: Config, ss: seq<Sample>, n: nat, k: nat, lo: real, hi: real, lo': real, hi': real)
    requires Effective(c) && c.currentWindow <= c.minSamples && 0.0 <= lo && 0.0 <= lo'
    requires n <= |ss| && n + c.currentWindow <= k <= |ss| && k >= c.minSamples
    requires AllClean(ss[n..], lo', hi') && hi' < c.recoverFactor * lo && MostlyWithin(WindowAt(c, ss, k), lo, hi)
    ensures Judge(c, WindowAt(c, ss, k)).good
  {
    hide Judge, WindowAt, LossSum, Answered, MostlyWithin;
    var w := WindowAt(c, ss, k);
    CurrentIsClean(c, ss, n, k, lo', hi');
    hide Last, AllClean;
    LittleLoss(c);
    FastIsGood(c, w, lo, hi, lo', hi');
  }

  lemma {:induction false} LittleLoss(c: Config)
    requires Effective(c)
    ensures 0.0 < c.recoverLoss * (c.currentWindow as real)
  {
  }

  /** The current window of the k-th sample is clean when the samples from n on are. */
  lemma {:induction false} CurrentIsClean(c: Config, ss: seq<Sample>, n: nat, k: nat, lo: real, hi: real)
    requires Effective(c) && c.currentWindow <= c.minSamples && 0.0 <= lo
    requires n <= |ss| && n + c.currentWindow <= k <= |ss| && AllClean(ss[n..], lo, hi)
    ensures var w := WindowAt(c, ss, k); var cur := Last(w, c.currentWindow);
      |w| >= c.currentWindow && MostlyWithin(cur, lo, hi) && LossSum(cur) == 0.0
  {
    hide LossSum, Answered;
    var w := WindowAt(c, ss, k);
    var cur := Last(w, c.currentWindow);
    LastOfLast(ss[..k], [], c.window, c.currentWindow);
    assert cur == ss[k - c.currentWindow..k];
    hide Last, WindowAt;
    assert forall i :: 0 <= i < |cur| ==> cur[i] == ss[n..][k - c.currentWindow - n + i];
    CleanCount(cur, lo, hi);
  }
}
