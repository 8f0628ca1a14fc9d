/** What the verdict rules of internal/monitor/engine.go can and cannot be made to
    say: outliers below half never trip the latency rule, and an outage degrades an
    anchor exactly when losses shortly before it let it. */
module Verdicts {
  import opened Median
  import opened Engine
  import opened EngineRuns
  import Hysteresis
  import KeyRuns

  // ---- outliers ----

  ghost predicate MostlyWithin(w: seq<Sample>, lo: real, hi: real) {
    2 * CountIn(Answered(w), lo, hi) > |Answered(w)|
  }

  /** If more than half of the answered samples of the whole window and of the
      current one lie in a band that is narrow by the factor or by the delta, the
      latency rule cannot fire, whatever the other samples are. */
  lemma {:induction false} OutliersNeverTripRtt(c: Config, w: seq<Sample>, lo: real, hi: real)
    requires Effective(c)
    requires MostlyWithin(w, lo, hi) && MostlyWithin(Last(w, c.currentWindow), lo, hi)
    requires hi <= c.degradeFactor * lo || hi <= lo + c.degradeDelta
    ensures !Judge(c, w).rttBad
  {
    var cur := Last(w, c.currentWindow);
    MostMedian(w, lo, hi);
    MostMedian(cur, lo, hi);
    NarrowBand(c, MedianRtt(w), MeanLoss(w), MedianRtt(cur), MeanLoss(cur), lo, hi);
  }

  lemma {:induction false} MostMedian(w: seq<Sample>, lo: real, hi: real)
    requires MostlyWithin(w, lo, hi)
    ensures Within(MedianRtt(w), lo, hi)
  {
    MedianRobust(Answered(w), lo, hi);
  }

  lemma {:induction false} NarrowBand(c: Config, base: real, baseLoss: real, cur: real, curLoss: real, lo: real, hi: real)
    requires Effective(c) && lo <= base && cur <= hi
    requires hi <= c.degradeFactor * lo || hi <= lo + c.degradeDelta
    ensures !Rules(c, base, baseLoss, cur, curLoss).rttBad
  {
    assert c.degradeFactor * lo <= c.degradeFactor * base;
  }

  /** The default factor 2 and delta 20 ms. */
  lemma {:induction false} OutliersNeverTripDefaultRtt(w: seq<Sample>, lo: real, hi: real)
    requires MostlyWithin(w, lo, hi) && MostlyWithin(Last(w, 10), lo, hi)
    requires hi <= 2.0 * lo || hi <= lo + 20.0
    ensures !Judge(DEFAULTS, w).rttBad
  {
    OutliersNeverTripRtt(DEFAULTS, w, lo, hi);
  }

  // ---- an outage ----

  /** Loss shares, and answered times that lie in the band. */
  ghost predicate Steady(w: seq<Sample>, lo: real, hi: real) {
    forall i :: 0 <= i < |w| ==> 0.0 <= w[i].loss <= 1.0 && (w[i].rtt >= 0.0 ==> Within(w[i].rtt, lo, hi))
  }

  predicate Lost(s: Sample) { s.rtt < 0.0 && s.loss == 1.0 }

  ghost predicate AllLost(ss: seq<Sample>) { forall i :: 0 <= i < |ss| ==> Lost(ss[i]) }

  predicate Narrow(c: Config, lo: real, hi: real) { hi <= c.degradeFactor * lo || hi <= lo + c.degradeDelta }

  /** The knobs under which an outage is judged on its first DegradeStreak samples alone:
      one more of them lost already makes a lossy baseline, a single one does so when
      learning has just ended, and a lost sample among the current ones rules out a
      recovery. The defaults are such knobs. */
  ghost predicate Patient(c: Config) {
    && Effective(c) && c.currentWindow <= c.minSamples && c.degradeStreak + 1 <= c.window
    && c.degradeBaseLoss * (c.window as real) <= c.degradeStreak as real + 1.0
    && c.degradeBaseLoss * (c.minSamples as real) <= 1.0
    && c.recoverLoss * (c.currentWindow as real) <= 1.0
  }

  lemma {:induction false} PatientBasics(c: Config)
    requires Patient(c)
    ensures Effective(c) && 0 < c.currentWindow <= c.minSamples <= c.window && 0 < c.degradeStreak < c.window
  {
  }

  lemma {:induction false} DefaultsArePatient()
    ensures Patient(DEFAULTS)
  {
  }

  // ---- what loss alone decides ----

  lemma {:induction false} SteadyAnswers(w: seq<Sample>, lo: real, hi: real)
    requires Steady(w, lo, hi)
    ensures CountIn(Answered(w), lo, hi) == |Answered(w)|
  {
    if w != [] {
      SteadyAnswers(w[..|w| - 1], lo, hi);
      var rest := Answered(w[..|w| - 1]);
      if w[|w| - 1].rtt >= 0.0 {
        CountSplit(rest + [w[|w| - 1].rtt], |rest|, lo, hi);
        assert (rest + [w[|w| - 1].rtt])[..|rest|] == rest;
        assert (rest + [w[|w| - 1].rtt])[|rest|..] == [w[|w| - 1].rtt];
      }
    }
  }

  lemma {:induction false} SteadyMedian(w: seq<Sample>, lo: real, hi: real)
    requires Steady(w, lo, hi)
    ensures MedianRtt(w) == -1.0 || Within(MedianRtt(w), lo, hi)
  {
    SteadyAnswers(w, lo, hi);
    if Answered(w) != [] {
      MedianRobust(Answered(w), lo, hi);
    }
  }

  lemma {:induction false} Share(x: real, y: real, z: real)
    requires y > 0.0
    ensures x / y > z <==> x > z * y
    ensures x / y < z <==> x < z * y
  {
    assert x / y * y == x;
    if x / y > z {
      assert (x / y - z) * y > 0.0;
    } else {
      assert (z - x / y) * y >= 0.0;
    }
    if x / y < z {
      assert (z - x / y) * y > 0.0;
    } else {
      assert (x / y - z) * y >= 0.0;
    }
  }

  lemma {:induction false} RttQuiet(c: Config, w: seq<Sample>, lo: real, hi: real)
    requires Effective(c) && Narrow(c, lo, hi) && Steady(w, lo, hi)
    ensures !Judge(c, w).rttBad
  {
    hide MedianRtt, MeanLoss;
    var cur := Last(w, c.currentWindow);
    SteadyTail(w, c.currentWindow, lo, hi);
    SteadyMedian(w, lo, hi);
    SteadyMedian(cur, lo, hi);
    if MedianRtt(w) != -1.0 && MedianRtt(cur) != -1.0 {
      NarrowBand(c, MedianRtt(w), MeanLoss(w), MedianRtt(cur), MeanLoss(cur), lo, hi);
    }
  }

  lemma {:induction false} LossRules(c: Config, w: seq<Sample>)
    requires Effective(c)
    ensures var cur := Last(w, c.currentWindow);
      && (Judge(c, w).lossBad <==> MeanLoss(cur) > c.degradeLoss && MeanLoss(w) < c.degradeBaseLoss)
      && (Judge(c, w).good ==> MeanLoss(cur) < c.recoverLoss)
  {
    hide MedianRtt, MeanLoss;
  }

  lemma {:induction false} MeanIsShare(w: seq<Sample>, x: real)
    requires w != []
    ensures MeanLoss(w) > x <==> LossSum(w) > x * (|w| as real)
    ensures MeanLoss(w) < x <==> LossSum(w) < x * (|w| as real)
  {
    hide LossSum;
    Share(LossSum(w), |w| as real, x);
  }

  /** In a narrow band only the loss rule can fire. */
  lemma {:induction false} LossDecides(c: Config, w: seq<Sample>, lo: real, hi: real)
    requires Effective(c) && Narrow(c, lo, hi) && Steady(w, lo, hi) && c.currentWindow <= |w|
    ensures Judge(c, w).Bad() <==>
      && LossSum(Last(w, c.currentWindow)) > c.degradeLoss * (c.currentWindow as real)
      && LossSum(w) < c.degradeBaseLoss * (|w| as real)
    ensures Judge(c, w).good ==> LossSum(Last(w, c.currentWindow)) < c.recoverLoss * (c.currentWindow as real)
  {
    hide Judge, MeanLoss, LossSum, Steady, Narrow;
    RttQuiet(c, w, lo, hi);
    LossRules(c, w);
    var cur := Last(w, c.currentWindow);
    assert |cur| == c.currentWindow;
    MeanIsShare(cur, c.degradeLoss);
    MeanIsShare(cur, c.recoverLoss);
    MeanIsShare(w, c.degradeBaseLoss);
  }

  // ---- sums of losses ----

  lemma {:induction false} LossSplit(a: seq<Sample>, b: seq<Sample>)
    ensures LossSum(a + b) == LossSum(a) + LossSum(b)
  {
    if b == [] {
      assert a + b == a;
    } else {
      assert (a + b)[..|a + b| - 1] == a + b[..|b| - 1];
      LossSplit(a, b[..|b| - 1]);
    }
  }

  lemma {:induction false} LossBounds(w: seq<Sample>, lo: real, hi: real)
    requires Steady(w, lo, hi)
    ensures 0.0 <= LossSum(w) <= |w| as real
  {
    if w != [] {
      LossBounds(w[..|w| - 1], lo, hi);
    }
  }

  lemma {:induction false} LossOfLost(w: seq<Sample>)
    requires AllLost(w)
    ensures LossSum(w) == |w| as real
  {
    if w != [] {
      LossOfLost(w[..|w| - 1]);
    }
  }

  /** A longer tail has no less loss, and at most one more per sample. */
  lemma {:induction false} TailLoss(t: seq<Sample>, p: nat, q: nat, lo: real, hi: real)
    requires q <= p && Steady(Last(t, p), lo, hi)
    ensures LossSum(Last(t, q)) <= LossSum(Last(t, p)) <= LossSum(Last(t, q)) + (p - q) as real
  {
    hide LossSum;
    var long, short := Last(t, p), Last(t, q);
    var extra := long[..|long| - |short|];
    assert long == extra + short;
    LossSplit(extra, short);
    LossBounds(extra, lo, hi);
  }

  /** The loss among the last n samples once the newest k of them are lost. */
  lemma {:induction false} OutageLoss(own: seq<Sample>, lost: seq<Sample>, n: nat)
    requires AllLost(lost)
    ensures LossSum(Last(own + lost, n)) ==
      if |lost| <= n then LossSum(Last(own, n - |lost|)) + |lost| as real else n as real
  {
    hide LossSum;
    var w := Last(own + lost, n);
    if |lost| <= n {
      assert w == Last(own, n - |lost|) + lost;
      LossSplit(Last(own, n - |lost|), lost);
      LossOfLost(lost);
    } else {
      assert w == lost[|lost| - n..];
      LossOfLost(w);
    }
  }

  // ---- the exact condition, read off the history before the outage ----

  /** One more lost sample makes the current loss high: under the defaults, one of the
      last nine samples lost an echo. */
  predicate Recent(c: Config, own: seq<Sample>)
    requires Effective(c)
  {
    LossSum(Last(own, c.currentWindow - 1)) + 1.0 > c.degradeLoss * (c.currentWindow as real)
  }

  /** After k more lost samples the usual loss is still low. */
  predicate Room(c: Config, own: seq<Sample>, k: nat)
    requires Effective(c) && k <= c.window
  {
    LossSum(Last(own, c.window - k)) + k as real
      < c.degradeBaseLoss * ((if |own| + k <= c.window then |own| + k else c.window) as real)
  }

  /** Whether an anchor with this history is degraded after n more samples that are all
      lost: it was degraded already, or its bad streak is completed by the first of
      them. */
  predicate Degrades(c: Config, own: seq<Sample>, n: nat)
    requires Patient(c)
  {
    |own| >= c.minSamples && (
      var m := Replay(c, own).m;
      var need := c.degradeStreak - m.badStreak;
      || m.state == Degraded
      || (0 < need <= n && Recent(c, own) && Room(c, own, need)))
  }

  lemma {:induction false} RoomBefore(c: Config, own: seq<Sample>, k: nat, lo: real, hi: real)
    requires Patient(c) && k < c.window && Steady(Last(own, c.window), lo, hi) && Room(c, own, k + 1)
    ensures Room(c, own, k)
  {
    hide LossSum;
    assert c.degradeBaseLoss <= 1.0 by { BaseLossIsShare(c); }
    if |own| + k < c.window {
      assert Last(own, c.window - k) == own == Last(own, c.window - (k + 1));
      Spread(c.degradeBaseLoss, |own| + k);
    } else {
      assert Last(Last(own, c.window), c.window - k) == Last(own, c.window - k);
      TailLoss(own, c.window - k, c.window - (k + 1), lo, hi);
    }
  }

  lemma {:induction false} BaseLossIsShare(c: Config)
    requires Patient(c)
    ensures c.degradeBaseLoss <= 1.0
  {
    Bigger(c.degradeBaseLoss, c.window as real);
  }

  lemma {:induction false} Bigger(x: real, n: real)
    requires n > 0.0
    ensures x > 1.0 ==> x * n > n
  {
    if x > 1.0 {
      assert (x - 1.0) * n > 0.0;
    }
  }

  lemma {:induction false} Spread(x: real, n: nat)
    requires x <= 1.0
    ensures x * ((n + 1) as real) <= x * (n as real) + 1.0
  {
  }

  lemma {:induction false} RoomDown(c: Config, own: seq<Sample>, k: nat, m: nat, lo: real, hi: real)
    requires Patient(c) && k <= m <= c.window && Steady(Last(own, c.window), lo, hi) && Room(c, own, m)
    ensures Room(c, own, k)
    decreases m - k
  {
    if k < m {
      hide Room, Steady, Patient, Last;
      PatientBasics(c);
      RoomDown(c, own, k + 1, m, lo, hi);
      RoomBefore(c, own, k, lo, hi);
    }
  }

  // ---- the verdicts during an outage ----

  /** A history whose answers lie in a narrow band, and an outage after it. */
  ghost predicate Outage(c: Config, own: seq<Sample>, lost: seq<Sample>, lo: real, hi: real) {
    Patient(c) && Narrow(c, lo, hi) && Steady(Last(own, c.window), lo, hi) && AllLost(lost)
  }

  lemma {:induction false} OutageBasics(c: Config, own: seq<Sample>, lost: seq<Sample>, lo: real, hi: real)
    requires Outage(c, own, lost, lo, hi)
    ensures Patient(c) && Effective(c)
    ensures 0 < c.currentWindow <= c.minSamples <= c.window && 0 < c.degradeStreak < c.window
  {
  }

  lemma {:induction false} OutagePrefix(c: Config, own: seq<Sample>, lost: seq<Sample>, lo: real, hi: real, k: nat)
    requires Outage(c, own, lost, lo, hi) && k <= |lost|
    ensures Outage(c, own, lost[..k], lo, hi)
  {
    hide Patient, Steady, Narrow;
  }

  /** The verdict after |lost| lost samples, as sums over the history before. */
  ghost predicate High(c: Config, own: seq<Sample>, k: nat)
    requires Effective(c)
  {
    (if k <= c.currentWindow then LossSum(Last(own, c.currentWindow - k)) + k as real else c.currentWindow as real)
      > c.degradeLoss * (c.currentWindow as real)
  }

  lemma {:induction false} SteadyTail(w: seq<Sample>, n: nat, lo: real, hi: real)
    requires Steady(w, lo, hi)
    ensures Steady(Last(w, n), lo, hi)
  {
  }

  lemma {:induction false} SteadyThenLost(w: seq<Sample>, lost: seq<Sample>, lo: real, hi: real)
    requires Steady(w, lo, hi) && AllLost(lost)
    ensures Steady(w + lost, lo, hi)
  {
  }

  lemma {:induction false} OutageWindow(c: Config, own: seq<Sample>, lost: seq<Sample>, lo: real, hi: real)
    requires Patient(c) && Steady(Last(own, c.window), lo, hi) && AllLost(lost)
    ensures Steady(Last(own + lost, c.window), lo, hi)
    ensures Last(Last(own + lost, c.window), c.currentWindow) == Last(own + lost, c.currentWindow)
  {
    SteadyThenLost(Last(own, c.window), lost, lo, hi);
    SteadyTail(Last(own, c.window) + lost, c.window, lo, hi);
    LastOfLast(own, lost, c.window, c.window);
    LastOfLast(own + lost, [], c.window, c.currentWindow);
  }

  lemma {:induction false} TailBounds(t: seq<Sample>, n: nat, m: nat, lo: real, hi: real)
    requires m <= n && Steady(Last(t, n), lo, hi)
    ensures 0.0 <= LossSum(Last(t, m)) <= |Last(t, m)| as real
  {
    LastOfLast(t, [], n, m);
    SteadyTail(Last(t, n), m, lo, hi);
    LossBounds(Last(t, m), lo, hi);
  }

  /** The current loss during an outage. */
  lemma {:induction false} CurrentLoss(c: Config, own: seq<Sample>, lost: seq<Sample>, lo: real, hi: real)
    requires Patient(c) && Steady(Last(own, c.window), lo, hi) && lost != [] && AllLost(lost)
    ensures var sum := LossSum(Last(own + lost, c.currentWindow));
      sum >= 1.0 && (sum > c.degradeLoss * (c.currentWindow as real) <==> High(c, own, |lost|))
  {
    hide LossSum, Steady, Last;
    OutageLoss(own, lost, c.currentWindow);
    if |lost| <= c.currentWindow {
      TailBounds(own, c.window, c.currentWindow - |lost|, lo, hi);
    }
  }

  /** The usual loss during an outage; it is no longer low once more than DegradeStreak
      samples are lost. */
  lemma {:induction false} UsualLoss(c: Config, own: seq<Sample>, lost: seq<Sample>, lo: real, hi: real)
    requires Patient(c) && Steady(Last(own, c.window), lo, hi) && AllLost(lost)
    ensures var w := Last(own + lost, c.window);
      LossSum(w) < c.degradeBaseLoss * (|w| as real) <==> |lost| <= c.degradeStreak && Room(c, own, |lost|)
  {
    hide LossSum, Steady, Patient, Room;
    PatientBasics(c);
    if |lost| <= c.degradeStreak {
      FewLost(c, own, lost);
    } else {
      ManyLost(c, own, lost, lo, hi);
    }
  }

  lemma {:induction false} FewLost(c: Config, own: seq<Sample>, lost: seq<Sample>)
    requires Effective(c) && AllLost(lost) && |lost| <= c.window
    ensures var w := Last(own + lost, c.window);
      LossSum(w) < c.degradeBaseLoss * (|w| as real) <==> Room(c, own, |lost|)
  {
    hide LossSum;
    OutageLoss(own, lost, c.window);
    var w := Last(own + lost, c.window);
    assert |w| == if |own| + |lost| <= c.window then |own| + |lost| else c.window;
    hide Last;
  }

  lemma {:induction false} ManyLost(c: Config, own: seq<Sample>, lost: seq<Sample>, lo: real, hi: real)
    requires Patient(c) && Steady(Last(own, c.window), lo, hi) && AllLost(lost) && |lost| > c.degradeStreak
    ensures var w := Last(own + lost, c.window); LossSum(w) >= c.degradeBaseLoss * (|w| as real)
  {
    hide LossSum, Steady, Last, Patient;
    PatientBasics(c);
    OutageLoss(own, lost, c.window);
    if |lost| <= c.window {
      TailBounds(own, c.window, c.window - |lost|, lo, hi);
    }
    var w := Last(own + lost, c.window);
    assert LossSum(w) >= c.degradeStreak as real + 1.0;
    TooMuch(c, |w|);
  }

  lemma {:induction false} TooMuch(c: Config, n: nat)
    requires Patient(c) && n <= c.window
    ensures c.degradeBaseLoss * (n as real) <= c.degradeStreak as real + 1.0
  {
    Scale(c.degradeBaseLoss, n as real, c.window as real);
  }

  /** The k-th lost sample is judged bad: the current loss is high and the usual loss
      still low. */
  ghost predicate Blamed(c: Config, own: seq<Sample>, k: nat)
    requires Effective(c)
  {
    k <= c.degradeStreak && k <= c.window && High(c, own, k) && Room(c, own, k)
  }

  /** During an outage no verdict is good, and the bad ones are those of the first
      DegradeStreak lost samples at which the current loss is high and the usual loss
      still low. */
  lemma {:induction false} OutageVerdict(c: Config, own: seq<Sample>, lost: seq<Sample>, lo: real, hi: real)
    requires Outage(c, own, lost, lo, hi) && Effective(c)
    requires lost != [] && |own| + |lost| >= c.minSamples
    ensures var v := Judge(c, Last(own + lost, c.window));
      !v.good && (v.Bad() <==> Blamed(c, own, |lost|))
  {
    hide Judge, LossSum, Room, High, Steady, Narrow;
    OutageWindow(c, own, lost, lo, hi);
    LossDecides(c, Last(own + lost, c.window), lo, hi);
    CurrentLoss(c, own, lost, lo, hi);
    UsualLoss(c, own, lost, lo, hi);
  }

  lemma {:induction false} Scale(x: real, y: real, z: real)
    requires x > 0.0 && y <= z
    ensures x * y <= x * z
  {
  }

  lemma {:induction false} HighUp(c: Config, own: seq<Sample>, k: nat, lo: real, hi: real)
    requires Patient(c) && Steady(Last(own, c.window), lo, hi) && k >= 1 && Recent(c, own)
    ensures High(c, own, k)
  {
    hide LossSum, Steady, Last, Patient;
    PatientBasics(c);
    LastOfLast(own, [], c.window, c.currentWindow - 1);
    SteadyTail(Last(own, c.window), c.currentWindow - 1, lo, hi);
    if k <= c.currentWindow {
      TailLoss(own, c.currentWindow - 1, c.currentWindow - k, lo, hi);
    } else {
      LossBounds(Last(own, c.currentWindow - 1), lo, hi);
    }
  }

  // ---- whole outages ----

  /** The verdict on the window that ends at index i, i + 1 - |own| lost samples in. */
  lemma {:induction false} VerdictAt(c: Config, own: seq<Sample>, lost: seq<Sample>, lo: real, hi: real, i: nat)
    requires Outage(c, own, lost, lo, hi) && Effective(c)
    requires |own| <= i < |own| + |lost| && i + 1 >= c.minSamples
    ensures var v := Verdicts(c, own + lost)[i].v;
      !v.good && (v.Bad() <==> Blamed(c, own, i + 1 - |own|))
  {
    hide Judge, Blamed, Verdicts, Outage;
    var k := i + 1 - |own|;
    VerdictsArePerWindow(c, own + lost, i);
    assert (own + lost)[..i + 1] == own + lost[..k];
    OutagePrefix(c, own, lost, lo, hi, k);
    OutageVerdict(c, own, lost[..k], lo, hi);
  }

  /** After a recent loss every lost sample the history has room for is blamed. */
  lemma {:induction false} BlamedWithRoom(c: Config, own: seq<Sample>, lost: seq<Sample>, lo: real, hi: real, k: nat, n: nat)
    requires Outage(c, own, lost, lo, hi) && Effective(c)
    requires 0 < k <= n <= c.degradeStreak && n <= c.window && Recent(c, own) && Room(c, own, n)
    ensures Blamed(c, own, k)
  {
    hide Room, Recent, High, Steady, Patient, Narrow;
    HighUp(c, own, k, lo, hi);
    RoomDown(c, own, k, n, lo, hi);
  }

  /** The first n lost samples are all judged bad exactly when the history had a recent
      loss and left room for all n. */
  lemma {:induction false} AllBadExactly(c: Config, own: seq<Sample>, lost: seq<Sample>, lo: real, hi: real, n: nat)
    requires Outage(c, own, lost, lo, hi) && Effective(c)
    requires |own| >= c.minSamples && 0 < n <= c.degradeStreak < c.window
    ensures Hysteresis.AllBad(Verdicts(c, own + lost), |own|, |own| + n) <==>
      n <= |lost| && Recent(c, own) && Room(c, own, n)
  {
    hide Room, Verdicts, Recent, Outage, Blamed;
    var js := Verdicts(c, own + lost);
    if Hysteresis.AllBad(js, |own|, |own| + n) {
      assert js[|own|].v.Bad() && js[|own| + n - 1].v.Bad();
      VerdictAt(c, own, lost, lo, hi, |own|);
      VerdictAt(c, own, lost, lo, hi, |own| + n - 1);
      BlamedNeeds(c, own, n);
    }
    if n <= |lost| && Recent(c, own) && Room(c, own, n) {
      forall i | |own| <= i < |own| + n ensures js[i].v.Bad() {
        VerdictAt(c, own, lost, lo, hi, i);
        BlamedWithRoom(c, own, lost, lo, hi, i + 1 - |own|, n);
      }
    }
  }

  lemma {:induction false} BlamedNeeds(c: Config, own: seq<Sample>, n: nat)
    requires Effective(c) && n <= c.window && Blamed(c, own, 1) && Blamed(c, own, n)
    ensures Recent(c, own) && Room(c, own, n)
  {
    hide Room, High, Recent;
    RecentIsHigh(c, own);
  }

  lemma {:induction false} RecentIsHigh(c: Config, own: seq<Sample>)
    requires Effective(c)
    ensures Recent(c, own) <==> High(c, own, 1)
  {
  }

  /** An outage of an anchor that has learnt: from ok it degrades exactly as Degrades
      says, and from degraded it stays so. */
  lemma {:induction false} LearntOutage(c: Config, own: seq<Sample>, lost: seq<Sample>, lo: real, hi: real)
    requires Outage(c, own, lost, lo, hi)
    requires |own| >= c.minSamples
    ensures Replay(c, own + lost).m.state == if Degrades(c, own, |lost|) then Degraded else OK
  {
    hide Steady, Narrow, Replay, Room, Recent;
    LearningLasts(c, own);
    if Replay(c, own).m.state == OK {
      OkOutage(c, own, lost, lo, hi);
    } else {
      DegradedOutage(c, own, lost, lo, hi);
    }
  }

  /** The machine before and after an outage, driven by one row of verdicts. */
  ghost predicate Driven(c: Config, own: seq<Sample>, lost: seq<Sample>)
    requires Effective(c) && own != []
  {
    var js, n := Verdicts(c, own + lost), |own|;
    && Replay(c, own).m == Hysteresis.Drive(c, js[..n]) && Replay(c, own + lost).m == Hysteresis.Drive(c, js)
    && Hysteresis.Silent(c, js, n)
  }

  lemma {:induction false} OutageDrives(c: Config, own: seq<Sample>, lost: seq<Sample>, lo: real, hi: real)
    requires Outage(c, own, lost, lo, hi)
    requires Effective(c) && |own| >= c.minSamples
    ensures Driven(c, own, lost)
  {
    hide Outage, Blamed, Verdicts, Replay;
    var all, js, n := own + lost, Verdicts(c, own + lost), |own|;
    VerdictsOfPrefix(c, all, n);
    assert all[..n] == own;
    ReplayDrives(c, own);
    ReplayDrives(c, all);
    forall i | n <= i < |js| ensures !js[i].v.good && (i >= n + c.degradeStreak ==> !js[i].v.Bad()) {
      VerdictAt(c, own, lost, lo, hi, i);
      if i >= n + c.degradeStreak {
        LateIsNotBlamed(c, own, i + 1 - n);
      }
    }
  }

  lemma {:induction false} LateIsNotBlamed(c: Config, own: seq<Sample>, k: nat)
    requires Effective(c) && k > c.degradeStreak
    ensures !Blamed(c, own, k)
  {
  }

  lemma {:induction false} DegradesFromOk(c: Config, own: seq<Sample>, n: nat)
    requires Patient(c) && |own| >= c.minSamples && Replay(c, own).m.state == OK
    requires Replay(c, own).m.badStreak < c.degradeStreak
    ensures var need := c.degradeStreak - Replay(c, own).m.badStreak;
      need <= c.window && (Degrades(c, own, n) <==> need <= n && Recent(c, own) && Room(c, own, need))
  {
    hide Replay, Recent, Room;
  }

  /** From ok, when the verdicts that would complete the streak are all bad exactly
      when hit. */
  lemma {:induction false} DecideOutage(c: Config, own: seq<Sample>, lost: seq<Sample>, hit: bool)
    requires Effective(c) && own != [] && Replay(c, own).m.state == OK && Driven(c, own, lost)
    requires var need := c.degradeStreak - Replay(c, own).m.badStreak;
      Hysteresis.AllBad(Verdicts(c, own + lost), |own|, |own| + need) <==> hit
    ensures Replay(c, own + lost).m.state == if hit then Degraded else OK
  {
    hide Replay, Verdicts, Hysteresis.Drive, Hysteresis.AllBad, Hysteresis.StreakIs, Hysteresis.Silent;
    Hysteresis.FirstVerdictsDecide(c, Verdicts(c, own + lost), |own|);
  }

  lemma {:induction false} OkOutage(c: Config, own: seq<Sample>, lost: seq<Sample>, lo: real, hi: real)
    requires Outage(c, own, lost, lo, hi)
    requires |own| >= c.minSamples && Replay(c, own).m.state == OK
    ensures Replay(c, own + lost).m.state == if Degrades(c, own, |lost|) then Degraded else OK
  {
    hide *;
    OutageBasics(c, own, lost, lo, hi);
    assert own != [];
    StreakIsShort(c, own);
    DegradesFromOk(c, own, |lost|);
    AllBadExactly(c, own, lost, lo, hi, c.degradeStreak - Replay(c, own).m.badStreak);
    OutageDrives(c, own, lost, lo, hi);
    DecideOutage(c, own, lost, Degrades(c, own, |lost|));
  }

  lemma {:induction false} StreakIsShort(c: Config, own: seq<Sample>)
    requires Effective(c) && own != [] && Replay(c, own).m.state == OK
    ensures Replay(c, own).m.badStreak < c.degradeStreak
  {
    hide Replay, Verdicts;
    ReplayDrives(c, own);
    Hysteresis.DriveMeaning(c, Verdicts(c, own));
  }

  lemma {:induction false} DegradedOutage(c: Config, own: seq<Sample>, lost: seq<Sample>, lo: real, hi: real)
    requires Outage(c, own, lost, lo, hi)
    requires |own| >= c.minSamples && Replay(c, own).m.state == Degraded
    ensures Replay(c, own + lost).m.state == Degraded
  {
    hide Steady, Narrow, Verdicts, Replay, Hysteresis.Drive;
    OutageDrives(c, own, lost, lo, hi);
    Hysteresis.DegradedStays(c, Verdicts(c, own + lost), |own|);
  }

  /** An outage that begins while the anchor still learns never degrades it: its usual
      loss is never low. */
  lemma {:induction false} LearningOutage(c: Config, own: seq<Sample>, lost: seq<Sample>, lo: real, hi: real)
    requires Outage(c, own, lost, lo, hi)
    requires |own| < c.minSamples && own + lost != []
    ensures Replay(c, own + lost).m.state != Degraded
  {
    hide Judge, Snapshot, Steady, Narrow, Room, Verdicts, Recent, High, Replay;
    var all, js := own + lost, Verdicts(c, own + lost);
    LearningLasts(c, all);
    if |all| >= c.minSamples {
      ReplayDrives(c, all);
      forall i | c.minSamples - 1 <= i < |all| ensures !js[i].v.Bad() {
        VerdictAt(c, own, lost, lo, hi, i);
        NotBlamedWhileLearning(c, own, lost, lo, hi, i + 1 - |own|);
      }
      Hysteresis.NeverBadIsOk(c, js);
    }
  }

  lemma {:induction false} NoRoomAtFirst(c: Config, own: seq<Sample>, first: nat)
    requires Patient(c) && 0 < first && |own| + first == c.minSamples
    requires LossSum(Last(own, c.window - first)) >= 0.0
    ensures !Room(c, own, first)
  {
    hide LossSum, Last;
  }

  lemma {:induction false} NoRoomWhileLearning(c: Config, own: seq<Sample>, k: nat, lo: real, hi: real)
    requires Patient(c) && Steady(Last(own, c.window), lo, hi)
    requires |own| < c.minSamples <= |own| + k && k <= c.window
    ensures !Room(c, own, k)
  {
    var first := c.minSamples - |own|;
    TailBounds(own, c.window, c.window - first, lo, hi);
    NoRoomAtFirst(c, own, first);
    if Room(c, own, k) {
      hide Room;
      RoomDown(c, own, first, k, lo, hi);
    }
  }

  lemma {:induction false} NotBlamedWhileLearning(c: Config, own: seq<Sample>, lost: seq<Sample>, lo: real, hi: real, k: nat)
    requires Outage(c, own, lost, lo, hi) && Effective(c) && |own| < c.minSamples <= |own| + k
    ensures !Blamed(c, own, k)
  {
    hide Room, High, Steady, Narrow, Patient;
    if k <= c.window {
      NoRoomWhileLearning(c, own, k, lo, hi);
    }
  }

  /** The exact condition, for any history whose answers lie in a narrow band and any
      outage after it: the anchor ends up degraded if and only if it was, or the echoes
      lost shortly before the outage and the bad streak they left let its first samples
      complete the streak before the usual loss has risen. */
  lemma {:induction false} OutageExactly(c: Config, own: seq<Sample>, lost: seq<Sample>, lo: real, hi: real)
    requires Outage(c, own, lost, lo, hi)
    requires own + lost != []
    ensures Replay(c, own + lost).m.state == Degraded <==> Degrades(c, own, |lost|)
  {
    hide Steady, Narrow, Replay, Room, Recent;
    if |own| >= c.minSamples {
      LearntOutage(c, own, lost, lo, hi);
    } else {
      LearningOutage(c, own, lost, lo, hi);
    }
  }

  /** Under the defaults, from ok: with the bad streak it has, the anchor needs so many
      more bad verdicts; an outage of at least that many samples degrades it exactly when
      one of the last nine samples before it lost an echo and the losses in the window
      leave room for that many more. */
  lemma {:induction false} DefaultOutageExactly(own: seq<Sample>, lost: seq<Sample>, lo: real, hi: real)
    requires (hi <= 2.0 * lo || hi <= lo + 20.0) && Steady(Last(own, 200), lo, hi) && AllLost(lost)
    requires own != [] && Replay(DEFAULTS, own).m.state == OK
    ensures var need := 3 - Replay(DEFAULTS, own).m.badStreak;
      && 0 < need <= 3
      && (Replay(DEFAULTS, own + lost).m.state == Degraded <==>
        && |lost| >= need
        && LossSum(Last(own, 9)) > 0.0
        && LossSum(Last(own, 200 - need)) + need as real
             < 0.02 * ((if |own| + need <= 200 then |own| + need else 200) as real))
  {
    hide Steady, Replay, LossSum;
    DefaultsArePatient();
    LearningLasts(DEFAULTS, own);
    StreakIsShort(DEFAULTS, own);
    OutageExactly(DEFAULTS, own, lost, lo, hi);
  }

  /** Without a recent loss an outage of any length leaves an ok anchor ok. */
  lemma {:induction false} DeadAnchorStaysOk(c: Config, own: seq<Sample>, lost: seq<Sample>, lo: real, hi: real)
    requires Outage(c, own, lost, lo, hi) && Effective(c)
    requires own != [] && Replay(c, own).m.state == OK && !Recent(c, own)
    ensures Replay(c, own + lost).m.state == OK
  {
    hide Replay, Recent, Room, Outage;
    LearningLasts(c, own);
    OutageBasics(c, own, lost, lo, hi);
    LearntOutage(c, own, lost, lo, hi);
  }

  // ---- a hiccup, then an outage ----

  /** No two lost echoes' worth in the current samples: never judged bad. */
  lemma {:induction false} QuietIsOk(c: Config, own: seq<Sample>, lo: real, hi: real)
    requires Effective(c) && Narrow(c, lo, hi) && Steady(own, lo, hi)
    requires |own| >= c.minSamples >= c.currentWindow
    requires LossSum(own) <= c.degradeLoss * (c.currentWindow as real)
    ensures Replay(c, own).m.state == OK && Replay(c, own).m.badStreak == 0
  {
    hide Replay, Judge, Steady, LossSum, Narrow;
    var js := Verdicts(c, own);
    ReplayDrives(c, own);
    forall i | c.minSamples - 1 <= i < |own| ensures !js[i].v.Bad() {
      VerdictsArePerWindow(c, own, i);
      QuietWindow(c, own, i + 1, lo, hi);
    }
    hide Verdicts;
    Hysteresis.NeverBadIsOk(c, js);
  }

  lemma {:induction false} QuietWindow(c: Config, own: seq<Sample>, n: nat, lo: real, hi: real)
    requires Effective(c) && Narrow(c, lo, hi) && Steady(own, lo, hi)
    requires c.currentWindow <= c.minSamples <= n <= |own|
    requires LossSum(own) <= c.degradeLoss * (c.currentWindow as real)
    ensures !Judge(c, WindowAt(c, own, n)).Bad()
  {
    hide Judge, LossSum, Narrow;
    var w, before, after := WindowAt(c, own, n), own[..n], own[n..];
    assert own == before + after;
    LossSplit(before, after);
    LossBounds(after, lo, hi);
    assert Steady(before, lo, hi);
    hide Steady;
    assert Last(before, n) == before;
    TailLoss(before, n, c.currentWindow, lo, hi);
    SteadyTail(before, c.window, lo, hi);
    LastOfLast(before, [], c.window, c.currentWindow);
    LossDecides(c, w, lo, hi);
  }

  predicate Clean(s: Sample, lo: real, hi: real) { s.loss == 0.0 && Within(s.rtt, lo, hi) }

  lemma {:induction false} CleanLoss(own: seq<Sample>, lo: real, hi: real)
    requires forall i :: 0 <= i < |own| ==> Clean(own[i], lo, hi)
    ensures LossSum(own) == 0.0 && Steady(own, lo, hi)
  {
    if own != [] {
      CleanLoss(own[..|own| - 1], lo, hi);
    }
  }

  /** A clean run in a narrow band leads to ok as soon as learning is over. */
  lemma {:induction false} CleanAnchorIsOk(c: Config, own: seq<Sample>, lo: real, hi: real)
    requires Patient(c) && Narrow(c, lo, hi)
    requires |own| >= c.minSamples && forall i :: 0 <= i < |own| ==> Clean(own[i], lo, hi)
    ensures Replay(c, own).m.state == OK && Replay(c, own).m.badStreak == 0
  {
    hide Replay, LossSum;
    CleanLoss(own, lo, hi);
    QuietIsOk(c, own, lo, hi);
  }

  /** A single dead anchor can degrade under the defaults: a clean window, one sample
      that lost some of its echoes but not all, and an outage of three samples. */
  lemma {:induction false} HiccupThenDead(own: seq<Sample>, s: Sample, lost: seq<Sample>, lo: real, hi: real)
    requires (hi <= 2.0 * lo || hi <= lo + 20.0) && |own| >= 199
    requires forall i :: 0 <= i < |own| ==> Clean(own[i], lo, hi)
    requires 0.0 < s.loss < 1.0 && Within(s.rtt, lo, hi) && AllLost(lost) && |lost| >= 3
    ensures Replay(DEFAULTS, own + [s]).m.state == OK
    ensures Replay(DEFAULTS, own + [s] + lost).m.state == Degraded
  {
    hide Replay, LossSum;
    var all := own + [s];
    HiccupLoss(own, s, |all|, lo, hi);
    assert Last(all, |all|) == all;
    QuietIsOk(DEFAULTS, all, lo, hi);
    HiccupLoss(own, s, 9, lo, hi);
    HiccupLoss(own, s, 197, lo, hi);
    SteadyTail(all, 200, lo, hi);
    DefaultOutageExactly(all, lost, lo, hi);
  }

  lemma {:induction false} HiccupLoss(own: seq<Sample>, s: Sample, n: nat, lo: real, hi: real)
    requires 0 < n <= |own| + 1 && forall i :: 0 <= i < |own| ==> Clean(own[i], lo, hi)
    requires 0.0 < s.loss < 1.0 && Within(s.rtt, lo, hi)
    ensures LossSum(Last(own + [s], n)) == s.loss && Steady(own + [s], lo, hi)
  {
    var tail := Last(own, n - 1);
    assert Last(own + [s], n) == tail + [s];
    assert forall i :: 0 <= i < |tail| ==> tail[i] == own[|own| - |tail| + i];
    CleanLoss(tail, lo, hi);
    LossSplit(tail, [s]);
    assert [s][..0] == [];
  }

  /** 199 answers of 10 ms and one sample that lost one of its three echoes. */
  function Hiccup(key: string, anchor: string): seq<Sample> {
    seq(199, i => Sample(i + 1, key, anchor, 10.0, 0.0, -1.0)) + [Sample(200, key, anchor, 10.0, 1.0 / 3.0, -1.0)]
  }

  function ThreeLost(key: string, anchor: string): seq<Sample> {
    seq(3, i => Sample(201 + i, key, anchor, -1.0, 1.0, -1.0))
  }

  /** The witness: a dead anchor that degrades under the defaults. */
  lemma {:induction false} DeadAnchorDegrades(key: string, anchor: string)
    ensures Replay(DEFAULTS, Hiccup(key, anchor)).m.state == OK
    ensures AllLost(ThreeLost(key, anchor))
    ensures Replay(DEFAULTS, Hiccup(key, anchor) + ThreeLost(key, anchor)).m.state == Degraded
  {
    hide Replay;
    var own := seq(199, i => Sample(i + 1, key, anchor, 10.0, 0.0, -1.0));
    HiccupThenDead(own, Sample(200, key, anchor, 10.0, 1.0 / 3.0, -1.0), ThreeLost(key, anchor), 10.0, 10.0);
  }

  // ---- a network goes silent ----

  /** The band is some narrow one. */
  ghost predicate GoesSilent(c: Config, own: seq<Sample>, lost: seq<Sample>) {
    exists lo: real, hi: real :: Outage(c, own, lost, lo, hi)
  }

  predicate Public(a: string) { a != "" && a != GATEWAY }

  /** After ss, all public anchors of k that are still probed go silent; the gateway and
      other networks do as they like. */
  ghost predicate NetworkSilence(c: Config, ss: seq<Sample>, out: seq<Sample>, k: string) {
    forall a :: Public(a) ==> GoesSilent(c, Sub(ss, k, a), Sub(out, k, a))
  }

  /** A silent network is degraded exactly when the outage degrades one of its public
      anchors, for any interleaving. */
  lemma {:induction false} NetworkSilenceExactly(c: Config, ss: seq<Sample>, out: seq<Sample>, k: string)
    requires Patient(c) && k != "" && NetworkSilence(c, ss, out, k)
    ensures KeyOf(Run(c, ss + out).0, k).state == Degraded <==>
      exists a :: Public(a) && Degrades(c, Sub(ss, k, a), |Sub(out, k, a)|)
  {
    hide Outage, Degrades, Replay, Run, Sub, Patient;
    PatientBasics(c);
    var keys := Run(c, ss + out).0;
    var ks := KeyOf(keys, k);
    DegradedIsPublic(c, ss + out, k);
    forall a | Public(a)
      ensures a in ks.anchors && ks.anchors[a].m.state == Degraded <==> Degrades(c, Sub(ss, k, a), |Sub(out, k, a)|) {
      AnchorSilence(c, ss, out, k, a);
    }
    NoEmptyAnchor(c, ss + out, k);
    if PublicDegraded(ks.anchors) {
      var a :| a in ks.anchors && a != GATEWAY && ks.anchors[a].m.state == Degraded;
      assert Public(a);
    }
    if a :| Public(a) && Degrades(c, Sub(ss, k, a), |Sub(out, k, a)|) {
      assert a in ks.anchors && ks.anchors[a].m.state == Degraded;
    }
  }

  lemma {:induction false} DegradedIsPublic(c: Config, ss: seq<Sample>, k: string)
    requires Effective(c) && k != ""
    ensures KeyOf(Run(c, ss).0, k).state == Degraded <==> PublicDegraded(KeyOf(Run(c, ss).0, k).anchors)
  {
    hide Run;
    KeyRuns.KeyHistory(c, ss, k);
  }

  lemma {:induction false} AnchorSilence(c: Config, ss: seq<Sample>, out: seq<Sample>, k: string, a: string)
    requires Patient(c) && k != "" && Public(a) && GoesSilent(c, Sub(ss, k, a), Sub(out, k, a))
    ensures var ks := KeyOf(Run(c, ss + out).0, k);
      a in ks.anchors && ks.anchors[a].m.state == Degraded <==> Degrades(c, Sub(ss, k, a), |Sub(out, k, a)|)
  {
    hide Outage, Replay, Run, Sub;
    var own, lost := Sub(ss, k, a), Sub(out, k, a);
    SubConcat(ss, out, k, a);
    AnchorIsItsOwnReplay(c, ss + out, k, a);
    if own + lost != [] {
      var lo: real, hi: real :| Outage(c, own, lost, lo, hi);
      OutageExactly(c, own, lost, lo, hi);
    }
  }

  /** If no public anchor is degraded by the silence, the network is at no time of it,
      and no transition in it goes to degraded. */
  lemma {:induction false} SilenceStaysQuiet(c: Config, ss: seq<Sample>, out: seq<Sample>, k: string)
    requires Patient(c) && k != "" && NetworkSilence(c, ss, out, k)
    requires forall a :: Public(a) ==> !Degrades(c, Sub(ss, k, a), |Sub(out, k, a)|)
    ensures KeyOf(Run(c, ss + out).0, k).state != Degraded
    ensures Run(c, ss).1 <= Run(c, ss + out).1
    ensures forall i :: |Run(c, ss).1| <= i < |Run(c, ss + out).1| && Run(c, ss + out).1[i].key == k ==>
      Run(c, ss + out).1[i].to != Degraded
    decreases |out|
  {
    hide Outage, Degrades, Run, Sub, Patient;
    PatientBasics(c);
    NetworkSilenceExactly(c, ss, out, k);
    if out == [] {
      assert ss + out == ss;
    } else {
      var before := out[..|out| - 1];
      SilenceBefore(c, ss, out, k);
      SilenceStaysQuiet(c, ss, before, k);
      assert (ss + out)[..|ss + out| - 1] == ss + before;
      LastTransition(c, ss + out, k);
    }
  }

  lemma {:induction false} LastTransition(c: Config, ss: seq<Sample>, k: string)
    requires Effective(c) && ss != []
    ensures var (trs, all) := (Run(c, ss[..|ss| - 1]).1, Run(c, ss).1);
      && trs <= all
      && forall i :: |trs| <= i < |all| && all[i].key == k ==> all[i].to == KeyOf(Run(c, ss).0, k).state
  {
    hide Derived, AnchorStep;
    var (keys, trs) := Run(c, ss[..|ss| - 1]);
    var (keys', more) := AddStep(c, keys, ss[|ss| - 1]);
    assert Run(c, ss) == (keys', trs + more);
    StepGoesTo(c, keys, ss[|ss| - 1]);
  }

  lemma {:induction false} StepGoesTo(c: Config, keys: Keys, s: Sample)
    requires Effective(c)
    ensures var (keys', trs) := AddStep(c, keys, s);
      forall i :: 0 <= i < |trs| ==> trs[i].key == s.key && trs[i].to == KeyOf(keys', s.key).state
  {
    hide Derived, AnchorStep;
  }

  /** A silence is one up to any earlier point, and it degrades no more then. */
  lemma {:induction false} SilenceBefore(c: Config, ss: seq<Sample>, out: seq<Sample>, k: string)
    requires Patient(c) && out != [] && NetworkSilence(c, ss, out, k)
    requires forall a :: Public(a) ==> !Degrades(c, Sub(ss, k, a), |Sub(out, k, a)|)
    ensures NetworkSilence(c, ss, out[..|out| - 1], k)
    ensures forall a :: Public(a) ==> !Degrades(c, Sub(ss, k, a), |Sub(out[..|out| - 1], k, a)|)
  {
    hide GoesSilent, Degrades, Sub, Patient;
    forall a | Public(a)
      ensures GoesSilent(c, Sub(ss, k, a), Sub(out[..|out| - 1], k, a))
      ensures !Degrades(c, Sub(ss, k, a), |Sub(out[..|out| - 1], k, a)|) {
      AnchorSilentBefore(c, Sub(ss, k, a), out, k, a);
    }
  }

  lemma {:induction false} AnchorSilentBefore(c: Config, own: seq<Sample>, out: seq<Sample>, k: string, a: string)
    requires Patient(c) && out != [] && GoesSilent(c, own, Sub(out, k, a))
    ensures GoesSilent(c, own, Sub(out[..|out| - 1], k, a))
    ensures Degrades(c, own, |Sub(out[..|out| - 1], k, a)|) ==> Degrades(c, own, |Sub(out, k, a)|)
  {
    hide Outage, Replay, Recent, Room, Patient;
    var lost, less := Sub(out, k, a), Sub(out[..|out| - 1], k, a);
    assert less == lost[..|less|];
    var lo: real, hi: real :| Outage(c, own, lost, lo, hi);
    OutagePrefix(c, own, lost, lo, hi, |less|);
  }

  /** Under the defaults: a network all of whose public anchors fall silent, none of them
      degraded and none with a lost echo in its last nine samples, is not degraded while
      the silence lasts, however long. */
  lemma {:induction false} DeadNetworkIsNotDegraded(ss: seq<Sample>, out: seq<Sample>, k: string)
    requires k != "" && NetworkSilence(DEFAULTS, ss, out, k)
    requires forall a :: Public(a) ==>
      var own := Sub(ss, k, a);
      LossSum(Last(own, 9)) == 0.0 && (own == [] || Replay(DEFAULTS, own).m.state != Degraded)
    ensures KeyOf(Run(DEFAULTS, ss + out).0, k).state != Degraded
    ensures forall i :: |Run(DEFAULTS, ss).1| <= i < |Run(DEFAULTS, ss + out).1| && Run(DEFAULTS, ss + out).1[i].key == k ==>
      Run(DEFAULTS, ss + out).1[i].to != Degraded
  {
    hide Run, Sub, Replay, LossSum, Outage;
    DefaultsArePatient();
    forall a | Public(a) ensures !Degrades(DEFAULTS, Sub(ss, k, a), |Sub(out, k, a)|) {
      assert LossSum(Last(Sub(ss, k, a), 9)) == 0.0;
    }
    SilenceStaysQuiet(DEFAULTS, ss, out, k);
  }

  lemma {:induction false} NoEmptyAnchor(c: Config, ss: seq<Sample>, k: string)
    requires Effective(c)
    ensures k in Run(c, ss).0 ==> "" !in Run(c, ss).0[k].anchors
  {
    hide Judge, Snapshot;
    if ss != [] {
      NoEmptyAnchor(c, ss[..|ss| - 1], k);
    }
  }
}
