/** Whole-run properties of the baseline engine: what an anchor's state means in
    terms of its own history, and how the states of a key follow one another. */
module EngineRuns {
  import opened Engine
  import Hysteresis

  // ---- runs and projections ----

  /** The engine after the samples, and every transition reported on the way. */
  ghost function Run(c: Config, ss: seq<Sample>): (Keys, seq<Transition>)
    requires Effective(c)
  {
    if ss == [] then (map[], [])
    else
      var (keys, trs) := Run(c, ss[..|ss| - 1]);
      var (keys', new') := AddStep(c, keys, ss[|ss| - 1]);
      (keys', trs + new')
  }

  /** The samples of one anchor on one network key, in order. */
  function Sub(ss: seq<Sample>, k: string, a: string): seq<Sample> {
    if ss == [] then []
    else
      var rest := Sub(ss[..|ss| - 1], k, a);
      if ss[|ss| - 1].key == k && ss[|ss| - 1].anchor == a then rest + [ss[|ss| - 1]] else rest
  }

  lemma {:induction false} SubConcat(xs: seq<Sample>, ys: seq<Sample>, k: string, a: string)
    ensures Sub(xs + ys, k, a) == Sub(xs, k, a) + Sub(ys, k, a)
    decreases |ys|
  {
    if ys == [] {
      assert xs + ys == xs;
    } else {
      assert (xs + ys)[..|xs + ys| - 1] == xs + ys[..|ys| - 1];
      SubConcat(xs, ys[..|ys| - 1], k, a);
    }
  }

  /** The samples the engine accepts for one network key, in order. */
  function SubKey(ss: seq<Sample>, k: string): seq<Sample> {
    if ss == [] then []
    else
      var rest := SubKey(ss[..|ss| - 1], k);
      if ss[|ss| - 1].key == k && Accepted(ss[|ss| - 1]) then rest + [ss[|ss| - 1]] else rest
  }

  function Of(trs: seq<Transition>, k: string): seq<Transition> {
    if trs == [] then []
    else
      var rest := Of(trs[..|trs| - 1], k);
      if trs[|trs| - 1].key == k then rest + [trs[|trs| - 1]] else rest
  }

  /** An anchor fed its own samples and nothing else. */
  function Replay(c: Config, ss: seq<Sample>): AnchorState
    requires Effective(c) && ss != []
    decreases |ss|
  {
    var s := ss[|ss| - 1];
    AnchorStep(c, if |ss| == 1 then Fresh(s.time) else Replay(c, ss[..|ss| - 1]), s)
  }

  lemma {:induction false} OfAppend(trs: seq<Transition>, more: seq<Transition>, k: string)
    requires |more| <= 1
    ensures Of(trs + more, k) == Of(trs, k) + Of(more, k)
  {
    if more != [] {
      assert (trs + more)[..|trs|] == trs;
      assert more[..0] == [];
    } else {
      assert trs + more == trs;
    }
  }

  // ---- no anchor and no key influences another ----

  /** After any interleaving, an anchor is exactly what its own samples make it. */
  lemma {:induction false} AnchorIsItsOwnReplay(c: Config, ss: seq<Sample>, k: string, a: string)
    requires Effective(c) && k != "" && a != ""
    ensures var keys, own := Run(c, ss).0, Sub(ss, k, a);
      && ((k in keys && a in keys[k].anchors) <==> own != [])
      && (own != [] ==> keys[k].anchors[a] == Replay(c, own))
  {
    hide Judge, Snapshot;
    if ss != [] {
      var s := ss[|ss| - 1];
      AnchorIsItsOwnReplay(c, ss[..|ss| - 1], k, a);
      if s.key == k && s.anchor == a {
        var own := Sub(ss, k, a);
        assert own[..|own| - 1] == Sub(ss[..|ss| - 1], k, a);
      }
    }
  }

  /** The window is the last Window samples of the anchor's own history. */
  lemma {:induction false} WindowIsSuffix(c: Config, ss: seq<Sample>)
    requires Effective(c) && ss != []
    ensures Replay(c, ss).samples == Last(ss, c.window)
    decreases |ss|
  {
    hide Judge, Snapshot;
    var before, s := ss[..|ss| - 1], ss[|ss| - 1];
    assert ss == before + [s];
    if |ss| > 1 {
      WindowIsSuffix(c, before);
      LastSlides(before, s, c.window);
    } else {
      assert before == [];
    }
  }

  lemma {:induction false} LastSlides<T>(ts: seq<T>, t: T, n: nat)
    requires n > 0
    ensures Last(Last(ts, n) + [t], n) == Last(ts + [t], n)
  {
  }

  lemma {:induction false} LastOfLast<T>(t: seq<T>, u: seq<T>, n: nat, m: nat)
    requires m <= n
    ensures Last(Last(t, n) + u, m) == Last(t + u, m)
    ensures Last(Last(t, n), m) == Last(t, m)
  {
    LastShorter(t, n, m);
    if |t| > n {
      var x := t[..|t| - n];
      assert t + u == x + (Last(t, n) + u);
      LastDrops(x, Last(t, n) + u, m);
    }
  }

  /** What lies before the last m elements does not matter. */
  lemma {:induction false} LastDrops<T>(x: seq<T>, y: seq<T>, m: nat)
    requires m <= |y|
    ensures Last(x + y, m) == Last(y, m)
  {
    assert (x + y)[|x + y| - m..] == y[|y| - m..];
  }

  lemma {:induction false} LastShorter<T>(t: seq<T>, n: nat, m: nat)
    requires m <= n
    ensures Last(Last(t, n), m) == Last(t, m)
  {
    if |t| > n {
      assert t == t[..|t| - n] + Last(t, n);
      LastDrops(t[..|t| - n], Last(t, n), m);
    }
  }

  /** Other keys neither change a key's state nor add to its transitions. */
  lemma {:induction false} KeyIsItsOwnRun(c: Config, ss: seq<Sample>, k: string)
    requires Effective(c) && k != ""
    ensures var (keys, trs) := Run(c, ss); var (keys', trs') := Run(c, SubKey(ss, k));
      && (k in keys <==> k in keys')
      && (k in keys ==> keys[k] == keys'[k])
      && Of(trs, k) == trs'
  {
    hide Judge, Snapshot;
    if ss != [] {
      var s := ss[|ss| - 1];
      var before := ss[..|ss| - 1];
      KeyIsItsOwnRun(c, before, k);
      var (keys, trs) := Run(c, before);
      var new' := AddStep(c, keys, s).1;
      OfAppend(trs, new', k);
      StepReportsItsKey(c, keys, s, k);
      if s.key == k && Accepted(s) {
        assert SubKey(ss, k)[..|SubKey(ss, k)| - 1] == SubKey(before, k);
      }
    }
  }

  lemma {:induction false} StepReportsItsKey(c: Config, keys: Keys, s: Sample, k: string)
    requires Effective(c)
    ensures var trs := AddStep(c, keys, s).1;
      |trs| <= 1 && Of(trs, k) == if s.key == k then trs else []
  {
    var trs := AddStep(c, keys, s).1;
    if trs != [] {
      assert trs[..0] == [];
    }
  }

  // ---- what an anchor's state means ----

  /** The window judged at the n-th sample. */
  function WindowAt(c: Config, ss: seq<Sample>, n: nat): seq<Sample>
    requires Effective(c) && n <= |ss|
  {
    Last(ss[..n], c.window)
  }

  /** The verdict on every window of the history, one per sample. */
  function Verdicts(c: Config, ss: seq<Sample>): (js: seq<Hysteresis.Judged>)
    requires Effective(c)
    ensures |js| == |ss|
  {
    if ss == [] then []
    else Verdicts(c, ss[..|ss| - 1]) + [Hysteresis.Judged(Judge(c, Last(ss, c.window)), ss[|ss| - 1].time)]
  }

  lemma {:induction false} VerdictsArePerWindow(c: Config, ss: seq<Sample>, i: nat)
    requires Effective(c) && i < |ss|
    ensures Verdicts(c, ss)[i] == Hysteresis.Judged(Judge(c, WindowAt(c, ss, i + 1)), ss[i].time)
    decreases |ss|
  {
    hide Judge, Snapshot;
    if i < |ss| - 1 {
      VerdictsArePerWindow(c, ss[..|ss| - 1], i);
      assert ss[..|ss| - 1][..i + 1] == ss[..i + 1];
    } else {
      assert ss[..|ss|] == ss;
    }
  }

  lemma {:induction false} VerdictsPrefix(c: Config, ss: seq<Sample>)
    requires Effective(c) && ss != []
    ensures Verdicts(c, ss)[..|ss| - 1] == Verdicts(c, ss[..|ss| - 1])
  {
  }

  lemma {:induction false} VerdictsOfPrefix(c: Config, ss: seq<Sample>, n: nat)
    requires Effective(c) && n <= |ss|
    ensures Verdicts(c, ss)[..n] == Verdicts(c, ss[..n])
    decreases |ss|
  {
    hide Verdicts;
    if n == |ss| {
      assert ss[..n] == ss && Verdicts(c, ss)[..n] == Verdicts(c, ss);
    } else {
      var before := ss[..|ss| - 1];
      VerdictsPrefix(c, ss);
      VerdictsOfPrefix(c, before, n);
      assert before[..n] == ss[..n];
      assert Verdicts(c, ss)[..|ss| - 1][..n] == Verdicts(c, ss)[..n];
    }
  }

  /** An anchor's machine is the hysteresis machine driven by its verdicts. */
  lemma {:induction false} ReplayDrives(c: Config, ss: seq<Sample>)
    requires Effective(c) && ss != []
    ensures Replay(c, ss).m == Hysteresis.Drive(c, Verdicts(c, ss))
    decreases |ss|
  {
    hide Judge, Snapshot;
    WindowIsSuffix(c, ss);
    if |ss| > 1 {
      ReplayDrives(c, ss[..|ss| - 1]);
      VerdictsPrefix(c, ss);
    }
  }

  /** Nothing is judged before MinSamples samples, and everything after. */
  lemma {:induction false} LearningLasts(c: Config, ss: seq<Sample>)
    requires Effective(c) && ss != []
    ensures Replay(c, ss).m.state == Learning <==> |ss| < c.minSamples
    ensures Replay(c, ss).m.state in {Learning, OK, Degraded}
  {
    hide Judge, Snapshot;
    ReplayDrives(c, ss);
    Hysteresis.DriveMeaning(c, Verdicts(c, ss));
  }

  predicate IsDegraded(c: Config, ss: seq<Sample>)
    requires Effective(c)
  {
    ss != [] && Replay(c, ss).m.state == Degraded
  }

  /** An anchor enters degraded only when the last DegradeStreak windows of its own
      history were all bad, and never before MinSamples-1+DegradeStreak samples. */
  lemma {:induction false} EntryNeedsBadWindows(c: Config, ss: seq<Sample>, n: nat)
    requires Effective(c) && IsDegraded(c, ss) && !IsDegraded(c, ss[..|ss| - 1])
    requires |ss| - c.degradeStreak < n <= |ss|
    ensures |ss| >= c.minSamples - 1 + c.degradeStreak
    ensures Judge(c, WindowAt(c, ss, n)).Bad()
  {
    hide Judge, Snapshot, Replay, Verdicts, IsDegraded, Hysteresis.In;
    var js := Verdicts(c, ss);
    EntryDrives(c, ss);
    Hysteresis.EntryStreak(c, js);
    VerdictsArePerWindow(c, ss, n - 1);
    assert js[n - 1].v.Bad();
  }

  /** What becomes of an anchor and what its verdicts drive agree at an entry. */
  lemma {:induction false} EntryDrives(c: Config, ss: seq<Sample>)
    requires Effective(c) && IsDegraded(c, ss) && !IsDegraded(c, ss[..|ss| - 1])
    ensures ss != []
    ensures var js := Verdicts(c, ss);
      Hysteresis.In(c, js, Degraded) && !Hysteresis.In(c, js[..|js| - 1], Degraded)
  {
    hide Judge, Snapshot;
    VerdictsPrefix(c, ss);
    ReplayDrives(c, ss);
    if |ss| > 1 {
      ReplayDrives(c, ss[..|ss| - 1]);
    }
  }

  /** An anchor leaves degraded only when the last RecoverStreak windows were all
      good, and then it is ok. */
  lemma {:induction false} RecoveryNeedsGoodWindows(c: Config, ss: seq<Sample>, n: nat)
    requires Effective(c) && ss != [] && !IsDegraded(c, ss) && IsDegraded(c, ss[..|ss| - 1])
    requires |ss| - c.recoverStreak < n <= |ss|
    ensures Replay(c, ss).m.state == OK
    ensures n > 0 && Judge(c, WindowAt(c, ss, n)).good
  {
    hide Judge, Snapshot;
    var js := Verdicts(c, ss);
    VerdictsPrefix(c, ss);
    ReplayDrives(c, ss);
    ReplayDrives(c, ss[..|ss| - 1]);
    Hysteresis.RecoveryStreak(c, js);
    VerdictsArePerWindow(c, ss, n - 1);
    assert js[n - 1].v.good;
  }

  /** How many times an anchor with this history entered degraded. */
  function Entries(c: Config, ss: seq<Sample>): nat
    requires Effective(c)
  {
    if ss == [] then 0
    else
      var before := ss[..|ss| - 1];
      Entries(c, before) + if IsDegraded(c, ss) && !IsDegraded(c, before) then 1 else 0
  }

  lemma {:induction false} DegradedIsDriven(c: Config, ss: seq<Sample>)
    requires Effective(c)
    ensures IsDegraded(c, ss) <==> Hysteresis.In(c, Verdicts(c, ss), Degraded)
  {
    hide Judge, Snapshot, Verdicts;
    if ss != [] {
      ReplayDrives(c, ss);
    }
  }

  lemma {:induction false} EntriesAreDriven(c: Config, ss: seq<Sample>)
    requires Effective(c)
    ensures Entries(c, ss) == Hysteresis.Entries(c, Verdicts(c, ss))
  {
    hide Replay, Hysteresis.Drive, Verdicts, IsDegraded, Hysteresis.In;
    if ss != [] {
      var before := ss[..|ss| - 1];
      EntriesAreDriven(c, before);
      VerdictsPrefix(c, ss);
      DegradedIsDriven(c, ss);
      DegradedIsDriven(c, before);
    }
  }

  /** In any interleaved run, m entries of one anchor into degraded need at least
      MinSamples-1 + D + (m-1)(D+R) samples of that anchor. */
  lemma {:induction false} DegradingIsSlow(c: Config, ss: seq<Sample>, k: string, a: string)
    requires Effective(c) && Entries(c, Sub(ss, k, a)) > 0
    ensures |Sub(ss, k, a)| >= c.minSamples - 1 + c.degradeStreak
              + (Entries(c, Sub(ss, k, a)) - 1) * (c.degradeStreak + c.recoverStreak)
  {
    var own := Sub(ss, k, a);
    EntriesAreDriven(c, own);
    Hysteresis.EntriesAreSlow(c, Verdicts(c, own));
  }
}
