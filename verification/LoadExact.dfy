/** What Load of internal/monitor/engine.go leaves of one anchor, for any engine, any
    baselines and any samples in any order. */
module LoadExact {
  import opened Engine
  import opened EngineRuns
  import opened Loading
  import opened WarmStart
  import WarmRuns

  /** The baselines given for one anchor of a key, in order. */
  function Mine(bs: seq<Baseline>, k: string, a: string): seq<Baseline> {
    if bs == [] then []
    else
      var rest, b := Mine(bs[..|bs| - 1], k, a), bs[|bs| - 1];
      if b.key == k && b.anchor == a then rest + [b] else rest
  }

  /** The last state given that is not blank; was when there is none. */
  function LastState(bs: seq<Baseline>, was: State): State {
    if bs == [] then was
    else if bs[|bs| - 1].state != Unset then bs[|bs| - 1].state
    else LastState(bs[..|bs| - 1], was)
  }

  /** What is known of an anchor of a key. */
  predicate Knows(keys: Keys, k: string, a: string) { k in keys && a in keys[k].anchors }

  // ---- the samples ----

  lemma {:induction false} SamplesOfAnchor(keys: Keys, ss: seq<Sample>, k: string, a: string)
    requires k != "" && a != ""
    ensures var r, own := LoadSamples(keys, ss), Sub(ss, k, a);
      && (Knows(r, k, a) <==> Knows(keys, k, a) || own != [])
      && (Knows(r, k, a) ==>
           r[k].anchors[a] ==
           if own == [] then keys[k].anchors[a]
           else if Knows(keys, k, a) then keys[k].anchors[a].(samples := keys[k].anchors[a].samples + own)
           else AnchorState(own, Machine(Learning, own[0].time, 0, 0, NoReason), NO_BASELINE))
  {
    if ss != [] {
      var before, s := ss[..|ss| - 1], ss[|ss| - 1];
      SamplesOfAnchor(keys, before, k, a);
      hide LoadSamples;
      OneSample(LoadSamples(keys, before), s, k, a);
      LoadSamplesStep(keys, ss);
    }
  }

  /** What one sample does to the engine. */
  function WithSample(keys: Keys, s: Sample): Keys {
    if !Accepted(s) then keys
    else
      var ks := KeyOf(keys, s.key);
      var a := AnchorOf(ks, s);
      keys[s.key := ks.(anchors := ks.anchors[s.anchor := a.(samples := a.samples + [s])])]
  }

  lemma {:induction false} LoadSamplesStep(keys: Keys, ss: seq<Sample>)
    requires ss != []
    ensures LoadSamples(keys, ss) == WithSample(LoadSamples(keys, ss[..|ss| - 1]), ss[|ss| - 1])
  {
  }

  lemma {:induction false} OneSample(keys: Keys, s: Sample, k: string, a: string)
    requires k != "" && a != ""
    ensures var r := WithSample(keys, s);
      if Hit(s, k, a) then
        && Knows(r, k, a)
        && r[k].anchors[a] ==
             if Knows(keys, k, a) then keys[k].anchors[a].(samples := keys[k].anchors[a].samples + [s])
             else AnchorState([s], Machine(Learning, s.time, 0, 0, NoReason), NO_BASELINE)
      else (Knows(r, k, a) <==> Knows(keys, k, a)) && (Knows(keys, k, a) ==> r[k].anchors[a] == keys[k].anchors[a])
  {
  }

  // ---- the baselines ----

  /** An anchor with what is given for it: the last state that is not blank, and the last
      instant. */
  function Given(s: AnchorState, mine: seq<Baseline>): AnchorState {
    if mine == [] then s
    else s.(m := s.m.(state := LastState(mine, s.m.state), since := mine[|mine| - 1].since))
  }

  lemma {:induction false} BaselinesOfAnchor(keys: Keys, bs: seq<Baseline>, k: string, a: string)
    requires k != "" && a != ""
    ensures var r, mine := LoadBaselines(keys, bs), Mine(bs, k, a);
      && (Knows(r, k, a) <==> Knows(keys, k, a) || mine != [])
      && (Knows(r, k, a) ==> r[k].anchors[a] == Given(if Knows(keys, k, a) then keys[k].anchors[a] else BLANK, mine))
  {
    if bs != [] {
      var before, b := bs[..|bs| - 1], bs[|bs| - 1];
      BaselinesOfAnchor(keys, before, k, a);
      OneBaseline(LoadBaselines(keys, before), b, k, a);
      if b.key == k && b.anchor == a {
        GivenOne(if Knows(keys, k, a) then keys[k].anchors[a] else BLANK, Mine(before, k, a), b);
      }
      hide LoadBaseline, Given;
    }
  }

  lemma {:induction false} GivenOne(s: AnchorState, mine: seq<Baseline>, b: Baseline)
    ensures Given(s, mine + [b]) == Given(Given(s, mine), [b])
  {
    assert (mine + [b])[..|mine|] == mine;
    assert mine == [] ==> mine + [b] == [b];
    LastOfOne(b, Given(s, mine).m.state);
  }

  lemma {:induction false} LastOfOne(b: Baseline, was: State)
    ensures LastState([b], was) == if b.state != Unset then b.state else was
  {
    assert [b][..0] == [];
  }

  lemma {:induction false} OneBaseline(keys: Keys, b: Baseline, k: string, a: string)
    requires k != "" && a != ""
    ensures var r := LoadBaseline(keys, b);
      if b.key == k && b.anchor == a then
        Knows(r, k, a) && r[k].anchors[a] == Given(if Knows(keys, k, a) then keys[k].anchors[a] else BLANK, [b])
      else (Knows(r, k, a) <==> Knows(keys, k, a)) && (Knows(keys, k, a) ==> r[k].anchors[a] == keys[k].anchors[a])
  {
    LastOfOne(b, (if Knows(keys, k, a) then keys[k].anchors[a] else BLANK).m.state);
  }

  // ---- the whole of Load ----

  /** Something is given for the key. */
  predicate Told(bs: seq<Baseline>, ss: seq<Sample>, k: string) {
    || (exists i :: 0 <= i < |ss| && ss[i].key == k && ss[i].anchor != "")
    || (exists i :: 0 <= i < |bs| && bs[i].key == k && bs[i].anchor != "")
  }

  lemma {:induction false} ToldIsTouched(bs: seq<Baseline>, ss: seq<Sample>, k: string)
    requires k != ""
    ensures Told(bs, ss, k) <==> k in Touched(bs, ss)
  {
    if k in Touched(bs, ss) {
      if s :| s in ss && Accepted(s) && s.key == k {
        var i :| 0 <= i < |ss| && ss[i] == s;
      } else {
        var b :| b in bs && Named(b) && b.key == k;
        var i :| 0 <= i < |bs| && bs[i] == b;
      }
    }
  }

  lemma {:induction false} MineIsTold(bs: seq<Baseline>, ss: seq<Sample>, k: string, a: string)
    requires k != "" && a != ""
    ensures Mine(bs, k, a) != [] ==> Told(bs, ss, k)
  {
    if bs != [] {
      var n := |bs| - 1;
      MineIsTold(bs[..n], ss, k, a);
      hide Mine;
      if Told(bs[..n], ss, k) {
        assert forall i :: 0 <= i < n ==> bs[..n][i] == bs[i];
      }
    }
  }

  lemma {:induction false} SubIsTold(bs: seq<Baseline>, ss: seq<Sample>, k: string, a: string)
    requires k != "" && a != "" && Sub(ss, k, a) != []
    ensures Told(bs, ss, k)
  {
    SubMembers(ss, k, a, Sub(ss, k, a)[0]);
  }

  /** The anchor before its windows are cut: what the engine had of it, and after that what
      is given of it, by time. */
  function Collected(keys: Keys, ss: seq<Sample>, k: string, a: string): seq<Sample> {
    (if Knows(keys, k, a) then keys[k].anchors[a].samples else []) + SortByTime(Sub(ss, k, a))
  }

  /** The state and the instant it comes with: the last that a baseline gives, or what the
      engine had, or learning since the first sample. */
  function StateBefore(keys: Keys, bs: seq<Baseline>, ss: seq<Sample>, k: string, a: string): State {
    LastState(Mine(bs, k, a),
      if Knows(keys, k, a) then keys[k].anchors[a].m.state else if Sub(ss, k, a) != [] then Learning else Unset)
  }

  function SinceBefore(keys: Keys, bs: seq<Baseline>, ss: seq<Sample>, k: string, a: string): int {
    var mine, own := Mine(bs, k, a), SortByTime(Sub(ss, k, a));
    if mine != [] then mine[|mine| - 1].since
    else if Knows(keys, k, a) then keys[k].anchors[a].m.since
    else if own != [] then own[0].time
    else 0
  }

  lemma {:induction false} TwoPassesOf(keys: Keys, bs: seq<Baseline>, ss: seq<Sample>, k: string, a: string)
    requires k != "" && a != ""
    ensures var mid := LoadBaselines(LoadSamples(keys, SortByTime(ss)), bs);
      && (Knows(mid, k, a) <==> Knows(keys, k, a) || Sub(ss, k, a) != [] || Mine(bs, k, a) != [])
      && (Knows(mid, k, a) ==> var s := mid[k].anchors[a];
           && s.samples == Collected(keys, ss, k, a)
           && s.m.state == StateBefore(keys, bs, ss, k, a) && s.m.since == SinceBefore(keys, bs, ss, k, a)
           && (!Knows(keys, k, a) ==> s.m.badStreak == 0 && s.m.goodStreak == 0)
           && (Knows(keys, k, a) ==> s.m.badStreak == keys[k].anchors[a].m.badStreak && s.m.goodStreak == keys[k].anchors[a].m.goodStreak))
  {
    hide LoadSamples, LoadBaselines, Sub, Mine, SortByTime, LastState;
    SubOfSort(ss, k, a);
    SamplesOfAnchor(keys, SortByTime(ss), k, a);
    BaselinesOfAnchor(LoadSamples(keys, SortByTime(ss)), bs, k, a);
    assert Knows(keys, k, a) ==> keys[k].anchors[a].samples + [] == keys[k].anchors[a].samples;
    assert [] + SortByTime(Sub(ss, k, a)) == SortByTime(Sub(ss, k, a));
    NoneGiven(if Knows(keys, k, a) then keys[k].anchors[a].m.state else if Sub(ss, k, a) != [] then Learning else Unset);
  }

  lemma {:induction false} NoneGiven(was: State)
    ensures LastState([], was) == was
  {
  }

  /** What the last pass makes of an anchor, by cases on how many samples are left. */
  lemma {:induction false} FinishedAnchor(c: Config, k: string, a: string, s: AnchorState)
    requires Effective(c)
    ensures var r := FinishAnchor(c, k, a, s);
      && r.samples == (if |s.samples| > c.window then s.samples[|s.samples| - c.window..] else s.samples)
      && r.m.badStreak == s.m.badStreak && r.m.goodStreak == s.m.goodStreak
      && (|r.samples| < c.minSamples ==> r.m.state == Learning)
      && (|r.samples| >= c.minSamples && s.m.state != Degraded ==> r.m.state == OK)
      && (|r.samples| >= c.minSamples && s.m.state == Degraded ==> r.m.state == Degraded)
      && r.m.since == (if s.m.since != 0 then s.m.since else if r.samples != [] then r.samples[|r.samples| - 1].time else 0)
  {
    hide Snapshot;
  }

  /** Load, exactly. An anchor of a key that is told of is known afterwards when it was
      known or is told of itself; its window is the newest part of what it had and what is
      given, by time; it is learning with too few samples, and with enough it is degraded
      if that is the last state given (or what it had, when none is), and ok otherwise;
      it is so since the instant the last baseline gives, or what it had, or its first
      sample, and when that instant is missing since the last sample; its streaks stay. */
  lemma {:induction false} LoadExactly(c: Config, keys: Keys, bs: seq<Baseline>, ss: seq<Sample>, after: Keys, k: string, a: string)
    requires Effective(c) && Loaded(c, keys, bs, ss, after) && k != "" && a != ""
    ensures Knows(after, k, a) <==> Knows(keys, k, a) || Sub(ss, k, a) != [] || Mine(bs, k, a) != []
    ensures Knows(after, k, a) && Told(bs, ss, k) ==> Becomes(c, keys, bs, ss, k, a, after[k].anchors[a])
    ensures Knows(after, k, a) && !Told(bs, ss, k) ==> Knows(keys, k, a) && after[k].anchors[a] == keys[k].anchors[a]
  {
    hide LoadSamples, LoadBaselines, SortByTime, Sub, Mine, Told, Touched, LastState, FinishAnchor, IsLatest;
    var mid := LoadBaselines(LoadSamples(keys, SortByTime(ss)), bs);
    TwoPassesOf(keys, bs, ss, k, a);
    ToldIsTouched(bs, ss, k);
    WarmRuns.LoadedKey(c, keys, bs, ss, after, k);
    if Knows(mid, k, a) {
      if Told(bs, ss, k) {
        FinishedAnchor(c, k, a, mid[k].anchors[a]);
        BecomesFinished(c, keys, bs, ss, k, a, mid[k].anchors[a]);
      } else {
        Untold(keys, bs, ss, k, a);
      }
    }
  }

  /** What becomes of the anchor. */
  ghost predicate Becomes(c: Config, keys: Keys, bs: seq<Baseline>, ss: seq<Sample>, k: string, a: string, r: AnchorState)
    requires Effective(c)
  {
    var all, st, since := Collected(keys, ss, k, a), StateBefore(keys, bs, ss, k, a), SinceBefore(keys, bs, ss, k, a);
    && r.samples == (if |all| > c.window then all[|all| - c.window..] else all)
    && (|r.samples| < c.minSamples ==> r.m.state == Learning)
    && (|r.samples| >= c.minSamples && st != Degraded ==> r.m.state == OK)
    && (|r.samples| >= c.minSamples && st == Degraded ==> r.m.state == Degraded)
    && r.m.since == (if since != 0 then since else if r.samples != [] then r.samples[|r.samples| - 1].time else 0)
    && r.m.badStreak == (if Knows(keys, k, a) then keys[k].anchors[a].m.badStreak else 0)
    && r.m.goodStreak == (if Knows(keys, k, a) then keys[k].anchors[a].m.goodStreak else 0)
  }

  lemma {:induction false} BecomesFinished(c: Config, keys: Keys, bs: seq<Baseline>, ss: seq<Sample>, k: string, a: string, s: AnchorState)
    requires Effective(c)
    requires s.samples == Collected(keys, ss, k, a)
    requires s.m.state == StateBefore(keys, bs, ss, k, a) && s.m.since == SinceBefore(keys, bs, ss, k, a)
    requires !Knows(keys, k, a) ==> s.m.badStreak == 0 && s.m.goodStreak == 0
    requires Knows(keys, k, a) ==> s.m.badStreak == keys[k].anchors[a].m.badStreak && s.m.goodStreak == keys[k].anchors[a].m.goodStreak
    ensures Becomes(c, keys, bs, ss, k, a, FinishAnchor(c, k, a, s))
  {
    hide Collected, StateBefore, SinceBefore, FinishAnchor;
    FinishedAnchor(c, k, a, s);
  }

  /** A key that is not told of is left alone. */
  lemma {:induction false} Untold(keys: Keys, bs: seq<Baseline>, ss: seq<Sample>, k: string, a: string)
    requires k != "" && a != "" && !Told(bs, ss, k)
    ensures var mid := LoadBaselines(LoadSamples(keys, SortByTime(ss)), bs);
      (Knows(mid, k, a) <==> Knows(keys, k, a)) && (Knows(mid, k, a) ==> mid[k].anchors[a] == keys[k].anchors[a])
  {
    hide LoadSamples, LoadBaselines, SortByTime, Sub, Mine, Told;
    SubOfSort(ss, k, a);
    if Sub(ss, k, a) != [] {
      SubIsTold(bs, ss, k, a);
    }
    MineIsTold(bs, ss, k, a);
    SamplesOfAnchor(keys, SortByTime(ss), k, a);
    BaselinesOfAnchor(LoadSamples(keys, SortByTime(ss)), bs, k, a);
    SortNone();
  }

  lemma {:induction false} SortNone()
    ensures SortByTime([]) == []
  {
  }
}
