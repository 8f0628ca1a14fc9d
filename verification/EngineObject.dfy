/** The engine as the object the monitor drives: its methods update the key map in
    place, each proved against the specification functions of Engine and Loading. */
module EngineObject {
  import opened Engine
  import opened Loading

  class BaselineEngine {
    const cfg: Config
    var keys: Keys

    ghost predicate Valid() { Effective(cfg) }

    constructor (c: Config)
      ensures Valid() && cfg == WithDefaults(c) && keys == map[]
    {
      cfg := WithDefaults(c);
      keys := map[];
    }

    /** Add applies one sample and returns the key-level transitions it caused. */
    method Add(s: Sample) returns (trs: seq<Transition>)
      requires Valid()
      modifies this`keys
      ensures Valid()
      ensures (keys, trs) == AddStep(cfg, old(keys), s)
    {
      if s.key == "" || s.anchor == "" {
        return [];
      }
      var ks := KeyOf(keys, s.key);
      var a := AnchorOf(ks, s);
      a := a.(samples := a.samples + [s]);
      var n := |a.samples| - cfg.window;
      if n > 0 {
        a := a.(samples := a.samples[n..]);
      }
      var m := Evaluate(a, s.time);
      a := a.(m := m);
      var b := TakeSnapshot(s.key, s.anchor, a, s.time);
      a := a.(baseline := b);
      ks := ks.(anchors := ks.anchors[s.anchor := a]);
      ks, trs := Settle(s.key, ks, s.anchor, a, s.time);
      keys := keys[s.key := ks];
    }

    method Evaluate(a: AnchorState, at: int) returns (r: Machine)
      requires Valid()
      ensures r == MachineStep(cfg, a.m, |a.samples| >= cfg.minSamples, Judge(cfg, a.samples), at)
    {
      hide Judge;
      r := a.m;
      if |a.samples| < cfg.minSamples {
        if r.state != Learning {
          r := r.(state := Learning, since := at);
        }
        r := r.(badStreak := 0, goodStreak := 0);
        return;
      }
      var v := JudgeWindow(a.samples);
      if r.state == Learning || r.state == Idle {
        r := r.(state := OK, since := at, badStreak := 0, goodStreak := 0);
      }
      if r.state == OK {
        if v.rttBad || v.lossBad {
          r := r.(badStreak := r.badStreak + 1);
          r := r.(lastReason := if v.lossBad && !v.rttBad then Loss else Rtt);
        } else {
          r := r.(badStreak := 0);
        }
        if r.badStreak >= cfg.degradeStreak {
          r := r.(state := Degraded, since := at, goodStreak := 0);
        }
      } else if r.state == Degraded {
        r := r.(goodStreak := if v.good then r.goodStreak + 1 else 0);
        if r.goodStreak >= cfg.recoverStreak {
          r := r.(state := OK, since := at, badStreak := 0);
        }
      }
    }

    method JudgeWindow(samples: seq<Sample>) returns (v: Verdict)
      requires Valid()
      ensures v == Judge(cfg, samples)
    {
      var baseRtt := ComputeMedianRtt(samples);
      var baseLoss := ComputeMeanLoss(samples);
      var curRtt, curLoss, _ := ComputeCurrentStats(cfg, samples);
      v := Rules(cfg, baseRtt, baseLoss, curRtt, curLoss);
    }

    method TakeSnapshot(key: string, anchor: string, a: AnchorState, at: int) returns (b: Baseline)
      requires Valid()
      ensures b == Snapshot(cfg, key, anchor, a.samples, a.m, at)
    {
      b := Baseline(key, anchor, a.m.state, |a.samples|, -1.0, 0.0, -1.0, 0.0, -1.0, a.m.since, at);
      if |a.samples| == 0 {
        return;
      }
      var baseRtt := ComputeMedianRtt(a.samples);
      var baseLoss := ComputeMeanLoss(a.samples);
      var curRtt, curLoss, curDns := ComputeCurrentStats(cfg, a.samples);
      b := b.(baseRtt := baseRtt, baseLoss := baseLoss, curRtt := curRtt, curLoss := curLoss, curDns := curDns);
    }

    method Settle(key: string, ks: KeyState, anchor: string, a: AnchorState, at: int)
      returns (r: KeyState, trs: seq<Transition>)
      ensures Derived(ks.anchors) == ks.state ==> r == ks && trs == []
      ensures Derived(ks.anchors) != ks.state ==>
        && r == KeyState(Derived(ks.anchors), at, ks.anchors)
        && trs == [Report(key, ks.state, Derived(ks.anchors), anchor, a, at)]
    {
      var next := DeriveKeyState(ks);
      if next == ks.state {
        return ks, [];
      }
      var prev := ks.state;
      r := ks.(state := next, since := at);
      var tr := Transition(key, prev, next, at, "", NoReason, NO_BASELINE);
      if next == Degraded || prev == Degraded {
        tr := tr.(anchor := anchor, baseline := a.baseline);
      }
      if next == Degraded {
        tr := tr.(reason := a.m.lastReason);
      }
      trs := [tr];
    }

    /** The map is visited in an arbitrary order; the answer does not depend on it. */
    method DeriveKeyState(ks: KeyState) returns (st: State)
      ensures st == Derived(ks.anchors)
    {
      if |ks.anchors| == 0 {
        return Idle;
      }
      var allLearning := true;
      var todo := ks.anchors.Keys;
      while todo != {}
        invariant todo <= ks.anchors.Keys
        invariant allLearning <==> forall n :: n in ks.anchors.Keys - todo ==> ks.anchors[n].m.state == Learning
        invariant forall n :: n in ks.anchors.Keys - todo ==> n == GATEWAY || ks.anchors[n].m.state != Degraded
        decreases todo
      {
        var name :| name in todo;
        todo := todo - {name};
        if ks.anchors[name].m.state != Learning {
          allLearning := false;
        }
        if name != GATEWAY && ks.anchors[name].m.state == Degraded {
          return Degraded;
        }
      }
      st := if allLearning then Learning else OK;
    }

    /** Reset forgets everything about a key. */
    method Reset(key: string)
      requires Valid()
      modifies this`keys
      ensures Valid() && keys == old(keys) - {key}
    {
      keys := keys - {key};
    }

    /** Load warms the engine from stored baselines and samples, in any order. */
    method Load(baselines: seq<Baseline>, samples: seq<Sample>)
      requires Valid()
      modifies this`keys
      ensures Valid() && Loaded(cfg, old(keys), baselines, samples, keys)
    {
      var sorted := SortByTime(samples);
      var touched := AppendSamples(sorted);
      touched := ApplyBaselines(baselines, sorted, touched);
      ghost var mid := keys;
      TouchedSorted(baselines, samples);
      var todo := touched;
      while todo != {}
        invariant todo <= touched && keys.Keys == mid.Keys
        invariant forall k :: k in mid && k in touched - todo ==> FinishedKey(cfg, k, mid[k], keys[k])
        invariant forall k :: k in mid && k !in touched - todo ==> keys[k] == mid[k]
        decreases todo
      {
        var key :| key in todo;
        todo := todo - {key};
        var ks := FinishKey(key, keys[key]);
        keys := keys[key := ks];
      }
    }

    method AppendSamples(sorted: seq<Sample>) returns (touched: set<string>)
      modifies this`keys
      ensures keys == LoadSamples(old(keys), sorted)
      ensures touched == Touched([], sorted) && touched <= keys.Keys
    {
      touched := {};
      for i := 0 to |sorted|
        invariant keys == LoadSamples(old(keys), sorted[..i])
        invariant touched == Touched([], sorted[..i])
        invariant touched <= keys.Keys
      {
        var s := sorted[i];
        assert sorted[..i + 1][..i] == sorted[..i];
        TouchedSample(sorted[..i], s);
        assert sorted[..i + 1] == sorted[..i] + [s];
        if s.key == "" || s.anchor == "" {
          continue;
        }
        var ks := KeyOf(keys, s.key);
        var a := AnchorOf(ks, s);
        a := a.(samples := a.samples + [s]);
        keys := keys[s.key := ks.(anchors := ks.anchors[s.anchor := a])];
        touched := touched + {s.key};
      }
      assert sorted[..|sorted|] == sorted;
    }

    method ApplyBaselines(baselines: seq<Baseline>, ghost sorted: seq<Sample>, seen: set<string>)
      returns (touched: set<string>)
      requires seen == Touched([], sorted) && seen <= keys.Keys
      modifies this`keys
      ensures keys == LoadBaselines(old(keys), baselines)
      ensures touched == Touched(baselines, sorted) && touched <= keys.Keys
    {
      touched := seen;
      for i := 0 to |baselines|
        invariant keys == LoadBaselines(old(keys), baselines[..i])
        invariant touched == Touched(baselines[..i], sorted)
        invariant touched <= keys.Keys
      {
        var b := baselines[i];
        assert baselines[..i + 1][..i] == baselines[..i];
        TouchedBaseline(baselines[..i], b, sorted);
        assert baselines[..i + 1] == baselines[..i] + [b];
        if b.key == "" || b.anchor == "" {
          continue;
        }
        var ks := KeyOf(keys, b.key);
        var a := if b.anchor in ks.anchors then ks.anchors[b.anchor] else BLANK;
        if b.state != Unset {
          a := a.(m := a.m.(state := b.state));
        }
        a := a.(m := a.m.(since := b.since));
        keys := keys[b.key := ks.(anchors := ks.anchors[b.anchor := a])];
        touched := touched + {b.key};
      }
      assert baselines[..|baselines|] == baselines;
    }

    /** The last pass over one key. */
    method FinishKey(key: string, ks: KeyState) returns (r: KeyState)
      requires Valid()
      ensures FinishedKey(cfg, key, ks, r)
    {
      var anchors, latest := FinishEach(key, ks.anchors);
      r := ks.(anchors := anchors);
      var st := DeriveKeyState(r);
      r := r.(state := st);
      if r.since == 0 {
        r := r.(since := latest);
      }
    }

    /** The anchors are visited in an arbitrary order. */
    method FinishEach(key: string, anchors: map<string, AnchorState>)
      returns (r: map<string, AnchorState>, latest: int)
      requires Valid()
      ensures r == FinishAnchors(cfg, key, anchors)
      ensures IsLatest(cfg, anchors, anchors.Keys, latest)
    {
      hide FinishAnchor, FinishAnchors, IsLatest;
      NoneFinished(cfg, key, anchors);
      r, latest := map[], 0;
      var todo := anchors.Keys;
      while todo != {}
        invariant todo <= anchors.Keys
        invariant r == FinishAnchors(cfg, key, anchors - todo)
        invariant IsLatest(cfg, anchors, anchors.Keys - todo, latest)
        decreases todo
      {
        var name :| name in todo;
        var a, at := FinishOne(key, name, anchors[name]);
        FinishedGrows(cfg, key, anchors, todo, name);
        LatestGrows(cfg, anchors, anchors.Keys - todo, name, latest, at);
        assert anchors.Keys - (todo - {name}) == (anchors.Keys - todo) + {name};
        r := r[name := a];
        todo := todo - {name};
        if at > latest {
          latest := at;
        }
      }
      assert anchors - {} == anchors && anchors.Keys - {} == anchors.Keys;
    }

    method FinishOne(key: string, name: string, a: AnchorState) returns (r: AnchorState, at: int)
      requires Valid()
      ensures r == FinishAnchor(cfg, key, name, a)
      ensures at == HeardAt(Last(a.samples, cfg.window), a.m.since)
    {
      hide Snapshot;
      r := a;
      var n := |r.samples| - cfg.window;
      if n > 0 {
        r := r.(samples := r.samples[n..]);
      }
      if r.m.state == Unset || r.m.state == Idle {
        r := r.(m := r.m.(state := Learning));
      }
      if |r.samples| < cfg.minSamples && r.m.state != Learning {
        r := r.(m := r.m.(state := Learning));
      }
      if |r.samples| >= cfg.minSamples && r.m.state == Learning {
        r := r.(m := r.m.(state := OK));
      }
      at := r.m.since;
      if |r.samples| > 0 {
        at := r.samples[|r.samples| - 1].time;
      }
      if r.m.since == 0 {
        r := r.(m := r.m.(since := at));
      }
      var b := TakeSnapshot(key, name, r, at);
      r := r.(baseline := b);
    }
  }

  lemma {:induction false} NoneFinished(c: Config, key: string, anchors: map<string, AnchorState>)
    requires Effective(c)
    ensures FinishAnchors(c, key, anchors - anchors.Keys) == map[]
    ensures IsLatest(c, anchors, anchors.Keys - anchors.Keys, 0)
  {
  }

  lemma {:induction false} FinishedGrows(c: Config, key: string, anchors: map<string, AnchorState>, todo: set<string>, name: string)
    requires Effective(c) && name in todo && todo <= anchors.Keys
    ensures FinishAnchors(c, key, anchors - (todo - {name}))
         == FinishAnchors(c, key, anchors - todo)[name := FinishAnchor(c, key, name, anchors[name])]
  {
  }

  lemma {:induction false} LatestGrows(c: Config, anchors: map<string, AnchorState>, seen: set<string>, name: string, latest: int, at: int)
    requires Effective(c) && seen <= anchors.Keys && name in anchors
    requires IsLatest(c, anchors, seen, latest)
    requires at == HeardAt(Last(anchors[name].samples, c.window), anchors[name].m.since)
    ensures IsLatest(c, anchors, seen + {name}, if at > latest then at else latest)
  {
    if at > latest {
      assert name in seen + {name};
    } else if latest != 0 {
      var n :| n in seen && HeardAt(Last(anchors[n].samples, c.window), anchors[n].m.since) == latest;
      assert n in seen + {name};
    }
  }

  lemma {:induction false} TouchedSample(ss: seq<Sample>, s: Sample)
    ensures Touched([], ss + [s]) == Touched([], ss) + (if Accepted(s) then {s.key} else {})
  {
    assert forall x :: x in ss + [s] <==> x in ss || x == s;
  }

  lemma {:induction false} TouchedBaseline(bs: seq<Baseline>, b: Baseline, ss: seq<Sample>)
    ensures Touched(bs + [b], ss) == Touched(bs, ss) + (if Named(b) then {b.key} else {})
  {
    assert forall x :: x in bs + [b] <==> x in bs || x == b;
  }

  lemma {:induction false} TouchedSorted(bs: seq<Baseline>, ss: seq<Sample>)
    ensures Touched(bs, SortByTime(ss)) == Touched(bs, ss)
  {
    forall x ensures x in SortByTime(ss) <==> x in ss {
      SortKeepsMembers(ss, x);
    }
  }
}
