/** Engine.Load of internal/monitor/engine.go: warming an engine from stored
    baselines and samples. */
module Loading {
  import opened Engine

  // ---- sort.SliceStable by time ----

  ghost predicate TimeOrdered(ss: seq<Sample>) {
    forall i, j :: 0 <= i < j < |ss| ==> ss[i].time <= ss[j].time
  }

  function InsertByTime(s: Sample, ss: seq<Sample>): (r: seq<Sample>)
    ensures |r| == |ss| + 1
    ensures r[0] == if ss == [] || s.time <= ss[0].time then s else ss[0]
  {
    if ss == [] || s.time <= ss[0].time then [s] + ss else [ss[0]] + InsertByTime(s, ss[1..])
  }

  /** Ascending by time; samples of the same instant keep their order. */
  function SortByTime(ss: seq<Sample>): (r: seq<Sample>)
    ensures |r| == |ss|
  {
    if ss == [] then [] else InsertByTime(ss[0], SortByTime(ss[1..]))
  }

  lemma {:induction false} SortKeepsMembers(ss: seq<Sample>, x: Sample)
    ensures x in SortByTime(ss) <==> x in ss
  {
    if ss != [] {
      SortKeepsMembers(ss[1..], x);
      InsertKeepsMembers(ss[0], SortByTime(ss[1..]), x);
    }
  }

  lemma {:induction false} InsertKeepsMembers(s: Sample, ss: seq<Sample>, x: Sample)
    ensures x in InsertByTime(s, ss) <==> x == s || x in ss
  {
    if ss != [] && s.time > ss[0].time {
      InsertKeepsMembers(s, ss[1..], x);
    }
  }

  // ---- the three passes ----

  function LoadSamples(keys: Keys, ss: seq<Sample>): Keys {
    if ss == [] then keys
    else
      var rest, s := LoadSamples(keys, ss[..|ss| - 1]), ss[|ss| - 1];
      if !Accepted(s) then rest
      else
        var ks := KeyOf(rest, s.key);
        var a := AnchorOf(ks, s);
        rest[s.key := ks.(anchors := ks.anchors[s.anchor := a.(samples := a.samples + [s])])]
  }

  const BLANK := AnchorState([], Machine(Unset, 0, 0, 0, NoReason), NO_BASELINE)

  predicate Named(b: Baseline) { b.key != "" && b.anchor != "" }

  function LoadBaseline(keys: Keys, b: Baseline): Keys {
    if !Named(b) then keys
    else
      var ks := KeyOf(keys, b.key);
      var a := if b.anchor in ks.anchors then ks.anchors[b.anchor] else BLANK;
      var m := a.m.(state := if b.state != Unset then b.state else a.m.state, since := b.since);
      keys[b.key := ks.(anchors := ks.anchors[b.anchor := a.(m := m)])]
  }

  function LoadBaselines(keys: Keys, bs: seq<Baseline>): Keys {
    if bs == [] then keys else LoadBaseline(LoadBaselines(keys, bs[..|bs| - 1]), bs[|bs| - 1])
  }

  function Touched(bs: seq<Baseline>, ss: seq<Sample>): set<string> {
    (set s | s in ss && Accepted(s) :: s.key) + (set b | b in bs && Named(b) :: b.key)
  }

  /** When an anchor was last heard of. */
  function HeardAt(w: seq<Sample>, since: int): int {
    if w == [] then since else w[|w| - 1].time
  }

  /** A stored verdict is kept, except that too few samples mean learning and
      enough samples mean no longer learning. */
  function SettledState(c: Config, st: State, n: nat): State {
    if n < c.minSamples then Learning
    else if st == Unset || st == Idle || st == Learning then OK
    else st
  }

  function FinishAnchor(c: Config, key: string, name: string, a: AnchorState): AnchorState
    requires Effective(c)
  {
    var w := Last(a.samples, c.window);
    var at := HeardAt(w, a.m.since);
    var m := a.m.(state := SettledState(c, a.m.state, |w|), since := if a.m.since == 0 then at else a.m.since);
    AnchorState(w, m, Snapshot(c, key, name, w, m, at))
  }

  function FinishAnchors(c: Config, key: string, anchors: map<string, AnchorState>): map<string, AnchorState>
    requires Effective(c)
  {
    map name | name in anchors :: FinishAnchor(c, key, name, anchors[name])
  }

  /** The latest instant any anchor of the key was heard of, 0 when none is later. */
  ghost predicate IsLatest(c: Config, anchors: map<string, AnchorState>, seen: set<string>, latest: int)
    requires Effective(c) && seen <= anchors.Keys
  {
    && latest >= 0
    && (forall n :: n in seen ==> HeardAt(Last(anchors[n].samples, c.window), anchors[n].m.since) <= latest)
    && (latest == 0 || exists n :: n in seen && HeardAt(Last(anchors[n].samples, c.window), anchors[n].m.since) == latest)
  }

  /** ks after the last pass: every anchor finished, the state derived again, and a
      missing since stamp replaced by the latest instant. */
  ghost predicate FinishedKey(c: Config, key: string, ks: KeyState, r: KeyState)
    requires Effective(c)
  {
    && r.anchors == FinishAnchors(c, key, ks.anchors)
    && r.state == Derived(r.anchors)
    && (ks.since != 0 ==> r.since == ks.since)
    && (ks.since == 0 ==> IsLatest(c, ks.anchors, ks.anchors.Keys, r.since))
  }

  /** What Load makes of an engine: exactly the touched keys are finished. */
  ghost predicate Loaded(c: Config, before: Keys, bs: seq<Baseline>, ss: seq<Sample>, after: Keys)
    requires Effective(c)
  {
    var mid := LoadBaselines(LoadSamples(before, SortByTime(ss)), bs);
    && after.Keys == mid.Keys
    && (forall k :: k in mid && k in Touched(bs, ss) ==> FinishedKey(c, k, mid[k], after[k]))
    && (forall k :: k in mid && k !in Touched(bs, ss) ==> after[k] == mid[k])
  }
}
