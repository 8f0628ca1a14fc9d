/** Persist then Load rebuilds everything the source stores: for every run of
    SetNetwork, probe rounds and daemon restarts, the engine is at all times what the
    store would rebuild, but for the streaks, the last reason and the key's own since
    stamp (for that one see WarmSince). */
module WarmRuns {
  import opened Engine
  import opened EngineRuns
  import opened Loading
  import opened WarmStart

  // ---- the first pass of Load: samples ----

  /** Loading samples of a key the engine does not know collects, per anchor, that
      anchor's samples in order. */
  lemma {:induction false} LoadSamplesCollects(keys: Keys, ss: seq<Sample>, k: string)
    requires k !in keys && k != ""
    requires forall s :: s in ss ==> s.key == k && Accepted(s)
    ensures var mid := LoadSamples(keys, ss);
      && mid - {k} == keys
      && (k in mid <==> ss != [])
      && (k in mid ==> mid[k].state == Idle && mid[k].since == 0)
      && (forall a :: a in KeyOf(mid, k).anchors <==> Sub(ss, k, a) != [])
      && (forall a :: a in KeyOf(mid, k).anchors ==> KeyOf(mid, k).anchors[a].samples == Sub(ss, k, a))
  {
    if ss == [] {
      assert keys - {k} == keys;
    } else {
      var before, s := ss[..|ss| - 1], ss[|ss| - 1];
      assert forall x :: x in before ==> x in ss;
      assert s in ss;
      LoadSamplesCollects(keys, before, k);
    }
  }

  // ---- the second pass: baselines ----

  ghost predicate Draws(bs: seq<Baseline>, db: Db, k: string) {
    forall b :: b in bs ==>
      && b.key == k && b.anchor != "" && b.state != Unset
      && (k, b.anchor) in db.baselines && db.baselines[(k, b.anchor)] == b
  }

  function NamesOf(bs: seq<Baseline>): set<string> { set b | b in bs :: b.anchor }

  /** Applying baselines of one key sets state and since of the anchors they name
      and leaves every window alone. */
  lemma {:induction false} LoadBaselinesSets(db: Db, keys: Keys, bs: seq<Baseline>, k: string)
    requires k != "" && k in keys && Draws(bs, db, k) && NamesOf(bs) <= keys[k].anchors.Keys
    ensures var mid := LoadBaselines(keys, bs);
      && mid - {k} == keys - {k}
      && k in mid && mid[k].state == keys[k].state && mid[k].since == keys[k].since
      && mid[k].anchors.Keys == keys[k].anchors.Keys
      && (forall a :: a in keys[k].anchors ==> mid[k].anchors[a].samples == keys[k].anchors[a].samples)
      && (forall a :: a in NamesOf(bs) ==>
           && (k, a) in db.baselines
           && mid[k].anchors[a].m.state == db.baselines[(k, a)].state
           && mid[k].anchors[a].m.since == db.baselines[(k, a)].since)
  {
    if bs != [] {
      var before, b := bs[..|bs| - 1], bs[|bs| - 1];
      assert forall x :: x in bs <==> x in before || x == b;
      assert NamesOf(bs) == NamesOf(before) + {b.anchor};
      LoadBaselinesSets(db, keys, before, k);
    }
  }

  // ---- the third pass ----

  lemma {:induction false} FinishFields(c: Config, k: string, a: string, s: AnchorState, st: State, since: int)
    requires Effective(c) && s.samples != [] && |s.samples| <= c.window
    requires s.m.state == st && s.m.since == since != 0
    requires (st == Learning <==> |s.samples| < c.minSamples) && (st == Learning || st == OK || st == Degraded)
    ensures var r, w := FinishAnchor(c, k, a, s), s.samples;
      && r.samples == w && r.m == s.m
      && r.baseline == Snapshot(c, k, a, w, r.m, w[|w| - 1].time)
  {
  }

  /** Finishing an anchor whose stored baseline its window explains changes nothing. */
  lemma {:induction false} FinishKeepsStored(c: Config, db: Db, k: string, a: string, s: AnchorState)
    requires Effective(c) && StoredAnchor(c, db, k, a) && (k, a) in db.baselines
    requires s.samples == Last(Sub(db.samples, k, a), c.window)
    requires s.m.state == db.baselines[(k, a)].state && s.m.since == db.baselines[(k, a)].since
    ensures MirrorsAnchor(c, db, k, a, FinishAnchor(c, k, a, s))
  {
    var w, b := s.samples, db.baselines[(k, a)];
    assert Explains(c, k, a, w, b);
    FinishFields(c, k, a, s, b.state, b.since);
    SnapshotIgnoresStreaks(c, k, a, w, s.m, Machine(b.state, b.since, 0, 0, NoReason), w[|w| - 1].time);
  }

  lemma {:induction false} SnapshotIgnoresStreaks(c: Config, k: string, a: string, w: seq<Sample>, m: Machine, m': Machine, at: int)
    requires Effective(c) && m.state == m'.state && m.since == m'.since
    ensures Snapshot(c, k, a, w, m, at) == Snapshot(c, k, a, w, m', at)
  {
  }

  // ---- a warm start ----

  lemma {:induction false} ListsDraws(c: Config, names: seq<string>, db: Db, bs: seq<Baseline>, k: string)
    requires Effective(c) && DbOk(c, names, db) && Lists(bs, db, k) && k != ""
    ensures Draws(bs, db, k)
    ensures NamesOf(bs) == set a | a in names && (k, a) in db.baselines
  {
    forall b | b in bs ensures b.key == k && b.anchor != "" && b.anchor in names && b.state != Unset {
      assert StoredAnchor(c, db, k, b.anchor);
      var own := Sub(db.samples, k, b.anchor);
      SubMembers(db.samples, k, b.anchor, own[0]);
    }
    forall a | (k, a) in db.baselines ensures a in NamesOf(bs) {
      var b := db.baselines[(k, a)];
      assert b in bs;
      assert StoredAnchor(c, db, k, a);
      assert b.anchor == a;
    }
  }

  /** The anchors after the first two passes: the stored windows under the stored
      verdicts. */
  lemma {:induction false} TwoPasses(c: Config, names: seq<string>, db: Db, keys: Keys, bs: seq<Baseline>, k: string, a: string)
    requires Effective(c) && Configured(names) && DbOk(c, names, db) && Lists(bs, db, k)
    requires k != "" && k !in keys
    ensures var ss := SortByTime(Recall(db, names, k, c.window));
      var mid := LoadBaselines(LoadSamples(keys, ss), bs);
      && mid - {k} == keys
      && (k in mid ==> mid[k].since == 0)
      && (a in KeyOf(mid, k).anchors <==> (k, a) in db.baselines)
      && (a in KeyOf(mid, k).anchors ==> var s := mid[k].anchors[a];
           && s.samples == Last(Sub(db.samples, k, a), c.window)
           && s.m.state == db.baselines[(k, a)].state && s.m.since == db.baselines[(k, a)].since)
  {
    hide Judge, Snapshot, Explains;
    var ss := SortByTime(Recall(db, names, k, c.window));
    RecallIsOwn(c, names, db, k);
    LoadSamplesCollects(keys, ss, k);
    ListsDraws(c, names, db, bs, k);
    forall n ensures n in KeyOf(LoadSamples(keys, ss), k).anchors <==> (k, n) in db.baselines {
      SortedRecall(db, names, k, c.window, n);
      assert StoredAnchor(c, db, k, n);
      AnchorIsNamed(c, names, db, k, n);
    }
    SortedRecall(db, names, k, c.window, a);
    AnchorIsNamed(c, names, db, k, a);
    if bs != [] {
      assert bs[0].anchor in NamesOf(bs);
    }
    if ss != [] {
      LoadBaselinesSets(db, LoadSamples(keys, ss), bs, k);
    }
  }

  lemma {:induction false} AnchorIsNamed(c: Config, names: seq<string>, db: Db, k: string, a: string)
    requires Effective(c) && DbOk(c, names, db)
    ensures (k, a) in db.baselines <==> Sub(db.samples, k, a) != []
    ensures (k, a) in db.baselines ==> a in names && a != ""
  {
    assert StoredAnchor(c, db, k, a);
    var own := Sub(db.samples, k, a);
    if own != [] {
      SubMembers(db.samples, k, a, own[0]);
    }
  }

  lemma {:induction false} RecallIsOwn(c: Config, names: seq<string>, db: Db, k: string)
    requires Effective(c) && Configured(names) && DbOk(c, names, db)
    ensures forall s :: s in SortByTime(Recall(db, names, k, c.window)) ==> s.key == k && Accepted(s)
  {
    forall s | s in SortByTime(Recall(db, names, k, c.window)) ensures s.key == k && Accepted(s) {
      SortKeepsMembers(Recall(db, names, k, c.window), s);
      RecallHasKey(db, names, k, c.window, s);
    }
  }

  lemma {:induction false} TouchesOnly(c: Config, names: seq<string>, db: Db, bs: seq<Baseline>, k: string)
    requires Effective(c) && Configured(names) && DbOk(c, names, db) && Lists(bs, db, k) && k != ""
    ensures Touched(bs, Recall(db, names, k, c.window)) <= {k}
  {
    ListsDraws(c, names, db, bs, k);
    forall s | s in Recall(db, names, k, c.window) ensures s.key == k {
      RecallHasKey(db, names, k, c.window, s);
    }
  }

  lemma {:induction false} MidIsTouched(c: Config, names: seq<string>, db: Db, keys: Keys, bs: seq<Baseline>, k: string)
    requires Effective(c) && Configured(names) && DbOk(c, names, db) && Lists(bs, db, k)
    requires k != "" && k !in keys
    requires k in LoadBaselines(LoadSamples(keys, SortByTime(Recall(db, names, k, c.window))), bs)
    ensures k in Touched(bs, Recall(db, names, k, c.window))
  {
    var ss := Recall(db, names, k, c.window);
    RecallIsOwn(c, names, db, k);
    ListsDraws(c, names, db, bs, k);
    LoadSamplesCollects(keys, SortByTime(ss), k);
    if ss != [] {
      SortKeepsMembers(ss, ss[0]);
      assert ss[0] in ss && Accepted(ss[0]) && ss[0].key == k;
    } else if bs != [] {
      assert bs[0] in bs && Named(bs[0]) && bs[0].key == k;
    }
  }

  lemma {:induction false} MidHasAnchors(c: Config, names: seq<string>, db: Db, keys: Keys, bs: seq<Baseline>, k: string)
    requires Effective(c) && Configured(names) && DbOk(c, names, db) && Lists(bs, db, k)
    requires k != "" && k !in keys && k in Touched(bs, Recall(db, names, k, c.window))
    ensures exists a :: a in names && (k, a) in db.baselines
  {
    var ss := Recall(db, names, k, c.window);
    if s :| s in ss && Accepted(s) && s.key == k {
      RecallHasKey(db, names, k, c.window, s);
      SubMembers(db.samples, k, s.anchor, s);
      AnchorIsNamed(c, names, db, k, s.anchor);
    } else {
      ListsDraws(c, names, db, bs, k);
      var b :| b in bs && Named(b) && b.key == k;
      assert b.anchor in NamesOf(bs);
    }
  }

  /** The key after the three passes, anchor by anchor. */
  lemma {:induction false} WarmAnchor(c: Config, names: seq<string>, db: Db, keys: Keys, bs: seq<Baseline>, k: string, ks: KeyState, a: string)
    requires Effective(c) && Configured(names) && DbOk(c, names, db) && Lists(bs, db, k)
    requires k != "" && k !in keys
    requires var mid := LoadBaselines(LoadSamples(keys, SortByTime(Recall(db, names, k, c.window))), bs);
      k in mid && ks.anchors == FinishAnchors(c, k, mid[k].anchors)
    ensures a in ks.anchors <==> (k, a) in db.baselines
    ensures a in ks.anchors ==> MirrorsAnchor(c, db, k, a, ks.anchors[a])
  {
    hide FinishAnchor, MirrorsAnchor, LoadSamples, LoadBaselines, SortByTime, Recall, Lists;
    TwoPasses(c, names, db, keys, bs, k, a);
    var mid := LoadBaselines(LoadSamples(keys, SortByTime(Recall(db, names, k, c.window))), bs);
    if a in ks.anchors {
      assert StoredAnchor(c, db, k, a);
      FinishKeepsStored(c, db, k, a, mid[k].anchors[a]);
    }
  }

  lemma {:induction false} LoadedKey(c: Config, before: Keys, bs: seq<Baseline>, ss: seq<Sample>, after: Keys, k: string)
    requires Effective(c) && Loaded(c, before, bs, ss, after)
    ensures var mid := LoadBaselines(LoadSamples(before, SortByTime(ss)), bs);
      && after.Keys == mid.Keys
      && (k in mid && k !in Touched(bs, ss) ==> after[k] == mid[k])
      && (k in mid && k in Touched(bs, ss) ==>
           after[k].anchors == FinishAnchors(c, k, mid[k].anchors) && after[k].state == Derived(after[k].anchors))
  {
    hide FinishAnchors, LoadSamples, LoadBaselines, SortByTime, Touched, IsLatest;
  }

  /** A warm start rebuilds the key from the store, and touches no other key. */
  lemma {:induction false} WarmMirrors(c: Config, names: seq<string>, db: Db, keys: Keys, bs: seq<Baseline>, k: string, after: Keys)
    requires Effective(c) && Configured(names) && DbOk(c, names, db) && Lists(bs, db, k)
    requires k != "" && k !in keys
    requires Loaded(c, keys, bs, Recall(db, names, k, c.window), after)
    ensures after - {k} == keys
    ensures k in after ==> Mirrors(c, db, k, after[k]) && after[k].anchors != map[]
    ensures k !in after ==> forall a :: (k, a) !in db.baselines
  {
    hide MirrorsAnchor, FinishAnchors, LoadSamples, LoadBaselines, SortByTime, Recall, Lists, DbOk, Loaded, Touched;
    var ss := Recall(db, names, k, c.window);
    var mid := LoadBaselines(LoadSamples(keys, SortByTime(ss)), bs);
    TouchesOnly(c, names, db, bs, k);
    TwoPasses(c, names, db, keys, bs, k, "");
    forall k' ensures k' in after <==> k' in mid
              ensures k' in after && k' != k ==> after[k'] == mid[k']
    {
      LoadedKey(c, keys, bs, ss, after, k');
    }
    OthersStay(after, mid, keys, k);
    if k in mid {
      MidIsTouched(c, names, db, keys, bs, k);
      MidHasAnchors(c, names, db, keys, bs, k);
      LoadedKey(c, keys, bs, ss, after, k);
      forall a ensures a in after[k].anchors <==> (k, a) in db.baselines
               ensures a in after[k].anchors ==> MirrorsAnchor(c, db, k, a, after[k].anchors[a])
      {
        WarmAnchor(c, names, db, keys, bs, k, after[k], a);
      }
    } else {
      forall a ensures (k, a) !in db.baselines {
        TwoPasses(c, names, db, keys, bs, k, a);
      }
    }
  }

  lemma {:induction false} OthersStay(after: Keys, mid: Keys, keys: Keys, k: string)
    requires mid - {k} == keys && after.Keys == mid.Keys
    requires forall k' :: k' in after && k' != k ==> after[k'] == mid[k']
    ensures after - {k} == keys
  {
    forall k' | k' in keys ensures k' in after && after[k'] == keys[k'] {
      assert k' in mid - {k} && mid[k'] == (mid - {k})[k'];
    }
    forall k' | k' in after && k' != k ensures k' in keys {
      assert k' in mid - {k};
    }
  }

  // ---- a round ----

  /** The engine's view of a key agrees with a list of samples and explains itself. */
  ghost predicate Tracks(c: Config, samples: seq<Sample>, k: string, ks: KeyState)
    requires Effective(c)
  {
    && ks.state == Derived(ks.anchors)
    && (forall a :: a in ks.anchors <==> Sub(samples, k, a) != [])
    && (forall a :: a in ks.anchors ==> TracksAnchor(c, samples, k, a, ks.anchors[a]))
  }

  predicate TracksAnchor(c: Config, samples: seq<Sample>, k: string, a: string, s: AnchorState)
    requires Effective(c)
  {
    && s.samples == Last(Sub(samples, k, a), c.window)
    && Explains(c, k, a, s.samples, s.baseline)
    && s.m.state == s.baseline.state && s.m.since == s.baseline.since
  }

  lemma {:induction false} MachineStaysSane(c: Config, m: Machine, n: nat, v: Verdict, at: int)
    requires Effective(c) && at != 0 && m.since != 0
    requires m.state == Learning || m.state == OK || m.state == Degraded
    ensures var m' := MachineStep(c, m, n >= c.minSamples, v, at);
      && m'.since != 0 && (m'.state == Learning <==> n < c.minSamples)
      && (m'.state == Learning || m'.state == OK || m'.state == Degraded)
  {
  }

  lemma {:induction false} AnchorStepTracks(c: Config, samples: seq<Sample>, a: AnchorState, s: Sample)
    requires Effective(c) && s.time > 0
    requires (a == Fresh(s.time) && Sub(samples, s.key, s.anchor) == [])
          || TracksAnchor(c, samples, s.key, s.anchor, a)
    ensures TracksAnchor(c, samples + [s], s.key, s.anchor, AnchorStep(c, a, s))
  {
    hide Judge, Snapshot, MachineStep, Sub;
    var own := Sub(samples, s.key, s.anchor);
    SubExtends(samples, s, s.key, s.anchor);
    LastSlides(own, s, c.window);
    var w := Last(a.samples + [s], c.window);
    MachineStaysSane(c, a.m, |w|, Judge(c, w), s.time);
    StepExplains(c, w, a.m, s);
  }

  lemma {:induction false} StepExplains(c: Config, w: seq<Sample>, m: Machine, s: Sample)
    requires Effective(c) && w != [] && w[|w| - 1] == s
    requires var m' := MachineStep(c, m, |w| >= c.minSamples, Judge(c, w), s.time);
      && m'.since != 0 && (m'.state == Learning <==> |w| < c.minSamples)
      && (m'.state == Learning || m'.state == OK || m'.state == Degraded)
    ensures var m' := MachineStep(c, m, |w| >= c.minSamples, Judge(c, w), s.time);
      var b := Snapshot(c, s.key, s.anchor, w, m', s.time);
      Explains(c, s.key, s.anchor, w, b) && b.state == m'.state && b.since == m'.since
  {
    var m' := MachineStep(c, m, |w| >= c.minSamples, Judge(c, w), s.time);
    SnapshotIgnoresStreaks(c, s.key, s.anchor, w, m', Machine(m'.state, m'.since, 0, 0, NoReason), s.time);
  }

  lemma {:induction false} SubExtends(samples: seq<Sample>, s: Sample, k: string, a: string)
    ensures Sub(samples + [s], k, a) == if Hit(s, k, a) then Sub(samples, k, a) + [s] else Sub(samples, k, a)
  {
    assert (samples + [s])[..|samples|] == samples;
  }

  lemma {:induction false} KeyStepShape(c: Config, ks: KeyState, s: Sample)
    requires Effective(c) && ks.state == Derived(ks.anchors)
    ensures var ks' := KeyStep(c, ks, s).0;
      && ks'.anchors == ks.anchors[s.anchor := AnchorStep(c, AnchorOf(ks, s), s)]
      && ks'.state == Derived(ks'.anchors)
  {
  }

  lemma {:induction false} AnchorStillTracks(c: Config, samples: seq<Sample>, s: Sample, k: string, n: string, a: AnchorState)
    requires Effective(c) && TracksAnchor(c, samples, k, n, a) && !Hit(s, k, n)
    ensures TracksAnchor(c, samples + [s], k, n, a)
  {
    SubExtends(samples, s, k, n);
  }

  lemma {:induction false} KeyStepTracks(c: Config, samples: seq<Sample>, ks: KeyState, ks': KeyState, s: Sample)
    requires Effective(c) && Tracks(c, samples, s.key, ks)
    requires s.anchor in ks'.anchors && ks'.anchors == ks.anchors[s.anchor := ks'.anchors[s.anchor]]
    requires ks'.state == Derived(ks'.anchors)
    requires TracksAnchor(c, samples + [s], s.key, s.anchor, ks'.anchors[s.anchor])
    ensures Tracks(c, samples + [s], s.key, ks')
  {
    hide Judge, Snapshot, Explains;
    forall n ensures n in ks'.anchors <==> Sub(samples + [s], s.key, n) != [] {
      SubExtends(samples, s, s.key, n);
    }
    forall n | n in ks'.anchors ensures TracksAnchor(c, samples + [s], s.key, n, ks'.anchors[n]) {
      if n != s.anchor {
        assert TracksAnchor(c, samples, s.key, n, ks.anchors[n]);
        AnchorStillTracks(c, samples, s, s.key, n, ks.anchors[n]);
      }
    }
  }

  lemma {:induction false} AddTracks(c: Config, samples: seq<Sample>, keys: Keys, s: Sample)
    requires Effective(c) && Accepted(s) && s.time > 0 && Tracks(c, samples, s.key, KeyOf(keys, s.key))
    ensures var keys' := AddStep(c, keys, s).0;
      && s.key in keys' && Tracks(c, samples + [s], s.key, keys'[s.key]) && keys' - {s.key} == keys - {s.key}
  {
    hide Judge, Snapshot, Explains;
    var ks := KeyOf(keys, s.key);
    var ks' := KeyStep(c, ks, s).0;
    KeyStepShape(c, ks, s);
    AnchorOfTracks(c, samples, ks, s);
    AnchorStepTracks(c, samples, AnchorOf(ks, s), s);
    KeyStepTracks(c, samples, ks, ks', s);
  }

  lemma {:induction false} AnchorOfTracks(c: Config, samples: seq<Sample>, ks: KeyState, s: Sample)
    requires Effective(c) && Tracks(c, samples, s.key, ks)
    ensures (AnchorOf(ks, s) == Fresh(s.time) && Sub(samples, s.key, s.anchor) == [])
         || TracksAnchor(c, samples, s.key, s.anchor, AnchorOf(ks, s))
  {
    if s.anchor in ks.anchors {
      assert TracksAnchor(c, samples, s.key, s.anchor, ks.anchors[s.anchor]);
    }
  }

  lemma {:induction false} AddAllTracks(c: Config, samples: seq<Sample>, keys: Keys, k: string, ss: seq<Sample>)
    requires Effective(c) && k != "" && Tracks(c, samples, k, KeyOf(keys, k))
    requires forall s :: s in ss ==> s.key == k && Accepted(s) && s.time > 0
    ensures Tracks(c, samples + ss, k, KeyOf(AddAll(c, keys, ss), k))
    ensures AddAll(c, keys, ss) - {k} == keys - {k}
    ensures k in AddAll(c, keys, ss) <==> k in keys || ss != []
  {
    hide Tracks, AddStep;
    if ss == [] {
      assert samples + ss == samples;
    } else {
      var before, s := ss[..|ss| - 1], ss[|ss| - 1];
      assert s in ss;
      AddAllTracks(c, samples, keys, k, before);
      AddTracks(c, samples + before, AddAll(c, keys, before), s);
      assert samples + ss == (samples + before) + [s];
    }
  }

  lemma {:induction false} MirrorsTrack(c: Config, names: seq<string>, w: World, k: string)
    requires Effective(c) && Inv(c, names, w) && k == w.network != ""
    ensures Tracks(c, w.db.samples, k, KeyOf(w.keys, k))
  {
    hide Judge, Snapshot, Explains;
    var ks := KeyOf(w.keys, k);
    forall a ensures a in ks.anchors <==> Sub(w.db.samples, k, a) != [] {
      assert StoredAnchor(c, w.db, k, a);
    }
    forall a | a in ks.anchors ensures TracksAnchor(c, w.db.samples, k, a, ks.anchors[a]) {
      assert StoredAnchor(c, w.db, k, a);
      assert MirrorsAnchor(c, w.db, k, a, ks.anchors[a]);
    }
  }

  lemma {:induction false} OtherKeysUntouched(samples: seq<Sample>, ss: seq<Sample>, k: string, k': string, a: string)
    requires k' != k && forall s :: s in ss ==> s.key == k
    ensures Sub(samples + ss, k', a) == Sub(samples, k', a)
  {
    SubConcat(samples, ss, k', a);
    if Sub(ss, k', a) != [] {
      SubMembers(ss, k', a, Sub(ss, k', a)[0]);
    }
  }

  lemma {:induction false} RoundStores(c: Config, db: Db, ss: seq<Sample>, k: string, ks: KeyState, k': string, a: string)
    requires Effective(c) && StoredAnchor(c, db, k', a) && (forall s :: s in ss ==> s.key == k)
    requires Tracks(c, db.samples + ss, k, ks)
    ensures StoredAnchor(c, Put(db.(samples := db.samples + ss), k, ks.anchors), k', a)
  {
    hide Judge, Snapshot, Explains;
    if k' != k {
      OtherKeysUntouched(db.samples, ss, k, k', a);
    } else {
      SubConcat(db.samples, ss, k, a);
      assert a in ks.anchors ==> TracksAnchor(c, db.samples + ss, k, a, ks.anchors[a]);
    }
  }

  lemma {:induction false} RoundDbOk(c: Config, names: seq<string>, w: World, ss: seq<Sample>, ks: KeyState)
    requires Effective(c) && DbOk(c, names, w.db) && FitsRound(names, w, ss) && Configured(names)
    requires Tracks(c, w.db.samples + ss, w.network, ks)
    ensures DbOk(c, names, Put(w.db.(samples := w.db.samples + ss), w.network, ks.anchors))
  {
    hide StoredAnchor, Tracks;
    forall k', a ensures StoredAnchor(c, Put(w.db.(samples := w.db.samples + ss), w.network, ks.anchors), k', a) {
      RoundStores(c, w.db, ss, w.network, ks, k', a);
    }
  }

  lemma {:induction false} BaselinesAreTracked(c: Config, names: seq<string>, w: World, ss: seq<Sample>, ks: KeyState, a: string)
    requires Effective(c) && DbOk(c, names, w.db) && Tracks(c, w.db.samples + ss, w.network, ks)
    requires (w.network, a) in w.db.baselines
    ensures a in ks.anchors
  {
    hide Explains, TracksAnchor;
    assert StoredAnchor(c, w.db, w.network, a);
    SubConcat(w.db.samples, ss, w.network, a);
  }

  /** A round keeps store and engine in step. */
  lemma {:induction false} RoundKeeps(c: Config, names: seq<string>, w: World, ss: seq<Sample>)
    requires Effective(c) && Configured(names) && Inv(c, names, w) && FitsRound(names, w, ss)
    ensures Inv(c, names, Rounded(c, w, ss))
  {
    hide Tracks, DbOk, Mirrors, AddAll;
    var k := w.network;
    MirrorsTrack(c, names, w, k);
    RoundIsAccepted(names, w, ss);
    AddAllTracks(c, w.db.samples, w.keys, k, ss);
    var keys' := AddAll(c, w.keys, ss);
    var ks := KeyOf(keys', k);
    RoundDbOk(c, names, w, ss, ks);
    forall k' | k' in keys'
      ensures Mirrors(c, Rounded(c, w, ss).db, k', keys'[k']) && keys'[k'].anchors != map[]
    {
      RoundMirrorsAll(c, names, w, ss, k');
    }
    assert "" in keys' ==> "" in keys' - {k};
    if k !in keys' {
      NothingStored(c, names, w, ss);
    }
  }

  lemma {:induction false} RoundIsAccepted(names: seq<string>, w: World, ss: seq<Sample>)
    requires Configured(names) && FitsRound(names, w, ss)
    ensures forall s :: s in ss ==> s.key == w.network && Accepted(s) && s.time > 0
  {
  }

  lemma {:induction false} NothingStored(c: Config, names: seq<string>, w: World, ss: seq<Sample>)
    requires Effective(c) && Inv(c, names, w) && w.network != "" && w.network !in w.keys
    requires w.network !in AddAll(c, w.keys, ss)
    ensures forall a :: (w.network, a) !in Rounded(c, w, ss).db.baselines
  {
    hide Mirrors, DbOk, AddAll;
  }

  lemma {:induction false} RoundMirrorsAll(c: Config, names: seq<string>, w: World, ss: seq<Sample>, k': string)
    requires Effective(c) && Configured(names) && Inv(c, names, w) && FitsRound(names, w, ss)
    requires k' in AddAll(c, w.keys, ss)
    requires var keys' := AddAll(c, w.keys, ss);
      && Tracks(c, w.db.samples + ss, w.network, KeyOf(keys', w.network))
      && keys' - {w.network} == w.keys - {w.network}
      && (w.network in keys' <==> w.network in w.keys || ss != [])
    ensures var keys' := AddAll(c, w.keys, ss);
      Mirrors(c, Rounded(c, w, ss).db, k', keys'[k']) && keys'[k'].anchors != map[]
  {
    hide Tracks, DbOk, Mirrors, AddAll;
    var keys', k := AddAll(c, w.keys, ss), w.network;
    if k' != k {
      assert k' in keys' - {k} && keys'[k'] == (keys' - {k})[k'] == (w.keys - {k})[k'] == w.keys[k'];
      OtherMirrors(c, w, ss, k');
    } else {
      forall a | (k, a) in w.db.baselines ensures a in keys'[k].anchors {
        BaselinesAreTracked(c, names, w, ss, keys'[k], a);
      }
      RoundMirrors(c, w.db, w.db.samples + ss, k, keys'[k]);
      RoundHasAnchors(c, names, w, ss, keys'[k]);
    }
  }

  lemma {:induction false} RoundHasAnchors(c: Config, names: seq<string>, w: World, ss: seq<Sample>, ks: KeyState)
    requires Effective(c) && Inv(c, names, w) && FitsRound(names, w, ss)
    requires Tracks(c, w.db.samples + ss, w.network, ks) && (w.network in w.keys || ss != [])
    ensures ks.anchors != map[]
  {
    hide DbOk, MirrorsAnchor, TracksAnchor;
    var k := w.network;
    if ss != [] {
      assert ss[0] in ss;
      SubMembers(w.db.samples + ss, k, ss[0].anchor, ss[0]);
      assert ss[0].anchor in ks.anchors;
    } else {
      var a :| a in w.keys[k].anchors;
      assert (k, a) in w.db.baselines;
      BaselinesAreTracked(c, names, w, ss, ks, a);
    }
  }

  lemma {:induction false} OtherMirrors(c: Config, w: World, ss: seq<Sample>, k': string)
    requires Effective(c) && k' in w.keys && k' != w.network && Mirrors(c, w.db, k', w.keys[k'])
    requires forall s :: s in ss ==> s.key == w.network
    ensures Mirrors(c, Rounded(c, w, ss).db, k', w.keys[k'])
  {
    hide Judge, Snapshot, Explains;
    var db' := Rounded(c, w, ss).db;
    forall a | a in w.keys[k'].anchors ensures MirrorsAnchor(c, db', k', a, w.keys[k'].anchors[a]) {
      assert MirrorsAnchor(c, w.db, k', a, w.keys[k'].anchors[a]);
      OtherKeysUntouched(w.db.samples, ss, w.network, k', a);
    }
  }

  lemma {:induction false} RoundMirrors(c: Config, db: Db, samples: seq<Sample>, k: string, ks: KeyState)
    requires Effective(c) && Tracks(c, samples, k, ks)
    requires forall a :: (k, a) in db.baselines ==> a in ks.anchors
    ensures Mirrors(c, Put(db.(samples := samples), k, ks.anchors), k, ks)
  {
    hide Judge, Snapshot, Explains;
    var db' := Put(db.(samples := samples), k, ks.anchors);
    forall a | a in ks.anchors ensures MirrorsAnchor(c, db', k, a, ks.anchors[a]) {
      assert TracksAnchor(c, samples, k, a, ks.anchors[a]);
    }
  }

  // ---- whole runs ----

  lemma {:induction false} WarmKeeps(c: Config, names: seq<string>, w: World, key: string, bs: seq<Baseline>, w': World)
    requires Effective(c) && Configured(names) && Inv(c, names, w) && key != ""
    requires Warmed(c, names, w.(network := key), key, bs, w')
    ensures Inv(c, names, w')
  {
    hide DbOk, Mirrors, Lists, Loaded;
    WarmMirrors(c, names, w.db, w.keys - {key}, bs, key, w'.keys);
    forall k | k in w'.keys ensures k != "" && Mirrors(c, w'.db, k, w'.keys[k]) && w'.keys[k].anchors != map[] {
      if k != key {
        assert k in w'.keys - {key} && w'.keys[k] == (w'.keys - {key})[k] == w.keys[k];
      }
    }
  }

  lemma {:induction false} StepKeeps(c: Config, names: seq<string>, w: World, step: Step, w': World)
    requires Effective(c) && Configured(names) && Inv(c, names, w) && Next(c, names, w, step, w')
    ensures Inv(c, names, w')
  {
    match step
    case Restart =>
    case Round(ss) =>
      hide Inv;
      RoundKeeps(c, names, w, ss);
    case SetNetwork(key, bs) =>
      if key != w.network && key != "" {
        hide Inv;
        WarmKeeps(c, names, w, key, bs, w');
      } else {
        hide DbOk, Mirrors;
      }
  }

  ghost predicate IsRun(c: Config, names: seq<string>, ws: seq<World>, steps: seq<Step>)
    requires Effective(c)
  {
    && |ws| == |steps| + 1
    && ws[0] == World(Db([], map[]), map[], "")
    && forall i :: 0 <= i < |steps| ==> Next(c, names, ws[i], steps[i], ws[i + 1])
  }

  /** At every point of every run the store explains the engine. */
  lemma {:induction false} RunKeeps(c: Config, names: seq<string>, ws: seq<World>, steps: seq<Step>, n: nat)
    requires Effective(c) && Configured(names) && IsRun(c, names, ws, steps) && n < |ws|
    ensures Inv(c, names, ws[n])
  {
    if n == 0 {
      forall k, a ensures StoredAnchor(c, ws[0].db, k, a) {
      }
    } else {
      hide Inv, Next;
      RunKeeps(c, names, ws, steps, n - 1);
      StepKeeps(c, names, ws[n - 1], steps[n - 1], ws[n]);
    }
  }

  /** Equal but for the anchors' streak counters and last reasons and the key's own since
      stamp. */
  ghost predicate SameButStreaks(x: KeyState, y: KeyState) {
    && x.state == y.state
    && x.anchors.Keys == y.anchors.Keys
    && forall a :: a in x.anchors ==>
         && x.anchors[a].samples == y.anchors[a].samples
         && x.anchors[a].baseline == y.anchors[a].baseline
         && x.anchors[a].m.state == y.anchors[a].m.state
         && x.anchors[a].m.since == y.anchors[a].m.since
  }

  /** Persist then load: at any point of any run, warming a key the engine knows rebuilds
      the same windows, anchor states, anchor since stamps, baselines and key state. */
  lemma {:induction false} WarmIsIdentity(c: Config, names: seq<string>, ws: seq<World>, steps: seq<Step>, n: nat,
                                          k: string, bs: seq<Baseline>, w': World)
    requires Effective(c) && Configured(names) && IsRun(c, names, ws, steps) && n < |ws|
    requires k in ws[n].keys && Warmed(c, names, ws[n], k, bs, w')
    ensures k in w'.keys && SameButStreaks(ws[n].keys[k], w'.keys[k])
    ensures w'.keys - {k} == ws[n].keys - {k}
  {
    hide DbOk, Mirrors, Loaded, Lists, IsRun;
    var w := ws[n];
    RunKeeps(c, names, ws, steps, n);
    WarmMirrors(c, names, w.db, w.keys - {k}, bs, k, w'.keys);
    KnownIsStored(c, w.db, k, w.keys[k]);
    MirrorsAgree(c, w.db, k, w.keys[k], w'.keys[k]);
  }

  lemma {:induction false} KnownIsStored(c: Config, db: Db, k: string, ks: KeyState)
    requires Effective(c) && Mirrors(c, db, k, ks) && ks.anchors != map[]
    ensures exists a :: (k, a) in db.baselines
  {
    hide MirrorsAnchor;
    var a :| a in ks.anchors;
    assert (k, a) in db.baselines;
  }

  lemma {:induction false} MirrorsAgree(c: Config, db: Db, k: string, x: KeyState, y: KeyState)
    requires Effective(c) && Mirrors(c, db, k, x) && Mirrors(c, db, k, y)
    ensures SameButStreaks(x, y)
  {
    SameVerdictsDerive(x.anchors, y.anchors);
  }

  lemma {:induction false} SameVerdictsDerive(x: map<string, AnchorState>, y: map<string, AnchorState>)
    requires x.Keys == y.Keys && forall a :: a in x ==> x[a].m.state == y[a].m.state
    ensures Derived(x) == Derived(y)
  {
  }
}
