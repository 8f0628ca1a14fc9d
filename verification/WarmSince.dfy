/** A key's own since stamp over warm starts: the source does not store it, so a warm
    start makes it the instant of the newest stored sample. */
module WarmSince {
  import opened Engine
  import opened EngineRuns
  import opened Loading
  import opened WarmStart
  import opened WarmRuns

  // ---- what a warm start makes it ----

  lemma {:induction false} HeardAtEnd(own: seq<Sample>, window: nat, since: int)
    requires own != [] && window > 0
    ensures HeardAt(Last(Last(own, window), window), since) == own[|own| - 1].time
  {
  }

  /** No stored sample of a key is newer than its newest. */
  lemma {:induction false} NewestIsLast(db: Db, k: string, s: Sample)
    requires TimeOrdered(db.samples) && s in db.samples && s.key == k && Accepted(s)
    ensures s.time <= Newest(db, k)
  {
    var all := SubKey(db.samples, k);
    SubKeyMembers(db.samples, k, s);
    SubKeyOrdered(db.samples, k);
    hide SubKey;
    var i :| 0 <= i < |all| && all[i] == s;
  }

  /** When anchor a of a mirrored key was last heard of. */
  lemma {:induction false} HeardIsStored(c: Config, db: Db, k: string, a: string, since: int)
    requires Effective(c) && TimeOrdered(db.samples) && k != "" && a != "" && Sub(db.samples, k, a) != []
    ensures var own := Sub(db.samples, k, a);
      && HeardAt(Last(Last(own, c.window), c.window), since) == own[|own| - 1].time
      && own[|own| - 1].time <= Newest(db, k)
  {
    hide Sub, Newest, TimeOrdered, HeardAt, Last;
    var own := Sub(db.samples, k, a);
    HeardAtEnd(own, c.window, since);
    SubMembers(db.samples, k, a, own[|own| - 1]);
    NewestIsLast(db, k, own[|own| - 1]);
  }

  /** The anchor of the newest stored sample was heard of then. */
  lemma {:induction false} NewestIsHeard(db: Db, k: string) returns (a: string)
    requires TimeOrdered(db.samples) && SubKey(db.samples, k) != []
    ensures k != "" && a != "" && Sub(db.samples, k, a) != []
    ensures var own := Sub(db.samples, k, a); own[|own| - 1].time >= Newest(db, k)
  {
    var all := SubKey(db.samples, k);
    var s := all[|all| - 1];
    a := s.anchor;
    SubKeyMembers(db.samples, k, s);
    SubMembers(db.samples, k, a, s);
    SubOrdered(db.samples, k, a);
    var own := Sub(db.samples, k, a);
    var i :| 0 <= i < |own| && own[i] == s;
  }

  /** A warm start sets the key's since to its newest stored instant. */
  lemma {:induction false} WarmSince(c: Config, names: seq<string>, db: Db, keys: Keys, bs: seq<Baseline>, k: string, after: Keys)
    requires Effective(c) && Configured(names) && DbOk(c, names, db) && Lists(bs, db, k)
    requires k != "" && k !in keys
    requires Loaded(c, keys, bs, Recall(db, names, k, c.window), after)
    ensures k in after ==> after[k].since == Newest(db, k)
  {
    hide MirrorsAnchor, FinishAnchors, LoadSamples, LoadBaselines, SortByTime, Recall, Lists, DbOk, Loaded, Touched;
    var ss := Recall(db, names, k, c.window);
    var mid := LoadBaselines(LoadSamples(keys, SortByTime(ss)), bs);
    LoadedKey(c, keys, bs, ss, after, k);
    if k in after {
      assert k in mid;
      MidIsTouched(c, names, db, keys, bs, k);
      TwoPasses(c, names, db, keys, bs, k, "");
      LoadedSince(c, keys, bs, ss, after, k);
      LatestIsNewest(c, names, db, keys, bs, k, mid[k], after[k].since);
    }
  }

  lemma {:induction false} LoadedSince(c: Config, before: Keys, bs: seq<Baseline>, ss: seq<Sample>, after: Keys, k: string)
    requires Effective(c) && Loaded(c, before, bs, ss, after) && k in after && k in Touched(bs, ss)
    ensures var mid := LoadBaselines(LoadSamples(before, SortByTime(ss)), bs);
      k in mid && (mid[k].since == 0 ==> IsLatest(c, mid[k].anchors, mid[k].anchors.Keys, after[k].since))
  {
    hide FinishAnchors, LoadSamples, LoadBaselines, SortByTime, Touched, IsLatest;
  }

  lemma {:induction false} MidAnchor(c: Config, names: seq<string>, db: Db, keys: Keys, bs: seq<Baseline>, k: string, a: string)
    requires Effective(c) && Configured(names) && DbOk(c, names, db) && Lists(bs, db, k) && k != "" && k !in keys
    ensures var mid := LoadBaselines(LoadSamples(keys, SortByTime(Recall(db, names, k, c.window))), bs);
      var own, anchors := Sub(db.samples, k, a), KeyOf(mid, k).anchors;
      && (a in anchors <==> own != [])
      && (a in anchors ==> a != "" && HeardAt(Last(anchors[a].samples, c.window), anchors[a].m.since) == own[|own| - 1].time)
      && (a in anchors ==> 0 < own[|own| - 1].time <= Newest(db, k))
  {
    hide LoadSamples, LoadBaselines, SortByTime, Recall, Lists, Explains;
    TwoPasses(c, names, db, keys, bs, k, a);
    assert StoredAnchor(c, db, k, a);
    var own := Sub(db.samples, k, a);
    if own != [] {
      var s := own[|own| - 1];
      SubMembers(db.samples, k, a, s);
      assert s in db.samples && Accepted(s) && s.anchor == a;
      assert TimeOrdered(db.samples) && a != "";
      HeardIsStored(c, db, k, a, db.baselines[(k, a)].since);
    }
  }

  lemma {:induction false} LatestIsNewest(c: Config, names: seq<string>, db: Db, keys: Keys, bs: seq<Baseline>, k: string, ks: KeyState, latest: int)
    requires Effective(c) && Configured(names) && DbOk(c, names, db) && Lists(bs, db, k) && k != "" && k !in keys
    requires var mid := LoadBaselines(LoadSamples(keys, SortByTime(Recall(db, names, k, c.window))), bs);
      k in mid && ks == mid[k]
    requires IsLatest(c, ks.anchors, ks.anchors.Keys, latest)
    ensures latest == Newest(db, k)
  {
    hide LoadSamples, LoadBaselines, SortByTime, Recall, Lists, DbOk, HeardAt, Last;
    forall a | a in ks.anchors
      ensures HeardAt(Last(ks.anchors[a].samples, c.window), ks.anchors[a].m.since) <= Newest(db, k)
    {
      MidAnchor(c, names, db, keys, bs, k, a);
    }
    assert TimeOrdered(db.samples) by { DbIsOrdered(c, names, db); }
    if latest != 0 {
      var a :| a in ks.anchors.Keys && HeardAt(Last(ks.anchors[a].samples, c.window), ks.anchors[a].m.since) == latest;
      MidAnchor(c, names, db, keys, bs, k, a);
    }
    if SubKey(db.samples, k) != [] {
      var a := NewestIsHeard(db, k);
      MidAnchor(c, names, db, keys, bs, k, a);
    }
  }

  lemma {:induction false} DbIsOrdered(c: Config, names: seq<string>, db: Db)
    requires Effective(c) && DbOk(c, names, db)
    ensures TimeOrdered(db.samples)
  {
  }

  /** When key k's state last moved in the life of the daemon: the instant of its last
      transition, or of the newest stored sample when a warm start rebuilt it since. */
  ghost function LastMove(c: Config, ws: seq<World>, steps: seq<Step>, n: nat, k: string): int
    requires Effective(c) && |ws| == |steps| + 1 && n < |ws|
  {
    if n == 0 then 0
    else
      match steps[n - 1]
      case Restart => 0
      case SetNetwork(key, _) =>
        if key == k && key != ws[n - 1].network then Newest(ws[n].db, k) else LastMove(c, ws, steps, n - 1, k)
      case Round(ss) =>
        var trs := Of(Reported(c, ws[n - 1].keys, ss), k);
        if trs == [] then LastMove(c, ws, steps, n - 1, k) else trs[|trs| - 1].at
  }

  /** A transition stamps the key with the sample's instant; nothing else does. */
  lemma {:induction false} StepStamps(c: Config, keys: Keys, s: Sample, k: string)
    requires Effective(c) && k != ""
    ensures var (keys', trs) := AddStep(c, keys, s);
      && Of(trs, k) == (if s.key == k then trs else [])
      && |trs| <= 1
      && KeyOf(keys', k).since == (if Of(trs, k) == [] then KeyOf(keys, k).since else s.time)
      && (Of(trs, k) != [] ==> Of(trs, k)[0].at == s.time && s.key == k)
      && (k in keys' && k !in keys ==> Of(trs, k) != [])
  {
    hide AnchorStep;
    StepReportsItsKey(c, keys, s, k);
  }

  /** Going from keys to keys', k's transitions are trs: the last one stamps it. */
  ghost predicate Stamped(keys: Keys, keys': Keys, trs: seq<Transition>, ss: seq<Sample>, k: string) {
    && KeyOf(keys', k).since == (if trs == [] then KeyOf(keys, k).since else trs[|trs| - 1].at)
    && (trs != [] ==> StampedBy(ss, k, trs[|trs| - 1].at))
    && (k in keys' && k !in keys ==> trs != [])
  }

  /** A sample of k is from that instant. */
  ghost predicate StampedBy(ss: seq<Sample>, k: string, at: int) { exists s :: s in ss && s.key == k && s.time == at }

  lemma {:induction false} StampedMore(keys: Keys, mid: Keys, keys': Keys, trs: seq<Transition>, more: seq<Transition>,
                                       ss: seq<Sample>, s: Sample, k: string)
    requires Stamped(keys, mid, trs, ss, k) && |more| <= 1
    requires KeyOf(keys', k).since == (if more == [] then KeyOf(mid, k).since else s.time)
    requires more != [] ==> more[0].at == s.time && s.key == k
    requires k in keys' && k !in mid ==> more != []
    ensures Stamped(keys, keys', trs + more, ss + [s], k)
  {
    hide KeyOf;
    if more == [] {
      assert trs + more == trs;
      if trs != [] {
        assert StampedBy(ss, k, trs[|trs| - 1].at);
        var x :| x in ss && x.key == k && x.time == trs[|trs| - 1].at;
        assert x in ss + [s];
      }
    } else {
      assert s in ss + [s];
    }
  }

  lemma {:induction false} RoundStamps(c: Config, keys: Keys, ss: seq<Sample>, k: string)
    requires Effective(c) && k != ""
    ensures Stamped(keys, AddAll(c, keys, ss), Of(Reported(c, keys, ss), k), ss, k)
  {
    hide AddStep, KeyOf, Stamped;
    if ss == [] {
      NothingStamped(keys, k);
    } else {
      var before, s := ss[..|ss| - 1], ss[|ss| - 1];
      assert ss == before + [s];
      RoundStamps(c, keys, before, k);
      var mid := AddAll(c, keys, before);
      var more := AddStep(c, mid, s).1;
      StepStamps(c, mid, s, k);
      OfAppend(Reported(c, keys, before), more, k);
      hide Of;
      StampedMore(keys, mid, AddAll(c, keys, ss), Of(Reported(c, keys, before), k), Of(more, k), before, s, k);
    }
  }

  lemma {:induction false} NothingStamped(keys: Keys, k: string)
    ensures Stamped(keys, keys, [], [], k)
  {
  }

  ghost predicate SinceOk(c: Config, ws: seq<World>, steps: seq<Step>, n: nat, k: string)
    requires Effective(c) && |ws| == |steps| + 1 && n < |ws|
  {
    k in ws[n].keys ==> ws[n].keys[k].since == LastMove(c, ws, steps, n, k) <= Newest(ws[n].db, k)
  }

  lemma {:induction false} NetworkStep(c: Config, names: seq<string>, ws: seq<World>, steps: seq<Step>, n: nat, k: string)
    requires Effective(c) && Configured(names) && |ws| == |steps| + 1 && 0 < n < |ws| && Inv(c, names, ws[n - 1])
    requires steps[n - 1].SetNetwork? && Next(c, names, ws[n - 1], steps[n - 1], ws[n]) && SinceOk(c, ws, steps, n - 1, k)
    ensures SinceOk(c, ws, steps, n, k)
  {
    hide DbOk, Mirrors, Lists, Loaded, Newest;
    var w, w', key, bs := ws[n - 1], ws[n], steps[n - 1].key, steps[n - 1].bs;
    if key != w.network && key != "" {
      WarmMirrors(c, names, w.db, w.keys - {key}, bs, key, w'.keys);
      WarmSince(c, names, w.db, w.keys - {key}, bs, key, w'.keys);
      if k != key && k in w'.keys {
        KeyRemains(w.keys, w'.keys, key, k);
      }
    }
  }

  lemma {:induction false} RoundStep(c: Config, names: seq<string>, ws: seq<World>, steps: seq<Step>, n: nat, k: string)
    requires Effective(c) && Configured(names) && |ws| == |steps| + 1 && 0 < n < |ws| && Inv(c, names, ws[n - 1]) && k != ""
    requires steps[n - 1].Round? && Next(c, names, ws[n - 1], steps[n - 1], ws[n]) && SinceOk(c, ws, steps, n - 1, k)
    ensures SinceOk(c, ws, steps, n, k)
  {
    hide Inv, Reported, AddAll, Newest, TimeOrdered, Stamped;
    var w, w', ss := ws[n - 1], ws[n], steps[n - 1].ss;
    assert w'.keys == AddAll(c, w.keys, ss) && w'.db.samples == w.db.samples + ss;
    RoundIsAccepted(names, w, ss);
    KnownHasSamples(c, names, w, k);
    RoundStamps(c, w.keys, ss, k);
    NewestGrows(w.db, ss, w'.db, k);
    hide Next, Rounded, Of, SubKey, Put;
    StampIsPast(w.keys, w'.keys, Of(Reported(c, w.keys, ss), k), ss, k, w.db, w'.db);
  }

  lemma {:induction false} StampIsPast(keys: Keys, keys': Keys, trs: seq<Transition>, ss: seq<Sample>, k: string, db: Db, db': Db)
    requires Stamped(keys, keys', trs, ss, k)
    requires forall s :: s in ss && s.key == k ==> s.time <= Newest(db', k)
    ensures trs != [] ==> trs[|trs| - 1].at <= Newest(db', k)
    ensures k in keys' ==> keys'[k].since == (if trs == [] then KeyOf(keys, k).since else trs[|trs| - 1].at)
    ensures k in keys' && trs == [] ==> k in keys
  {
    hide Newest;
  }

  lemma {:induction false} KnownHasSamples(c: Config, names: seq<string>, w: World, k: string)
    requires Effective(c) && Inv(c, names, w)
    ensures k in w.keys ==> SubKey(w.db.samples, k) != []
  {
    hide Explains;
    if k in w.keys {
      var a :| a in w.keys[k].anchors;
      assert StoredAnchor(c, w.db, k, a);
      var s := Sub(w.db.samples, k, a)[0];
      SubMembers(w.db.samples, k, a, s);
      SubKeyMembers(w.db.samples, k, s);
    }
  }

  lemma {:induction false} SinceFollows(c: Config, names: seq<string>, ws: seq<World>, steps: seq<Step>, n: nat, k: string)
    requires Effective(c) && Configured(names) && IsRun(c, names, ws, steps) && n < |ws| && k != ""
    ensures SinceOk(c, ws, steps, n, k)
  {
    hide Inv, Next, LastMove, Newest;
    if n > 0 {
      hide SinceOk;
      RunKeeps(c, names, ws, steps, n - 1);
      SinceFollows(c, names, ws, steps, n - 1, k);
      assert Next(c, names, ws[n - 1], steps[n - 1], ws[n]);
      hide IsRun;
      match steps[n - 1]
      case Restart => Restarted(c, names, ws, steps, n, k);
      case SetNetwork(key, bs) => NetworkStep(c, names, ws, steps, n, k);
      case Round(ss) => RoundStep(c, names, ws, steps, n, k);
    }
  }

  lemma {:induction false} Restarted(c: Config, names: seq<string>, ws: seq<World>, steps: seq<Step>, n: nat, k: string)
    requires Effective(c) && |ws| == |steps| + 1 && 0 < n < |ws|
    requires steps[n - 1].Restart? && Next(c, names, ws[n - 1], steps[n - 1], ws[n])
    ensures SinceOk(c, ws, steps, n, k)
  {
  }

  /** Exactly what a warm start does to the since stamp of a key the engine knows: it
      was the instant of the key's last move and becomes the newest stored instant, so
      it stays the same if and only if the newest sample is from that instant, and is
      moved forward otherwise. */
  lemma {:induction false} WarmSinceExactly(c: Config, names: seq<string>, ws: seq<World>, steps: seq<Step>, n: nat,
                                            k: string, bs: seq<Baseline>, w': World)
    requires Effective(c) && Configured(names) && IsRun(c, names, ws, steps) && n < |ws|
    requires k in ws[n].keys && Warmed(c, names, ws[n], k, bs, w')
    ensures k in w'.keys
    ensures var was, now := ws[n].keys[k].since, w'.keys[k].since;
      && was == LastMove(c, ws, steps, n, k) <= now == Newest(ws[n].db, k)
      && (now == was <==> LastMove(c, ws, steps, n, k) == Newest(ws[n].db, k))
  {
    hide DbOk, Mirrors, Loaded, Lists, IsRun, LastMove, Newest, SameButStreaks;
    RunKeeps(c, names, ws, steps, n);
    SinceFollows(c, names, ws, steps, n, k);
    WarmIsIdentity(c, names, ws, steps, n, k, bs, w');
    WarmSince(c, names, ws[n].db, ws[n].keys - {k}, bs, k, w'.keys);
  }

  /** It does move: samples at two instants and one transition, at the first. */
  lemma {:induction false} SinceMovesOn(c: Config, k: string, a: string, s1: Sample, s2: Sample)
    requires Effective(c) && c.minSamples > 2 && Accepted(s1) && s1.time < s2.time
    requires Hit(s1, k, a) && Hit(s2, k, a)
    ensures var keys := AddAll(c, map[], [s1, s2]);
      k in keys && keys[k].since == s1.time < Newest(Db([s1, s2], map[]), k) == s2.time
  {
    hide AddStep, Newest, KeyOf;
    assert [s1, s2][..1] == [s1] && [s1][..0] == [];
    assert AddAll(c, map[], [s1]) == AddStep(c, map[], s1).0;
    FirstLearns(c, k, a, s1);
    SecondLearns(c, k, a, AddStep(c, map[], s1).0, s2);
    NewestOfTwo(k, a, s1, s2);
  }

  lemma {:induction false} FirstLearns(c: Config, k: string, a: string, s: Sample)
    requires Effective(c) && c.minSamples > 2 && Accepted(s) && Hit(s, k, a)
    ensures OneLearning(AddStep(c, map[], s).0, k, a, 1) && AddStep(c, map[], s).0[k].since == s.time
  {
    hide Judge, Snapshot;
  }

  ghost predicate OneLearning(keys: Keys, k: string, a: string, n: nat) {
    && k in keys && keys[k].state == Learning && keys[k].anchors.Keys == {a}
    && keys[k].anchors[a].m.state == Learning && |keys[k].anchors[a].samples| == n
  }

  lemma {:induction false} SecondLearns(c: Config, k: string, a: string, keys: Keys, s: Sample)
    requires Effective(c) && c.minSamples > 2 && Accepted(s) && Hit(s, k, a) && OneLearning(keys, k, a, 1)
    ensures var after := AddStep(c, keys, s).0; k in after && after[k].since == keys[k].since
  {
    hide Judge, Snapshot;
    var ks := keys[k];
    var r := AnchorStep(c, ks.anchors[a], s);
    assert |r.samples| == 2 && r.m.state == Learning;
    var anchors := ks.anchors[a := r];
    assert anchors.Keys == {a} && anchors[a] == r;
    assert Derived(anchors) == Learning;
  }

  lemma {:induction false} NewestOfTwo(k: string, a: string, s1: Sample, s2: Sample)
    requires Accepted(s1) && Accepted(s2) && Hit(s1, k, a) && Hit(s2, k, a)
    ensures Newest(Db([s1, s2], map[]), k) == s2.time
  {
    var two := [s1, s2];
    var own := SubKey(two, k);
    assert own == SubKey(two[..1], k) + [s2];
    assert own[|own| - 1] == s2;
  }

  lemma {:induction false} KeyRemains(keys: Keys, after: Keys, gone: string, k: string)
    requires after - {gone} == keys - {gone} && k != gone && k in after
    ensures k in keys && after[k] == keys[k]
  {
    assert k in after - {gone} && (after - {gone})[k] == after[k];
    assert (keys - {gone})[k] == keys[k];
  }

  lemma {:induction false} SubKeyConcat(xs: seq<Sample>, ys: seq<Sample>, k: string)
    ensures SubKey(xs + ys, k) == SubKey(xs, k) + SubKey(ys, k)
  {
    if ys == [] {
      assert xs + ys == xs;
    } else {
      assert (xs + ys)[..|xs + ys| - 1] == xs + ys[..|ys| - 1];
      SubKeyConcat(xs, ys[..|ys| - 1], k);
    }
  }

  /** Storing more samples, in time order, never makes the newest one older. */
  lemma {:induction false} NewestGrows(db: Db, ss: seq<Sample>, db': Db, k: string)
    requires TimeOrdered(db.samples + ss) && db'.samples == db.samples + ss
    requires forall s :: s in ss ==> Accepted(s)
    ensures SubKey(db.samples, k) != [] ==> Newest(db', k) >= Newest(db, k)
    ensures forall s :: s in ss && s.key == k ==> s.time <= Newest(db', k)
  {
    var all := db'.samples;
    SubKeyConcat(db.samples, ss, k);
    SubKeyOrdered(all, k);
    var were, own := SubKey(db.samples, k), SubKey(all, k);
    assert were != [] ==> own[|were| - 1] == were[|were| - 1];
    forall s | s in ss && s.key == k ensures s.time <= Newest(db', k) {
      SubKeyMembers(all, k, s);
      var i :| 0 <= i < |own| && own[i] == s;
    }
  }
}
