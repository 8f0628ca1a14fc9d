/** Persist, then warm up again: the store and engine parts of
    internal/monitor/monitor.go (SetNetwork, warmLocked, round) around the engine,
    with the store as an append-only list of samples and a last-write-wins map of
    baselines. */
module WarmStart {
  import opened Engine
  import opened EngineRuns
  import opened Loading

  datatype Db = Db(samples: seq<Sample>, baselines: map<(string, string), Baseline>)

  /** A running daemon: its store, its engine and the network it is on ("" = none). */
  datatype World = World(db: Db, keys: Keys, network: string)

  // ---- the store ----

  /** The instant of the newest stored sample of a key, 0 when there is none. */
  function Newest(db: Db, k: string): int {
    var own := SubKey(db.samples, k);
    if own == [] then 0 else own[|own| - 1].time
  }

  /** The newest limit samples of one anchor on a key, oldest first; an empty
      anchor name means every anchor. */
  function StoredSamples(db: Db, k: string, a: string, limit: nat): seq<Sample> {
    Last(SortByTime(if a == "" then SubKey(db.samples, k) else Sub(db.samples, k, a)), limit)
  }

  /** What warmLocked reads: one query per configured anchor name. */
  function Recall(db: Db, names: seq<string>, k: string, limit: nat): seq<Sample> {
    if names == [] then []
    else Recall(db, names[..|names| - 1], k, limit) + StoredSamples(db, k, names[|names| - 1], limit)
  }

  /** bs lists the stored baselines of k, in whatever order. */
  ghost predicate Lists(bs: seq<Baseline>, db: Db, k: string) {
    && (forall b :: b in bs ==> (k, b.anchor) in db.baselines && db.baselines[(k, b.anchor)] == b)
    && (forall a :: (k, a) in db.baselines ==> db.baselines[(k, a)] in bs)
  }

  // ---- the steps ----

  /** warmLocked: forget the key, then load its stored history. */
  ghost predicate Warmed(c: Config, names: seq<string>, w: World, k: string, bs: seq<Baseline>, w': World)
    requires Effective(c)
  {
    && Lists(bs, w.db, k)
    && w'.db == w.db && w'.network == w.network
    && Loaded(c, w.keys - {k}, bs, Recall(w.db, names, k, c.window), w'.keys)
  }

  ghost function AddAll(c: Config, keys: Keys, ss: seq<Sample>): Keys
    requires Effective(c)
  {
    if ss == [] then keys else AddStep(c, AddAll(c, keys, ss[..|ss| - 1]), ss[|ss| - 1]).0
  }

  /** The transitions of a batch of samples, in order. */
  ghost function Reported(c: Config, keys: Keys, ss: seq<Sample>): seq<Transition>
    requires Effective(c)
  {
    if ss == [] then []
    else
      var before, last := ss[..|ss| - 1], ss[|ss| - 1];
      Reported(c, keys, before) + AddStep(c, AddAll(c, keys, before), last).1
  }

  function Put(db: Db, k: string, anchors: map<string, AnchorState>): Db {
    db.(baselines := db.baselines + map a | a in anchors :: (k, a) := anchors[a].baseline)
  }

  /** round: store and add every sample, then store every baseline of the key. */
  ghost function Rounded(c: Config, w: World, ss: seq<Sample>): World
    requires Effective(c)
  {
    var keys := AddAll(c, w.keys, ss);
    World(Put(w.db.(samples := w.db.samples + ss), w.network, KeyOf(keys, w.network).anchors), keys, w.network)
  }

  datatype Step = SetNetwork(key: string, bs: seq<Baseline>) | Round(ss: seq<Sample>) | Restart

  /** The samples of a round: the current network, configured anchors, no earlier
      than anything stored. */
  ghost predicate FitsRound(names: seq<string>, w: World, ss: seq<Sample>) {
    && w.network != ""
    && TimeOrdered(w.db.samples + ss)
    && forall s :: s in ss ==> s.key == w.network && s.anchor in names && s.time > 0
  }

  ghost predicate Next(c: Config, names: seq<string>, w: World, step: Step, w': World)
    requires Effective(c)
  {
    match step
    case Restart => w' == World(w.db, map[], "")
    case Round(ss) => FitsRound(names, w, ss) && w' == Rounded(c, w, ss)
    case SetNetwork(key, bs) =>
      if key != w.network && key != "" then Warmed(c, names, w.(network := key), key, bs, w')
      else w' == w.(network := key)
  }

  /** The names warmLocked asks for: the gateway and the configured anchors. */
  ghost predicate Configured(names: seq<string>) {
    && (forall i :: 0 <= i < |names| ==> names[i] != "")
    && (forall i, j :: 0 <= i < j < |names| ==> names[i] != names[j])
  }

  // ---- what every step keeps ----

  /** A baseline that its window explains. */
  predicate Explains(c: Config, k: string, a: string, w: seq<Sample>, b: Baseline)
    requires Effective(c)
  {
    && w != [] && b.since != 0
    && (b.state == Learning <==> |w| < c.minSamples)
    && (b.state == Learning || b.state == OK || b.state == Degraded)
    && b == Snapshot(c, k, a, w, Machine(b.state, b.since, 0, 0, NoReason), w[|w| - 1].time)
  }

  predicate StoredAnchor(c: Config, db: Db, k: string, a: string)
    requires Effective(c)
  {
    && ((k, a) in db.baselines <==> Sub(db.samples, k, a) != [])
    && ((k, a) in db.baselines ==> Explains(c, k, a, Last(Sub(db.samples, k, a), c.window), db.baselines[(k, a)]))
  }

  /** The anchor is what the store says, streaks and last reason aside. */
  predicate MirrorsAnchor(c: Config, db: Db, k: string, a: string, s: AnchorState)
    requires Effective(c)
  {
    && (k, a) in db.baselines && s.baseline == db.baselines[(k, a)]
    && s.samples == Last(Sub(db.samples, k, a), c.window)
    && s.m.state == s.baseline.state && s.m.since == s.baseline.since
  }

  ghost predicate Mirrors(c: Config, db: Db, k: string, ks: KeyState)
    requires Effective(c)
  {
    && ks.state == Derived(ks.anchors)
    && (forall a :: a in ks.anchors <==> (k, a) in db.baselines)
    && (forall a :: a in ks.anchors ==> MirrorsAnchor(c, db, k, a, ks.anchors[a]))
  }

  ghost predicate DbOk(c: Config, names: seq<string>, db: Db)
    requires Effective(c)
  {
    && TimeOrdered(db.samples)
    && (forall s :: s in db.samples ==> Accepted(s) && s.anchor in names && s.time > 0)
    && (forall k, a :: StoredAnchor(c, db, k, a))
  }

  ghost predicate Inv(c: Config, names: seq<string>, w: World)
    requires Effective(c)
  {
    && DbOk(c, names, w.db)
    && "" !in w.keys
    && (forall k :: k in w.keys ==> Mirrors(c, w.db, k, w.keys[k]) && w.keys[k].anchors != map[])
    && (w.network != "" && w.network !in w.keys ==> forall a :: (w.network, a) !in w.db.baselines)
  }

  // ---- sorting stored samples ----

  lemma {:induction false} OrderedTail(ss: seq<Sample>)
    requires TimeOrdered(ss) && ss != []
    ensures TimeOrdered(ss[1..]) && TimeOrdered(ss[..|ss| - 1])
  {
  }

  lemma {:induction false} SortOrdered(ss: seq<Sample>)
    requires TimeOrdered(ss)
    ensures SortByTime(ss) == ss
  {
    if ss != [] {
      OrderedTail(ss);
      SortOrdered(ss[1..]);
      assert |ss| > 1 ==> ss[0].time <= ss[1].time;
    }
  }

  predicate Hit(s: Sample, k: string, a: string) { s.key == k && s.anchor == a }

  lemma {:induction false} SubOne(s: Sample, k: string, a: string)
    ensures Sub([s], k, a) == if Hit(s, k, a) then [s] else []
  {
    assert [s][..0] == [];
    assert [] + [s] == [s];
  }

  lemma {:induction false} SubCons(s: Sample, ss: seq<Sample>, k: string, a: string)
    ensures Sub([s] + ss, k, a) == if Hit(s, k, a) then [s] + Sub(ss, k, a) else Sub(ss, k, a)
  {
    SubConcat([s], ss, k, a);
    SubOne(s, k, a);
    assert [] + Sub(ss, k, a) == Sub(ss, k, a);
  }

  lemma {:induction false} SubMembers(ss: seq<Sample>, k: string, a: string, s: Sample)
    ensures s in Sub(ss, k, a) <==> s in ss && Hit(s, k, a)
  {
    if ss != [] {
      SubMembers(ss[..|ss| - 1], k, a, s);
      assert ss == ss[..|ss| - 1] + [ss[|ss| - 1]];
    }
  }

  lemma {:induction false} SubOrdered(ss: seq<Sample>, k: string, a: string)
    requires TimeOrdered(ss)
    ensures TimeOrdered(Sub(ss, k, a))
  {
    if ss != [] {
      OrderedTail(ss);
      var before, last := ss[..|ss| - 1], ss[|ss| - 1];
      SubOrdered(before, k, a);
      forall i | 0 <= i < |Sub(before, k, a)| ensures Sub(before, k, a)[i].time <= last.time {
        SubMembers(before, k, a, Sub(before, k, a)[i]);
      }
    }
  }

  lemma {:induction false} SubKeyMembers(ss: seq<Sample>, k: string, s: Sample)
    ensures s in SubKey(ss, k) <==> s in ss && s.key == k && Accepted(s)
  {
    if ss != [] {
      SubKeyMembers(ss[..|ss| - 1], k, s);
      assert ss == ss[..|ss| - 1] + [ss[|ss| - 1]];
    }
  }

  lemma {:induction false} SubKeyOrdered(ss: seq<Sample>, k: string)
    requires TimeOrdered(ss)
    ensures TimeOrdered(SubKey(ss, k))
  {
    if ss != [] {
      OrderedTail(ss);
      var before, last := ss[..|ss| - 1], ss[|ss| - 1];
      SubKeyOrdered(before, k);
      forall i | 0 <= i < |SubKey(before, k)| ensures SubKey(before, k)[i].time <= last.time {
        SubKeyMembers(before, k, SubKey(before, k)[i]);
      }
    }
  }

  lemma {:induction false} SortIsOrdered(ss: seq<Sample>)
    ensures TimeOrdered(SortByTime(ss))
  {
    if ss != [] {
      SortIsOrdered(ss[1..]);
      InsertIsOrdered(ss[0], SortByTime(ss[1..]));
    }
  }

  lemma {:induction false} ConsIsOrdered(s: Sample, ss: seq<Sample>)
    requires TimeOrdered(ss) && (ss != [] ==> s.time <= ss[0].time)
    ensures TimeOrdered([s] + ss)
  {
    var r := [s] + ss;
    forall i, j | 0 <= i < j < |r| ensures r[i].time <= r[j].time {
      assert r[j] == ss[j - 1] && ss[0].time <= ss[j - 1].time;
      assert i > 0 ==> r[i] == ss[i - 1];
    }
  }

  lemma {:induction false} InsertIsOrdered(s: Sample, ss: seq<Sample>)
    requires TimeOrdered(ss)
    ensures TimeOrdered(InsertByTime(s, ss))
  {
    if ss == [] || s.time <= ss[0].time {
      ConsIsOrdered(s, ss);
    } else {
      OrderedTail(ss);
      InsertIsOrdered(s, ss[1..]);
      assert |ss| > 1 ==> ss[0].time <= ss[1].time;
      ConsIsOrdered(ss[0], InsertByTime(s, ss[1..]));
    }
  }

  lemma {:induction false} InsertFront(s: Sample, ss: seq<Sample>, k: string, a: string)
    requires TimeOrdered(ss) && (ss != [] ==> s.time <= ss[0].time)
    ensures InsertByTime(s, Sub(ss, k, a)) == [s] + Sub(ss, k, a)
  {
    if Sub(ss, k, a) != [] {
      SubMembers(ss, k, a, Sub(ss, k, a)[0]);
    }
  }

  lemma {:induction false} SubOfInsert(s: Sample, ss: seq<Sample>, k: string, a: string)
    requires TimeOrdered(ss)
    ensures Sub(InsertByTime(s, ss), k, a)
         == if Hit(s, k, a) then InsertByTime(s, Sub(ss, k, a)) else Sub(ss, k, a)
  {
    hide Sub;
    if ss == [] || s.time <= ss[0].time {
      SubCons(s, ss, k, a);
      InsertFront(s, ss, k, a);
    } else {
      OrderedTail(ss);
      SubOfInsert(s, ss[1..], k, a);
      SubOfInsertStep(s, ss[0], ss[1..], k, a);
      assert InsertByTime(s, ss) == [ss[0]] + InsertByTime(s, ss[1..]);
      hide InsertByTime;
      assert ss == [ss[0]] + ss[1..];
    }
  }

  lemma {:induction false} SubOfInsertStep(s: Sample, head: Sample, tail: seq<Sample>, k: string, a: string)
    requires s.time > head.time
    requires Sub(InsertByTime(s, tail), k, a)
          == if Hit(s, k, a) then InsertByTime(s, Sub(tail, k, a)) else Sub(tail, k, a)
    ensures Sub([head] + InsertByTime(s, tail), k, a)
         == if Hit(s, k, a) then InsertByTime(s, Sub([head] + tail, k, a)) else Sub([head] + tail, k, a)
  {
    SubCons(head, tail, k, a);
    SubCons(head, InsertByTime(s, tail), k, a);
    if Hit(head, k, a) {
      var t := [head] + Sub(tail, k, a);
      assert t[1..] == Sub(tail, k, a);
      assert InsertByTime(s, t) == [head] + InsertByTime(s, t[1..]);
    }
  }

  /** A stable sort commutes with picking out one anchor. */
  lemma {:induction false} SubOfSort(ss: seq<Sample>, k: string, a: string)
    ensures Sub(SortByTime(ss), k, a) == SortByTime(Sub(ss, k, a))
  {
    if ss != [] {
      SubOfSort(ss[1..], k, a);
      SubOfSortStep(ss[0], ss[1..], k, a);
      assert ss == [ss[0]] + ss[1..];
    }
  }

  lemma {:induction false} SubOfSortStep(s: Sample, rest: seq<Sample>, k: string, a: string)
    requires Sub(SortByTime(rest), k, a) == SortByTime(Sub(rest, k, a))
    ensures Sub(SortByTime([s] + rest), k, a) == SortByTime(Sub([s] + rest, k, a))
  {
    SortCons(s, rest);
    SortIsOrdered(rest);
    SubOfInsert(s, SortByTime(rest), k, a);
    SubCons(s, rest, k, a);
    SortCons(s, Sub(rest, k, a));
  }

  lemma {:induction false} SortCons(s: Sample, ss: seq<Sample>)
    ensures SortByTime([s] + ss) == InsertByTime(s, SortByTime(ss))
  {
    assert ([s] + ss)[1..] == ss;
  }

  // ---- what a warm start reads ----

  lemma {:induction false} StoredIsSuffix(db: Db, k: string, a: string, limit: nat)
    requires TimeOrdered(db.samples) && a != ""
    ensures StoredSamples(db, k, a, limit) == Last(Sub(db.samples, k, a), limit)
  {
    SubOrdered(db.samples, k, a);
    SortOrdered(Sub(db.samples, k, a));
  }

  lemma {:induction false} SubOfOwn(ss: seq<Sample>, k: string, name: string, a: string)
    requires forall s :: s in ss ==> Hit(s, k, name)
    ensures Sub(ss, k, a) == if a == name then ss else []
  {
    if ss != [] {
      assert ss[|ss| - 1] in ss;
      SubOfOwn(ss[..|ss| - 1], k, name, a);
      assert ss == ss[..|ss| - 1] + [ss[|ss| - 1]];
    }
  }

  lemma {:induction false} StoredHits(db: Db, k: string, name: string, limit: nat)
    requires TimeOrdered(db.samples) && name != ""
    ensures forall s :: s in StoredSamples(db, k, name, limit) ==> Hit(s, k, name)
  {
    StoredIsSuffix(db, k, name, limit);
    forall s | s in StoredSamples(db, k, name, limit) ensures Hit(s, k, name) {
      SubMembers(db.samples, k, name, s);
    }
  }

  /** With distinct names, each anchor's part of what is read is its stored suffix. */
  lemma {:induction false} RecallPerAnchor(db: Db, names: seq<string>, k: string, limit: nat, a: string)
    requires TimeOrdered(db.samples) && Configured(names)
    ensures Sub(Recall(db, names, k, limit), k, a) == if a in names then Last(Sub(db.samples, k, a), limit) else []
  {
    if names != [] {
      var before, name := names[..|names| - 1], names[|names| - 1];
      RecallPerAnchor(db, before, k, limit, a);
      SubConcat(Recall(db, before, k, limit), StoredSamples(db, k, name, limit), k, a);
      StoredPart(db, k, name, limit, a);
      assert a in names <==> a in before || a == name;
      assert name !in before;
    }
  }

  lemma {:induction false} StoredPart(db: Db, k: string, name: string, limit: nat, a: string)
    requires TimeOrdered(db.samples) && name != ""
    ensures Sub(StoredSamples(db, k, name, limit), k, a) == if a == name then Last(Sub(db.samples, k, a), limit) else []
  {
    StoredHits(db, k, name, limit);
    SubOfOwn(StoredSamples(db, k, name, limit), k, name, a);
    StoredIsSuffix(db, k, name, limit);
  }

  lemma {:induction false} RecallHasKey(db: Db, names: seq<string>, k: string, limit: nat, s: Sample)
    requires TimeOrdered(db.samples) && Configured(names) && s in Recall(db, names, k, limit)
    ensures s.key == k && s in db.samples
  {
    if names != [] {
      var before, name := names[..|names| - 1], names[|names| - 1];
      if s in Recall(db, before, k, limit) {
        RecallHasKey(db, before, k, limit, s);
      } else {
        StoredIsSuffix(db, k, name, limit);
        SubMembers(db.samples, k, name, s);
      }
    }
  }

  lemma {:induction false} SortedRecall(db: Db, names: seq<string>, k: string, limit: nat, a: string)
    requires TimeOrdered(db.samples) && Configured(names)
    ensures Sub(SortByTime(Recall(db, names, k, limit)), k, a) == if a in names then Last(Sub(db.samples, k, a), limit) else []
  {
    var own := Sub(db.samples, k, a);
    RecallPerAnchor(db, names, k, limit, a);
    SubOfSort(Recall(db, names, k, limit), k, a);
    SubOrdered(db.samples, k, a);
    LastOrdered(own, limit);
    SortOrdered(Last(own, limit));
  }

  lemma {:induction false} LastOrdered(ss: seq<Sample>, n: nat)
    requires TimeOrdered(ss)
    ensures TimeOrdered(Last(ss, n))
  {
  }
}
