/** What anchor names configured twice, and empty ones, do to a warm start
    (internal/monitor/monitor.go warmLocked): the exact condition under which an
    anchor's window is rebuilt. */
module WarmNames {
  import opened Engine
  import opened EngineRuns
  import opened Loading
  import opened WarmStart
  import WarmRuns

  // ---- what is read ----

  function TimesIn(names: seq<string>, a: string): (n: nat)
    ensures n > 0 <==> a in names
  {
    if names == [] then 0
    else
      assert names == names[..|names| - 1] + [names[|names| - 1]];
      TimesIn(names[..|names| - 1], a) + if names[|names| - 1] == a then 1 else 0
  }

  /** What the store returns of anchor a for the empty name: its share of the key's
      newest samples. */
  function Shared(db: Db, k: string, a: string, limit: nat): seq<Sample> {
    Sub(StoredSamples(db, k, "", limit), k, a)
  }

  /** What the queries return of anchor a, one after another: t for its own name, e for
      an empty one. */
  function Pieces(names: seq<string>, a: string, t: seq<Sample>, e: seq<Sample>): seq<Sample> {
    if names == [] then []
    else
      var rest, name := Pieces(names[..|names| - 1], a, t, e), names[|names| - 1];
      rest + if name == a then t else if name == "" then e else []
  }

  lemma {:induction false} RecallIsPieces(db: Db, names: seq<string>, k: string, limit: nat, a: string)
    requires TimeOrdered(db.samples) && a != ""
    ensures Sub(Recall(db, names, k, limit), k, a)
         == Pieces(names, a, Last(Sub(db.samples, k, a), limit), Shared(db, k, a, limit))
  {
    hide Sub, Last, StoredSamples;
    if names == [] {
      SubNothing(k, a);
    } else {
      var before, name := names[..|names| - 1], names[|names| - 1];
      RecallIsPieces(db, before, k, limit, a);
      SubConcat(Recall(db, before, k, limit), StoredSamples(db, k, name, limit), k, a);
      if name != "" {
        StoredPart(db, k, name, limit, a);
      }
    }
  }

  lemma {:induction false} SubNothing(k: string, a: string)
    ensures Sub([], k, a) == []
  {
  }

  /** The share of the empty name is the newest part of the anchor's own window. */
  lemma {:induction false} SharedIsSuffix(db: Db, k: string, a: string, limit: nat)
    requires TimeOrdered(db.samples) && k != "" && a != "" && forall s :: s in db.samples ==> Accepted(s)
    ensures var own, e := Sub(db.samples, k, a), Shared(db, k, a, limit);
      |e| <= |own| && |e| <= limit && e == Last(own, |e|)
  {
    hide SubKey, Sub, TimeOrdered, Shared;
    var all := SubKey(db.samples, k);
    var newest := Last(all, limit);
    SharedIsPart(db, k, a, limit);
    SubOfSubKey(db.samples, k, a);
    var older := all[..|all| - |newest|];
    assert all == older + newest;
    SubConcat(older, newest, k, a);
    SubIsShort(newest, k, a);
  }

  lemma {:induction false} SharedIsPart(db: Db, k: string, a: string, limit: nat)
    requires TimeOrdered(db.samples)
    ensures Shared(db, k, a, limit) == Sub(Last(SubKey(db.samples, k), limit), k, a)
  {
    hide SubKey, Sub, TimeOrdered, SortByTime;
    SubKeyOrdered(db.samples, k);
    SortOrdered(SubKey(db.samples, k));
  }

  lemma {:induction false} SubIsShort(ss: seq<Sample>, k: string, a: string)
    ensures |Sub(ss, k, a)| <= |ss|
  {
    if ss != [] {
      SubIsShort(ss[..|ss| - 1], k, a);
    }
  }

  lemma {:induction false} SubOfSubKey(ss: seq<Sample>, k: string, a: string)
    requires k != "" && a != ""
    ensures Sub(SubKey(ss, k), k, a) == Sub(ss, k, a)
  {
    if ss != [] {
      var before, s := ss[..|ss| - 1], ss[|ss| - 1];
      SubOfSubKey(before, k, a);
      if s.key == k && Accepted(s) {
        assert SubKey(ss, k)[..|SubKey(before, k)|] == SubKey(before, k);
      }
    }
  }

  // ---- how often an instant occurs ----

  function CountAt(ss: seq<Sample>, at: int): nat {
    if ss == [] then 0 else CountAt(ss[..|ss| - 1], at) + if ss[|ss| - 1].time == at then 1 else 0
  }

  lemma {:induction false} CountConcat(x: seq<Sample>, y: seq<Sample>, at: int)
    ensures CountAt(x + y, at) == CountAt(x, at) + CountAt(y, at)
  {
    if y == [] {
      assert x + y == x;
    } else {
      assert (x + y)[..|x + y| - 1] == x + y[..|y| - 1];
      CountConcat(x, y[..|y| - 1], at);
    }
  }

  lemma {:induction false} CountCons(s: Sample, ss: seq<Sample>, at: int)
    ensures CountAt([s] + ss, at) == CountAt(ss, at) + if s.time == at then 1 else 0
  {
    CountConcat([s], ss, at);
    assert [s][..0] == [];
  }

  lemma {:induction false} CountInsert(s: Sample, ss: seq<Sample>, at: int)
    ensures CountAt(InsertByTime(s, ss), at) == CountAt(ss, at) + if s.time == at then 1 else 0
  {
    if ss == [] || s.time <= ss[0].time {
      CountCons(s, ss, at);
    } else {
      CountInsert(s, ss[1..], at);
      CountCons(ss[0], InsertByTime(s, ss[1..]), at);
      CountCons(ss[0], ss[1..], at);
      assert ss == [ss[0]] + ss[1..];
    }
  }

  lemma {:induction false} CountSorted(ss: seq<Sample>, at: int)
    ensures CountAt(SortByTime(ss), at) == CountAt(ss, at)
  {
    if ss != [] {
      CountSorted(ss[1..], at);
      CountInsert(ss[0], SortByTime(ss[1..]), at);
      CountCons(ss[0], ss[1..], at);
      assert ss == [ss[0]] + ss[1..];
    }
  }

  /** In time order the samples of the latest instant are the last ones. */
  lemma {:induction false} LatestAreLast(ss: seq<Sample>, at: int, i: nat)
    requires TimeOrdered(ss) && i < |ss| && forall j :: 0 <= j < |ss| ==> ss[j].time <= at
    ensures CountAt(ss, at) <= |ss|
    ensures ss[i].time == at <==> i >= |ss| - CountAt(ss, at)
    decreases |ss|
  {
    var before := ss[..|ss| - 1];
    OrderedTail(ss);
    if before != [] {
      LatestAreLast(before, at, if i < |before| then i else 0);
      LatestAreLast(before, at, |before| - 1);
    }
  }

  // ---- one instant ----

  predicate SameInstant(t: seq<Sample>) { t == [] || t[0].time == t[|t| - 1].time }

  /** t repeats itself every j samples. */
  predicate HasPeriod(t: seq<Sample>, j: nat) { forall i :: 0 <= i < |t| - j ==> t[i] == t[i + j] }

  /** How many empty names come after the last name that is a. */
  function EmptyAfter(names: seq<string>, a: string): nat {
    if names == [] || names[|names| - 1] == a then 0
    else EmptyAfter(names[..|names| - 1], a) + if names[|names| - 1] == "" then 1 else 0
  }

  function Power(e: seq<Sample>, p: nat): seq<Sample> { if p == 0 then [] else Power(e, p - 1) + e }

  /** From the last a on, the pieces are the window and so many shares. */
  lemma {:induction false} PiecesEnd(names: seq<string>, a: string, t: seq<Sample>, e: seq<Sample>) returns (x: seq<Sample>)
    requires a in names && a != ""
    ensures Pieces(names, a, t, e) == x + (t + Power(e, EmptyAfter(names, a)))
  {
    var before, name := names[..|names| - 1], names[|names| - 1];
    assert names == before + [name];
    if name == a {
      x := Pieces(before, a, t, e);
      assert t + Power(e, 0) == t;
    } else {
      x := PiecesEnd(before, a, t, e);
      var p := EmptyAfter(before, a);
      if name == "" {
        assert x + (t + Power(e, p)) + e == x + (t + (Power(e, p) + e));
      }
    }
  }

  /** Past the window's first part, the window and its shares repeat every |e| samples. */
  lemma {:induction false} SharesRepeat(t: seq<Sample>, e: seq<Sample>, p: nat, i: nat)
    requires |e| <= |t| && e == Last(t, |e|)
    requires var z := t + Power(e, p); |t| - |e| <= i && i + |e| < |z|
    ensures var z := t + Power(e, p); z[i] == z[i + |e|]
  {
    if p > 0 {
      var y := t + Power(e, p - 1);
      assert t + Power(e, p) == y + e;
      if i + |e| < |y| {
        SharesRepeat(t, e, p - 1, i);
      } else {
        assert Last(y, |e|) == e by {
          if p > 1 {
            assert y == (t + Power(e, p - 2)) + e;
          } else {
            assert y == t;
          }
        }
        assert y[i] == Last(y, |e|)[i - (|y| - |e|)];
      }
    }
  }

  lemma {:induction false} PeriodKeeps(t: seq<Sample>, e: seq<Sample>, p: nat)
    requires |e| <= |t| && e == Last(t, |e|) && HasPeriod(t, |e|)
    ensures Last(t + Power(e, p), |t|) == t
  {
    hide HasPeriod;
    if p > 0 {
      PeriodKeeps(t, e, p - 1);
      var y := t + Power(e, p - 1);
      assert t + Power(e, p) == y + e;
      hide Power, Last;
      LastOfLast(y, e, |t|, |t|);
      OneShareMore(t, e);
    } else {
      assert t + Power(e, 0) == t;
    }
  }

  lemma {:induction false} OneShareMore(t: seq<Sample>, e: seq<Sample>)
    requires |e| <= |t| && e == Last(t, |e|) && HasPeriod(t, |e|)
    ensures Last(t + e, |t|) == t
  {
    var r := Last(t + e, |t|);
    forall i | 0 <= i < |t| ensures r[i] == t[i] {
      assert r[i] == (t + e)[|e| + i];
    }
  }

  lemma {:induction false} KeptHasPeriod(t: seq<Sample>, e: seq<Sample>, p: nat, i: nat)
    requires p > 0 && |e| <= |t| && e == Last(t, |e|) && Last(t + Power(e, p), |t|) == t && i < |t| - |e|
    ensures t[i] == t[i + |e|]
    decreases |t| - i
  {
    var z, d := t + Power(e, p), |Power(e, p)|;
    assert d == |Power(e, p - 1)| + |e|;
    assert z[d + i] == t[i] && z[d + i + |e|] == t[i + |e|];
    if d + i >= |t| - |e| {
      SharesRepeat(t, e, p, d + i);
    } else if e != [] {
      assert z[d + i] == t[d + i] && z[d + i + |e|] == t[d + i + |e|];
      KeptHasPeriod(t, e, p, d + i);
    }
  }

  /** All pieces of one instant: the newest window of them is t exactly when no share
      comes after it, or t repeats itself in step with the share. */
  lemma {:induction false} OneInstant(names: seq<string>, a: string, t: seq<Sample>, e: seq<Sample>)
    requires a in names && a != "" && |e| <= |t| && e == Last(t, |e|)
    ensures Last(Pieces(names, a, t, e), |t|) == t <==> EmptyAfter(names, a) == 0 || HasPeriod(t, |e|)
  {
    var p := EmptyAfter(names, a);
    var x := PiecesEnd(names, a, t, e);
    var z := t + Power(e, p);
    assert Last(x + z, |t|) == Last(z, |t|);
    if HasPeriod(t, |e|) {
      PeriodKeeps(t, e, p);
    }
    if p == 0 {
      assert z == t;
    } else if Last(z, |t|) == t {
      forall i | 0 <= i < |t| - |e| ensures t[i] == t[i + |e|] {
        KeptHasPeriod(t, e, p, i);
      }
    }
  }

  // ---- more than one piece ----

  /** How many pieces with samples there are. */
  function PieceCount(names: seq<string>, a: string, e: seq<Sample>): nat {
    TimesIn(names, a) + if e == [] then 0 else TimesIn(names, "")
  }

  lemma {:induction false} OnePiece(names: seq<string>, a: string, t: seq<Sample>, e: seq<Sample>)
    requires a != "" && PieceCount(names, a, e) <= 1
    ensures Pieces(names, a, t, e) == if a in names then t else if PieceCount(names, a, e) == 1 then e else []
  {
    if names != [] {
      assert names == names[..|names| - 1] + [names[|names| - 1]];
      OnePiece(names[..|names| - 1], a, t, e);
    }
  }

  lemma {:induction false} PiecesAreOwn(names: seq<string>, a: string, t: seq<Sample>, e: seq<Sample>, s: Sample)
    requires |e| <= |t| && e == Last(t, |e|)
    ensures s in Pieces(names, a, t, e) ==> s in t
  {
    if names != [] {
      PiecesAreOwn(names[..|names| - 1], a, t, e, s);
    }
  }

  /** Every piece after the first adds samples, and one of the latest instant. */
  lemma {:induction false} MorePieces(names: seq<string>, a: string, t: seq<Sample>, e: seq<Sample>)
    requires a != "" && t != [] && |e| <= |t| && e == Last(t, |e|)
    ensures var u, at, extra := Pieces(names, a, t, e), t[|t| - 1].time, PieceCount(names, a, e);
      && |u| >= (if a in names then |t| + extra - 1 else extra)
      && CountAt(u, at) >= (if a in names then CountAt(t, at) + extra - 1 else extra)
  {
    if names != [] {
      var before, name, at := names[..|names| - 1], names[|names| - 1], t[|t| - 1].time;
      MorePieces(before, a, t, e);
      assert e != [] ==> e[|e| - 1] == t[|t| - 1];
      assert CountAt(t, at) >= 1 && (e != [] ==> CountAt(e, at) >= 1);
      var u := Pieces(before, a, t, e);
      CountConcat(u, t, at);
      CountConcat(u, e, at);
      OneMoreName(names, a, e);
      assert Pieces(names, a, t, e) == u + if name == a then t else if name == "" then e else [];
      assert u + [] == u;
      hide CountAt, Pieces, PieceCount, Last;
    } else {
      assert PieceCount(names, a, e) == 0;
    }
  }

  lemma {:induction false} OneMoreName(names: seq<string>, a: string, e: seq<Sample>)
    requires names != [] && a != ""
    ensures var before, name := names[..|names| - 1], names[|names| - 1];
      && (a in names <==> a in before || name == a)
      && PieceCount(names, a, e) == PieceCount(before, a, e) + if name == a || (name == "" && e != []) then 1 else 0
  {
    assert names == names[..|names| - 1] + [names[|names| - 1]];
  }

  lemma {:induction false} AllSame(t: seq<Sample>, u: seq<Sample>)
    requires TimeOrdered(t) && SameInstant(t) && forall s :: s in u ==> s in t
    ensures TimeOrdered(u)
  {
    forall i, j | 0 <= i < j < |u| ensures u[i].time <= u[j].time {
      assert u[i] in t && u[j] in t;
    }
  }

  /** Two pieces or more, not all of one instant: too many samples of the latest one. */
  lemma {:induction false} TooManyLatest(t: seq<Sample>, u: seq<Sample>)
    requires TimeOrdered(t) && !SameInstant(t) && forall s :: s in u ==> s in t
    requires var at := t[|t| - 1].time; CountAt(u, at) > CountAt(t, at)
    ensures Last(SortByTime(u), |t|) != t
  {
    hide SortByTime, CountAt;
    var at, r := t[|t| - 1].time, SortByTime(u);
    var c := CountAt(t, at);
    SortIsOrdered(u);
    CountSorted(u, at);
    CountIsShort(r, at);
    LatestAreLast(t, at, 0);
    LatestAreLast(t, at, |t| - 1 - c);
    forall j | 0 <= j < |r| ensures r[j].time <= at {
      SortKeepsMembers(u, r[j]);
      assert r[j] in t;
    }
    LatestAreLast(r, at, |r| - 1 - c);
    hide TimeOrdered;
    DiffersAt(r, t, c);
  }

  lemma {:induction false} DiffersAt(r: seq<Sample>, t: seq<Sample>, c: nat)
    requires c < |t| && c < |r| && r[|r| - 1 - c].time != t[|t| - 1 - c].time
    ensures Last(r, |t|) != t
  {
    if |r| >= |t| {
      assert Last(r, |t|)[|t| - 1 - c] == r[|r| - 1 - c];
    }
  }

  lemma {:induction false} CountIsShort(ss: seq<Sample>, at: int)
    ensures CountAt(ss, at) <= |ss|
  {
    if ss != [] {
      CountIsShort(ss[..|ss| - 1], at);
    }
  }

  // ---- the exact condition ----

  /** What is read of anchor a, in time order: what a warm start loads. */
  function Reread(c: Config, db: Db, names: seq<string>, k: string, a: string): seq<Sample>
    requires Effective(c)
  {
    Sub(SortByTime(Recall(db, names, k, c.window)), k, a)
  }

  /** Whether names, with repetitions and empty ones, still give anchor a its window: it
      is read once, or nothing is stored, or the stored window is full, of one instant,
      and no share of an empty name read after it disturbs it. */
  predicate Undisturbed(c: Config, db: Db, names: seq<string>, k: string, a: string)
    requires Effective(c)
  {
    var own, e := Sub(db.samples, k, a), Shared(db, k, a, c.window);
    var t := Last(own, c.window);
    || own == [] || PieceCount(names, a, e) == 1
    || (|own| >= c.window && SameInstant(t) && (EmptyAfter(names, a) == 0 || HasPeriod(t, |e|)))
  }

  /** For any list of names: a warm start rebuilds the window of a configured anchor
      exactly when the names leave it undisturbed. */
  lemma {:induction false} WindowSurvivesExactly(c: Config, db: Db, names: seq<string>, k: string, a: string)
    requires Effective(c) && TimeOrdered(db.samples) && k != "" && a != "" && a in names
    requires forall s :: s in db.samples ==> Accepted(s)
    ensures Last(Reread(c, db, names, k, a), c.window) == Last(Sub(db.samples, k, a), c.window)
      <==> Undisturbed(c, db, names, k, a)
  {
    var own, e := Sub(db.samples, k, a), Shared(db, k, a, c.window);
    SubOfSort(Recall(db, names, k, c.window), k, a);
    RecallIsPieces(db, names, k, c.window, a);
    SharedIsSuffix(db, k, a, c.window);
    SubOrdered(db.samples, k, a);
    LastOrdered(own, c.window);
    LastOfLast(own, [], c.window, |e|);
    hide Sub, Shared, Recall, SortByTime, TimeOrdered;
    PiecesSurvive(c.window, own, e, names, a);
  }

  lemma {:induction false} PiecesSurvive(window: nat, own: seq<Sample>, e: seq<Sample>, names: seq<string>, a: string)
    requires window > 0 && a != "" && a in names
    requires var t := Last(own, window); TimeOrdered(t) && |e| <= |t| && e == Last(t, |e|)
    ensures var t := Last(own, window);
      Last(SortByTime(Pieces(names, a, t, e)), window) == t <==>
        || own == [] || PieceCount(names, a, e) == 1
        || (|own| >= window && SameInstant(t) && (EmptyAfter(names, a) == 0 || HasPeriod(t, |e|)))
  {
    hide SortByTime, Pieces, PieceCount, EmptyAfter, HasPeriod, TimeOrdered;
    var t := Last(own, window);
    var u := Pieces(names, a, t, e);
    if own == [] {
      NoPieces(names, a);
    } else if PieceCount(names, a, e) <= 1 {
      OnePiece(names, a, t, e);
      AtLeastOne(names, a, e);
      SortOrdered(t);
    } else {
      MorePieces(names, a, t, e);
      forall s | s in u ensures s in t {
        PiecesAreOwn(names, a, t, e, s);
      }
      if |own| >= window {
        if SameInstant(t) {
          AllSame(t, u);
          SortOrdered(u);
          OneInstant(names, a, t, e);
        } else {
          TooManyLatest(t, u);
        }
      }
    }
  }

  lemma {:induction false} AtLeastOne(names: seq<string>, a: string, e: seq<Sample>)
    requires a in names
    ensures PieceCount(names, a, e) >= 1
  {
  }

  lemma {:induction false} NoPieces(names: seq<string>, a: string)
    ensures Pieces(names, a, [], []) == [] && SortByTime([]) == []
  {
    if names != [] {
      NoPieces(names[..|names| - 1], a);
    }
  }

  /** With samples at distinct instants: once, nothing stored, or a window of one. */
  lemma {:induction false} DistinctInstants(c: Config, db: Db, names: seq<string>, k: string, a: string)
    requires Effective(c) && TimeOrdered(db.samples) && k != "" && a != "" && a in names
    requires forall s :: s in db.samples ==> Accepted(s)
    requires var own := Sub(db.samples, k, a); forall i, j :: 0 <= i < j < |own| ==> own[i].time < own[j].time
    ensures Last(Reread(c, db, names, k, a), c.window) == Last(Sub(db.samples, k, a), c.window) <==>
      || Sub(db.samples, k, a) == [] || c.window == 1
      || PieceCount(names, a, Shared(db, k, a, c.window)) == 1
  {
    hide Reread, Sub, Shared, PieceCount, EmptyAfter;
    WindowSurvivesExactly(c, db, names, k, a);
    SharedIsSuffix(db, k, a, c.window);
  }

  // ---- what a warm start makes of it ----

  lemma {:induction false} RecallOfKey(db: Db, names: seq<string>, k: string, limit: nat, s: Sample)
    requires s in Recall(db, names, k, limit)
    ensures s.key == k && s in db.samples
  {
    var before, name := names[..|names| - 1], names[|names| - 1];
    if s in Recall(db, before, k, limit) {
      RecallOfKey(db, before, k, limit, s);
    } else {
      var from := if name == "" then SubKey(db.samples, k) else Sub(db.samples, k, name);
      assert s in SortByTime(from);
      SortKeepsMembers(from, s);
      SubKeyMembers(db.samples, k, s);
      SubMembers(db.samples, k, name, s);
    }
  }

  /** Stored baselines leave the samples alone. */
  lemma {:induction false} BaselinesKeepSamples(keys: Keys, bs: seq<Baseline>, k: string, a: string)
    requires k in keys && a in keys[k].anchors
    ensures var mid := LoadBaselines(keys, bs);
      k in mid && a in mid[k].anchors && mid[k].anchors[a].samples == keys[k].anchors[a].samples
  {
    if bs != [] {
      BaselinesKeepSamples(keys, bs[..|bs| - 1], k, a);
    }
  }

  /** For any names: the window a warm start gives a configured anchor with stored
      samples is the newest part of what was read of it. */
  lemma {:induction false} WarmedWindow(c: Config, names: seq<string>, w: World, k: string, bs: seq<Baseline>, w': World, a: string)
    requires Effective(c) && Warmed(c, names, w, k, bs, w')
    requires TimeOrdered(w.db.samples) && (forall s :: s in w.db.samples ==> Accepted(s))
    requires k != "" && a != "" && a in names && Sub(w.db.samples, k, a) != []
    ensures k in w'.keys && a in w'.keys[k].anchors
    ensures w'.keys[k].anchors[a].samples == Last(Reread(c, w.db, names, k, a), c.window)
  {
    var ss := Recall(w.db, names, k, c.window);
    var sorted, keys := SortByTime(ss), w.keys - {k};
    forall s | s in sorted ensures s.key == k && Accepted(s) && s in ss {
      SortKeepsMembers(ss, s);
      RecallOfKey(w.db, names, k, c.window, s);
    }
    WarmRuns.LoadSamplesCollects(keys, sorted, k);
    SomethingIsRead(c, w.db, names, k, a);
    SubMembers(sorted, k, a, Sub(sorted, k, a)[0]);
    assert sorted != [];
    BaselinesKeepSamples(LoadSamples(keys, sorted), bs, k, a);
    KeyIsTouched(bs, ss, sorted, k);
  }

  lemma {:induction false} KeyIsTouched(bs: seq<Baseline>, ss: seq<Sample>, sorted: seq<Sample>, k: string)
    requires sorted != [] && forall s :: s in sorted ==> s.key == k && Accepted(s) && s in ss
    ensures k in Touched(bs, ss)
  {
    assert sorted[0] in ss;
  }

  lemma {:induction false} SomethingIsRead(c: Config, db: Db, names: seq<string>, k: string, a: string)
    requires Effective(c) && TimeOrdered(db.samples) && k != "" && a != "" && a in names && Sub(db.samples, k, a) != []
    requires forall s :: s in db.samples ==> Accepted(s)
    ensures Reread(c, db, names, k, a) != []
  {
    var own, e := Sub(db.samples, k, a), Shared(db, k, a, c.window);
    SubOfSort(Recall(db, names, k, c.window), k, a);
    RecallIsPieces(db, names, k, c.window, a);
    SharedIsSuffix(db, k, a, c.window);
    LastOfLast(own, [], c.window, |e|);
    MorePieces(names, a, Last(own, c.window), e);
    AtLeastOne(names, a, e);
  }

  // ---- witnesses ----

  /** A window of two, two stored samples, and the anchor's name twice, or once and an
      empty name: the older sample is gone and the newer is there twice. */
  lemma {:induction false} TwiceReadIsDoubled(c: Config, k: string, a: string, s1: Sample, s2: Sample, second: string)
    requires Effective(c) && c.window == 2 && k != "" && a != "" && (second == a || second == "")
    requires Hit(s1, k, a) && Hit(s2, k, a) && s1.time < s2.time
    ensures var db := Db([s1, s2], map[]);
      && Last(Sub(db.samples, k, a), c.window) == [s1, s2]
      && Last(Reread(c, db, [a, second], k, a), c.window) == [s2, s2]
  {
    hide *;
    var db, t := Db([s1, s2], map[]), [s1, s2];
    TwoAreStored(k, a, s1, s2);
    TwoAreShared(db, k, a, s1, s2);
    TwoInOrder(s1, s2);
    ReadIsPieces(c, db, [a, second], k, a);
    LastTwo(s1, s2);
    TwoPieces(a, second, t);
    SortTwice(s1, s2);
  }

  lemma {:induction false} TwoInOrder(s1: Sample, s2: Sample)
    requires s1.time < s2.time
    ensures TimeOrdered([s1, s2])
  {
  }

  lemma {:induction false} LastTwo(s1: Sample, s2: Sample)
    ensures Last([s1, s2], 2) == [s1, s2] && Last([s1, s1, s2, s2], 2) == [s2, s2]
  {
  }

  lemma {:induction false} ReadIsPieces(c: Config, db: Db, names: seq<string>, k: string, a: string)
    requires Effective(c) && TimeOrdered(db.samples) && a != ""
    ensures Reread(c, db, names, k, a)
         == SortByTime(Pieces(names, a, Last(Sub(db.samples, k, a), c.window), Shared(db, k, a, c.window)))
  {
    hide Sub, Recall, Shared, SortByTime, Pieces, TimeOrdered;
    SubOfSort(Recall(db, names, k, c.window), k, a);
    RecallIsPieces(db, names, k, c.window, a);
  }

  lemma {:induction false} TwoPieces(a: string, second: string, t: seq<Sample>)
    requires second == a || second == ""
    ensures Pieces([a, second], a, t, t) == t + t
  {
    assert [a, second][..1] == [a] && [a][..0] == [];
    assert Pieces([a], a, t, t) == t;
  }

  lemma {:induction false} TwoAreStored(k: string, a: string, s1: Sample, s2: Sample)
    requires Hit(s1, k, a) && Hit(s2, k, a)
    ensures Sub([s1, s2], k, a) == [s1, s2]
  {
    assert [s1, s2] == [s1] + [s2];
    SubConcat([s1], [s2], k, a);
    SubOne(s1, k, a);
    SubOne(s2, k, a);
  }

  lemma {:induction false} TwoAreShared(db: Db, k: string, a: string, s1: Sample, s2: Sample)
    requires db.samples == [s1, s2] && k != "" && a != "" && Hit(s1, k, a) && Hit(s2, k, a) && s1.time < s2.time
    ensures Shared(db, k, a, 2) == [s1, s2]
  {
    hide SubKey, Sub, SortByTime;
    TwoOfKey(k, a, s1, s2);
    TwoInOrder(s1, s2);
    SortOrdered([s1, s2]);
    TwoAreStored(k, a, s1, s2);
  }

  lemma {:induction false} TwoOfKey(k: string, a: string, s1: Sample, s2: Sample)
    requires k != "" && a != "" && Hit(s1, k, a) && Hit(s2, k, a)
    ensures SubKey([s1, s2], k) == [s1, s2]
  {
    var one, two := [s1], [s1, s2];
    assert two[..1] == one && one[..0] == [];
    assert SubKey(one, k) == [] + [s1] == one;
    assert SubKey(two, k) == SubKey(one, k) + [s2];
  }

  lemma {:induction false} SortTwice(s1: Sample, s2: Sample)
    requires s1.time < s2.time
    ensures SortByTime([s1, s2] + [s1, s2]) == [s1, s1, s2, s2]
  {
    SortOrdered([s1, s2]);
    SortCons(s2, [s1, s2]);
    assert [s2] + [s1, s2] == [s2, s1, s2];
    assert [s1, s2][1..] == [s2];
    assert InsertByTime(s2, [s1, s2]) == [s1] + InsertByTime(s2, [s2]) == [s1, s2, s2];
    SortCons(s1, [s2, s1, s2]);
    assert [s1] + [s2, s1, s2] == [s1, s2] + [s1, s2];
    assert InsertByTime(s1, [s1, s2, s2]) == [s1, s1, s2, s2];
  }
}
