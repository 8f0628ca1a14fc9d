/** Order statistics of internal/monitor/engine.go: the median of the answered
    round-trip times, and how many outliers it withstands. */
module Median {

  ghost predicate Sorted(s: seq<real>) {
    forall i, j :: 0 <= i < j < |s| ==> s[i] <= s[j]
  }

  function Insert(x: real, s: seq<real>): (r: seq<real>)
    ensures |r| == |s| + 1
    ensures r[0] == if s == [] || x <= s[0] then x else s[0]
  {
    if s == [] || x <= s[0] then [x] + s else [s[0]] + Insert(x, s[1..])
  }

  lemma {:induction false} InsertMultiset(x: real, s: seq<real>)
    ensures multiset(Insert(x, s)) == multiset(s) + multiset{x}
  {
    if s != [] && x > s[0] {
      InsertMultiset(x, s[1..]);
      assert s == [s[0]] + s[1..];
    }
  }

  lemma {:induction false} SortedCons(x: real, s: seq<real>)
    requires Sorted(s) && (s != [] ==> x <= s[0])
    ensures Sorted([x] + s)
  {
    var r := [x] + s;
    forall i, j | 0 <= i < j < |r| ensures r[i] <= r[j] {
      assert r[j] == s[j - 1] && s[0] <= s[j - 1];
      assert i > 0 ==> r[i] == s[i - 1];
    }
  }

  lemma {:induction false} SortedTail(s: seq<real>)
    requires Sorted(s) && s != []
    ensures Sorted(s[1..])
    ensures |s| > 1 ==> s[0] <= s[1..][0]
  {
  }

  lemma {:induction false} InsertSorted(x: real, s: seq<real>)
    requires Sorted(s)
    ensures Sorted(Insert(x, s))
  {
    if s == [] || x <= s[0] {
      SortedCons(x, s);
    } else {
      SortedTail(s);
      InsertSorted(x, s[1..]);
      SortedCons(s[0], Insert(x, s[1..]));
    }
  }

  /** What sort.Float64s leaves behind: the ascending rearrangement. */
  function Sort(s: seq<real>): (r: seq<real>)
    ensures Sorted(r)
    ensures multiset(r) == multiset(s)
    ensures |r| == |s|
  {
    if s == [] then []
    else
      var t := Sort(s[1..]);
      assert s == [s[0]] + s[1..];
      InsertMultiset(s[0], t);
      InsertSorted(s[0], t);
      Insert(s[0], t)
  }

  /** The middle of the sorted values, the mean of the two middle ones for an
      even count, and -1 for no values at all. */
  function MedianOf(vals: seq<real>): real {
    if vals == [] then -1.0
    else
      var sorted := Sort(vals);
      var n := |sorted|;
      if n % 2 == 1 then sorted[n / 2] else (sorted[n / 2 - 1] + sorted[n / 2]) / 2.0
  }

  predicate Within(x: real, lo: real, hi: real) { lo <= x <= hi }

  function CountIn(s: seq<real>, lo: real, hi: real): (n: nat)
    ensures n <= |s|
  {
    if s == [] then 0 else (if Within(s[0], lo, hi) then 1 else 0) + CountIn(s[1..], lo, hi)
  }

  lemma {:induction false} CountInsert(x: real, s: seq<real>, lo: real, hi: real)
    ensures CountIn(Insert(x, s), lo, hi) == CountIn([x], lo, hi) + CountIn(s, lo, hi)
  {
    if s == [] || x <= s[0] {
      assert ([x] + s)[1..] == s;
    } else {
      CountInsert(x, s[1..], lo, hi);
      assert ([s[0]] + Insert(x, s[1..]))[1..] == Insert(x, s[1..]);
    }
  }

  lemma {:induction false} CountSort(s: seq<real>, lo: real, hi: real)
    ensures CountIn(Sort(s), lo, hi) == CountIn(s, lo, hi)
  {
    if s != [] {
      CountSort(s[1..], lo, hi);
      CountInsert(s[0], Sort(s[1..]), lo, hi);
    }
  }

  lemma {:induction false} CountSplit(s: seq<real>, k: nat, lo: real, hi: real)
    requires k <= |s|
    ensures CountIn(s, lo, hi) == CountIn(s[..k], lo, hi) + CountIn(s[k..], lo, hi)
  {
    if k == 0 {
      assert s[..0] == [] && s[0..] == s;
    } else {
      CountSplit(s[1..], k - 1, lo, hi);
      assert s[1..][..k - 1] == s[..k][1..];
      assert s[1..][k - 1..] == s[k..];
    }
  }

  lemma {:induction false} CountNone(s: seq<real>, lo: real, hi: real)
    requires forall i :: 0 <= i < |s| ==> !Within(s[i], lo, hi)
    ensures CountIn(s, lo, hi) == 0
  {
    if s != [] {
      CountNone(s[1..], lo, hi);
    }
  }

  /** A value of a sorted sequence that lies outside [lo, hi] puts everything on
      its far side outside too. */
  lemma {:induction false} OutsideBounds(s: seq<real>, k: nat, lo: real, hi: real)
    requires Sorted(s) && k < |s|
    ensures s[k] < lo ==> CountIn(s, lo, hi) <= |s| - k - 1
    ensures s[k] > hi ==> CountIn(s, lo, hi) <= k
  {
    if s[k] < lo {
      CountSplit(s, k + 1, lo, hi);
      CountNone(s[..k + 1], lo, hi);
    }
    if s[k] > hi {
      CountSplit(s, k, lo, hi);
      CountNone(s[k..], lo, hi);
    }
  }

  /** If strictly more than half of the values lie in [lo, hi], so does the
      median, whatever the other values are. */
  lemma {:induction false} MedianRobust(vals: seq<real>, lo: real, hi: real)
    requires 2 * CountIn(vals, lo, hi) > |vals|
    ensures Within(MedianOf(vals), lo, hi)
  {
    var s := Sort(vals);
    CountSort(vals, lo, hi);
    MiddleWithin(s, |s| / 2, lo, hi);
    if |s| % 2 == 0 {
      MiddleWithin(s, |s| / 2 - 1, lo, hi);
    }
  }

  lemma {:induction false} MiddleWithin(s: seq<real>, k: nat, lo: real, hi: real)
    requires Sorted(s) && k < |s|
    requires 2 * CountIn(s, lo, hi) > |s|
    requires 2 * k <= |s| <= 2 * k + 2
    ensures Within(s[k], lo, hi)
  {
    OutsideBounds(s, k, lo, hi);
  }

  /** Two ascending sequences with the same elements are the same sequence. */
  lemma {:induction false} SortedUnique(s: seq<real>, t: seq<real>)
    requires Sorted(s) && Sorted(t) && multiset(s) == multiset(t)
    ensures s == t
  {
    assert |multiset(s)| == |s| && |multiset(t)| == |t|;
    if s != [] {
      SameMinimum(s, t);
      assert s == [s[0]] + s[1..] && t == [t[0]] + t[1..];
      assert multiset(s[1..]) == multiset(s) - multiset{s[0]};
      assert multiset(t[1..]) == multiset(t) - multiset{t[0]};
      SortedTail(s);
      SortedTail(t);
      SortedUnique(s[1..], t[1..]);
    }
  }

  lemma {:induction false} SameMinimum(s: seq<real>, t: seq<real>)
    requires Sorted(s) && Sorted(t) && multiset(s) == multiset(t) && s != [] && t != []
    ensures s[0] == t[0]
  {
    assert s[0] in multiset(t) && t[0] in multiset(s);
    var i :| 0 <= i < |t| && t[i] == s[0];
    var j :| 0 <= j < |s| && s[j] == t[0];
  }

  /** The median depends on the values only, not on the order they came in. */
  lemma {:induction false} MedianOrderFree(s: seq<real>, t: seq<real>)
    requires multiset(s) == multiset(t)
    ensures MedianOf(s) == MedianOf(t)
  {
    assert |multiset(s)| == |s| && |multiset(t)| == |t|;
    SortedUnique(Sort(s), Sort(t));
  }

  /** Whatever way the values are brought into ascending order, the median is the middle
      one, or the mean of the two in the middle. */
  lemma {:induction false} MedianIsMiddle(vals: seq<real>, t: seq<real>)
    requires vals != [] && Sorted(t) && multiset(t) == multiset(vals)
    ensures |t| == |vals|
    ensures MedianOf(vals) == if |t| % 2 == 1 then t[|t| / 2] else (t[|t| / 2 - 1] + t[|t| / 2]) / 2.0
  {
    assert |multiset(t)| == |t| && |multiset(vals)| == |vals|;
    SortedUnique(Sort(vals), t);
  }
}
