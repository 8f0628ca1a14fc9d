/** What the output filter does over whole inputs and whole sequences of writes. */
module SafeRuns {
  import opened SafeWriter

  // ---- which bytes survive ----

  // The bytes are written out here, not taken from the filter's own classes: 27 is ESC,
  // '[' 91, 'm' 109, the digits 48 to 57, ':' 58 and ';' 59, tab 9, newline 10, DEL 127,
  // and 194 followed by 128 to 159 an encoded C1 control.

  /** A complete SGR sequence starts at i: ESC, '[', parameter bytes, 'm'. */
  ghost predicate StartsSgr(s: seq<Byte>, i: nat) {
    && i + 1 < |s| && s[i] == 27 && s[i + 1] == 91
    && exists j :: SgrTo(s, i, j)
  }

  predicate SgrTo(s: seq<Byte>, i: nat, j: int) {
    i + 2 <= j < |s| && s[j] == 109 && forall k :: i + 2 <= k < j ==> 48 <= s[k] <= 59
  }

  predicate IsPair(s: seq<Byte>, i: int) { 0 <= i && i + 1 < |s| && s[i] == 194 && 128 <= s[i + 1] <= 159 }

  /** The bytes the filter takes out: an ESC that starts no SGR sequence, any other
      control byte but newline and tab, and both bytes of an encoded C1 control. */
  ghost predicate Dropped(s: seq<Byte>, i: nat)
    requires i < |s|
  {
    if s[i] == 27 then !StartsSgr(s, i)
    else (s[i] < 32 && s[i] != 9 && s[i] != 10) || s[i] == 127 || IsPair(s, i) || IsPair(s, i - 1)
  }

  /** The bytes of s from i on that are not dropped, in order. */
  ghost function Survivors(s: seq<Byte>, i: nat): seq<Byte>
    requires i <= |s|
    decreases |s| - i
  {
    if i == |s| then []
    else (if Dropped(s, i) then [] else [s[i]]) + Survivors(s, i + 1)
  }

  lemma {:induction false} EscapeKeepsSgr(s: seq<Byte>, i: nat)
    requires i < |s| && s[i] == ESC
    ensures Escape(s[i..]).Keep? <==> StartsSgr(s, i)
    ensures Escape(s[i..]).Keep? ==> SgrTo(s, i, i + Escape(s[i..]).n - 1)
  {
    hide Params;
    var t := s[i..];
    if |t| > 1 && t[1] == BRACKET {
      var u := t[2..];
      var n := Params(u);
      assert forall k :: 0 <= k < |u| ==> u[k] == s[i + 2 + k];
      if StartsSgr(s, i) {
        var j :| SgrTo(s, i, j);
        assert u[j - i - 2] == s[j];
        assert forall k :: 0 <= k < j - i - 2 ==> IsParam(u[k]);
        ParamsAre(u, j - i - 2);
      }
      if n < |u| && u[n] == FINAL {
        assert forall k :: i + 2 <= k < i + 2 + n ==> s[k] == u[k - i - 2];
        assert SgrTo(s, i, i + 2 + n);
      }
    }
  }

  /** A stretch without ESC, control bytes and encoded C1 controls survives whole. */
  lemma {:induction false} StretchSurvives(s: seq<Byte>, i: nat, j: nat)
    requires i <= j <= |s| && forall k :: i <= k < j ==> !Dropped(s, k)
    ensures Survivors(s, i) == s[i..j] + Survivors(s, j)
    decreases j - i
  {
    hide Dropped;
    if i < j {
      StretchSurvives(s, i + 1, j);
      assert Survivors(s, i) == [s[i]] + Survivors(s, i + 1);
      hide Survivors;
      assert s[i..j] == [s[i]] + s[i + 1..j];
    } else {
      assert s[i..j] == [];
    }
  }

  lemma {:induction false} SgrSurvives(s: seq<Byte>, i: nat, j: nat)
    requires i + 1 < |s| && s[i] == ESC && s[i + 1] == BRACKET && SgrTo(s, i, j)
    ensures forall k :: i <= k <= j ==> !Dropped(s, k)
  {
    assert StartsSgr(s, i);
  }

  lemma {:induction false} KeptFront(s: seq<Byte>, i: nat, n: nat)
    requires i < |s| && 0 < n <= |s| - i && Front(s[i..]) == Keep(n)
    requires forall k :: i <= k < i + n ==> !Dropped(s, k)
    requires Sanitize(s[i + n..], true) == (Survivors(s, i + n), [])
    ensures Sanitize(s[i..], true) == (Survivors(s, i), [])
  {
    hide Front, Dropped, Survivors;
    StretchSurvives(s, i, i + n);
    assert s[i..][n..] == s[i + n..] && s[i..][..n] == s[i..i + n];
  }

  lemma {:induction false} DroppedFront(s: seq<Byte>, i: nat, n: nat)
    requires i < |s| && 0 < n <= |s| - i && n <= 2
    requires Front(s[i..]) == Drop(n) || (Front(s[i..]) == Open && n == 1)
    requires forall k :: i <= k < i + n ==> Dropped(s, k)
    requires Sanitize(s[i + n..], true) == (Survivors(s, i + n), [])
    ensures Sanitize(s[i..], true) == (Survivors(s, i), [])
  {
    hide Front, Dropped;
    assert s[i..][n..] == s[i + n..];
    assert [] + Survivors(s, i + n) == Survivors(s, i + n);
    assert [] + Survivors(s, i + 1) == Survivors(s, i + 1);
  }

  /** Filtering a whole input keeps exactly the bytes that are not dropped. */
  lemma {:induction false} FilterIsExact(s: seq<Byte>, i: nat)
    requires i <= |s| && !IsPair(s, i - 1)
    ensures Sanitize(s[i..], true) == (Survivors(s, i), [])
    decreases |s| - i
  {
    hide Escape, StartsSgr, Survivors, Sanitize;
    if i == |s| {
      NoneSurvive(s);
      return;
    }
    var t := s[i..];
    assert t[0] == s[i] && (|t| > 1 ==> t[1] == s[i + 1]);
    var p := Front(t);
    if s[i] == ESC {
      EscapeKeepsSgr(s, i);
      if p.Keep? {
        EscapeBracket(s, i);
        SgrSurvives(s, i, i + p.n - 1);
        FilterIsExact(s, i + p.n);
        KeptFront(s, i, p.n);
      } else {
        FilterIsExact(s, i + 1);
        DroppedFront(s, i, 1);
      }
    } else if p.Drop? {
      FilterIsExact(s, i + p.n);
      DroppedFront(s, i, p.n);
    } else {
      FilterIsExact(s, i + 1);
      KeptFront(s, i, 1);
    }
  }

  lemma {:induction false} NoneSurvive(s: seq<Byte>)
    ensures Survivors(s, |s|) == [] && Sanitize(s[|s|..], true) == ([], [])
  {
  }

  lemma {:induction false} EscapeBracket(s: seq<Byte>, i: nat)
    requires StartsSgr(s, i)
    ensures s[i + 1] == BRACKET
  {
  }

  /** The batch filter, stated for a whole buffer. */
  lemma {:induction false} BatchIsExact(s: seq<Byte>)
    ensures Sanitize(s, true) == (Survivors(s, 0), [])
  {
    FilterIsExact(s, 0);
    assert s[0..] == s;
  }

  // ---- the tail that is held ----

  /** ESC, or ESC '[' followed by parameter bytes. */
  predicate IsTail(h: seq<Byte>) {
    && h != [] && h[0] == 27 && (|h| > 1 ==> h[1] == 91)
    && forall k :: 2 <= k < |h| ==> 48 <= h[k] <= 59
  }

  lemma {:induction false} HeldTail(s: seq<Byte>, final: bool)
    ensures var h := Sanitize(s, final).1;
      && (h == [] || (IsTail(h) && !final))
      && |h| <= |s| && h == s[|s| - |h|..]
    decreases |s|
  {
    if s != [] {
      var p := Front(s);
      if p.Open? {
        OpenIsTail(s);
        if final {
          HeldTail(s[1..], final);
        }
      } else {
        hide Front;
        HeldTail(s[p.n..], final);
      }
    }
  }

  lemma {:induction false} OpenIsTail(s: seq<Byte>)
    requires s != [] && Front(s).Open?
    ensures IsTail(s)
  {
    if |s| > 1 {
      assert forall k :: 2 <= k < |s| ==> s[k] == s[2..][k - 2];
    }
  }

  // ---- a cut in the input ----

  /** The cut between a and b separates the two bytes of an encoded C1 control. */
  predicate Cuts(a: seq<Byte>, b: seq<Byte>) { a != [] && b != [] && a[|a| - 1] == 194 && 128 <= b[0] <= 159 }

  lemma {:induction false} ParamsExtend(a: seq<Byte>, b: seq<Byte>)
    requires Params(a) < |a|
    ensures Params(a + b) == Params(a)
  {
    hide Params;
    assert forall k :: 0 <= k < |a| ==> (a + b)[k] == a[k];
    ParamsAre(a + b, Params(a));
  }

  /** Once the front is decided, more input does not change it, unless it was a lone
      lead byte and the input goes on with a C1 byte. */
  lemma {:induction false} FrontExtends(a: seq<Byte>, b: seq<Byte>)
    requires a != [] && !Front(a).Open?
    ensures !(|a| == 1 && Cuts(a, b)) ==> Front(a + b) == Front(a)
    ensures |a| == 1 && Cuts(a, b) ==> Front(a) == Keep(1) && Front(a + b) == Drop(2)
  {
    assert (a + b)[0] == a[0] && (|a| > 1 ==> (a + b)[1] == a[1]);
    assert |a| == 1 && b != [] ==> (a + b)[1] == b[0];
    if a[0] == ESC && |a| > 1 && a[1] == BRACKET {
      hide Params;
      ParamsExtend(a[2..], b);
      assert (a + b)[2..] == a[2..] + b;
    }
  }

  /** Filtering a, then what a left open together with b, is filtering a + b, except
      that a cut C1 control stays: two bytes more. */
  predicate CutAt(a: seq<Byte>, b: seq<Byte>, final: bool) {
    var (out, hold) := Sanitize(a, false);
    var (rest, tail) := Sanitize(hold + b, final);
    var (whole, end) := Sanitize(a + b, final);
    && tail == end
    && (!Cuts(a, b) ==> whole == out + rest)
    && (Cuts(a, b) ==> |out + rest| == |whole| + 2)
  }

  lemma {:induction false} CutOnce(a: seq<Byte>, b: seq<Byte>, final: bool)
    ensures CutAt(a, b, final)
    decreases |a|
  {
    hide Front, Sanitize, CutAt;
    if a == [] {
      CutNothing(b, final);
    } else if Front(a).Open? {
      CutOpen(a, b, final);
    } else {
      FrontExtends(a, b);
      if |a| == 1 && Cuts(a, b) {
        CutPair(a, b, final);
      } else {
        CutOnce(a[Front(a).n..], b, final);
        CutsLater(a, b, Front(a).n);
        CutMore(a, b, final);
      }
    }
  }

  lemma {:induction false} CutNothing(b: seq<Byte>, final: bool)
    ensures CutAt([], b, final)
  {
    assert Sanitize([], false) == ([], []);
    hide Sanitize;
    assert [] + b == b && [] + Sanitize(b, final).0 == Sanitize(b, final).0;
  }

  lemma {:induction false} CutOpen(a: seq<Byte>, b: seq<Byte>, final: bool)
    requires a != [] && Front(a).Open?
    ensures CutAt(a, b, final)
  {
    OpenIsTail(a);
    hide Front;
    assert Sanitize(a, false) == ([], a);
    hide Sanitize;
    assert [] + Sanitize(a + b, final).0 == Sanitize(a + b, final).0;
  }

  /** One piece more in front of the cut. */
  lemma {:induction false} CutMore(a: seq<Byte>, b: seq<Byte>, final: bool)
    requires a != [] && !Front(a).Open? && Front(a + b) == Front(a)
    requires var n := Front(a).n; CutAt(a[n..], b, final) && (Cuts(a[n..], b) <==> Cuts(a, b))
    ensures CutAt(a, b, final)
  {
    hide Front, Cuts, Sanitize;
    var p := Front(a);
    var kept := if p.Keep? then a[..p.n] else [];
    assert (a + b)[p.n..] == a[p.n..] + b && (a + b)[..p.n] == a[..p.n];
    OnePieceOff(a, false);
    OnePieceOff(a + b, final);
    var out, rest := Sanitize(a[p.n..], false).0, Sanitize(Sanitize(a[p.n..], false).1 + b, final).0;
    assert kept + out + rest == kept + (out + rest);
  }

  lemma {:induction false} OnePieceOff(s: seq<Byte>, final: bool)
    requires s != [] && !Front(s).Open?
    ensures var p := Front(s);
      var (out, hold) := Sanitize(s[p.n..], final);
      Sanitize(s, final) == ((if p.Keep? then s[..p.n] else []) + out, hold)
  {
    hide Front;
    var out := Sanitize(s[Front(s).n..], final).0;
    assert [] + out == out;
  }

  lemma {:induction false} CutPair(a: seq<Byte>, b: seq<Byte>, final: bool)
    requires |a| == 1 && Cuts(a, b)
    ensures CutAt(a, b, final)
  {
    assert Front(b) == Keep(1) && Front(a + b) == Drop(2) && Front(a) == Keep(1);
    hide Front;
    assert a[1..] == [] && a[..1] + [] == a && [] + b == b && b[..1] == [b[0]];
    assert (a + b)[2..] == b[1..];
    assert Sanitize(a, false) == (a, []);
    assert Sanitize(b, final) == ([b[0]] + Sanitize(a + b, final).0, Sanitize(a + b, final).1);
    hide Sanitize;
  }

  lemma {:induction false} CutsLater(a: seq<Byte>, b: seq<Byte>, n: nat)
    requires a != [] && !Front(a).Open? && n == Front(a).n && !(|a| == 1 && Cuts(a, b))
    ensures Cuts(a[n..], b) <==> Cuts(a, b)
  {
    hide Params;
    if n < |a| {
      assert a[n..][|a| - n - 1] == a[|a| - 1];
    } else if a[0] == ESC && Front(a).Keep? {
      assert a[n - 1] == FINAL;
    }
  }

  // ---- whole sequences of writes ----

  function Whole(chunks: seq<seq<Byte>>): seq<Byte> {
    if chunks == [] then [] else Whole(chunks[..|chunks| - 1]) + chunks[|chunks| - 1]
  }

  /** What the sink has received and what is held after the writes. */
  function Written(chunks: seq<seq<Byte>>): (seq<Byte>, seq<Byte>) {
    if chunks == [] then ([], [])
    else
      var (sink, hold) := Written(chunks[..|chunks| - 1]);
      var (out, rest) := Sanitize(hold + chunks[|chunks| - 1], false);
      (sink + out, rest)
  }

  /** The sink after the writes and a Flush. */
  function Streamed(chunks: seq<seq<Byte>>): seq<Byte> {
    Written(chunks).0 + Sanitize(Written(chunks).1, true).0
  }

  /** How many encoded C1 controls the write boundaries cut in two. */
  function CutCount(chunks: seq<seq<Byte>>): nat {
    if chunks == [] then 0
    else
      var before := chunks[..|chunks| - 1];
      CutCount(before) + if Cuts(Whole(before), chunks[|chunks| - 1]) then 1 else 0
  }

  lemma {:induction false} WrittenSoFar(chunks: seq<seq<Byte>>)
    ensures var (sink, hold) := Written(chunks);
      var (out, rest) := Sanitize(Whole(chunks), false);
      && hold == rest
      && |sink| == |out| + 2 * CutCount(chunks)
      && (CutCount(chunks) == 0 ==> sink == out)
  {
    if chunks != [] {
      hide Sanitize, Cuts;
      var before, last := chunks[..|chunks| - 1], chunks[|chunks| - 1];
      WrittenSoFar(before);
      CutOnce(Whole(before), last, false);
    } else {
      assert Sanitize([], false) == ([], []);
    }
  }

  /** Streaming is batch filtering exactly when no write boundary cuts an encoded C1
      control in two; each cut lets its two bytes through. */
  lemma {:induction false} StreamIsBatch(chunks: seq<seq<Byte>>)
    ensures var batch := Sanitize(Whole(chunks), true).0;
      && |Streamed(chunks)| == |batch| + 2 * CutCount(chunks)
      && (Streamed(chunks) == batch <==> CutCount(chunks) == 0)
  {
    hide Sanitize, Written, Whole, CutCount;
    WrittenSoFar(chunks);
    CutOnce(Whole(chunks), [], true);
    var hold := Written(chunks).1;
    assert hold + [] == hold && Whole(chunks) + [] == Whole(chunks);
  }

  /** The guard is needed: one encoded C1 control split over two writes. */
  lemma {:induction false} CutControlPasses(c: Byte)
    requires IsC1(c)
    ensures Streamed([[LEAD], [c]]) == [LEAD, c] && Sanitize(Whole([[LEAD], [c]]), true).0 == []
  {
    var chunks: seq<seq<Byte>> := [[LEAD], [c]];
    assert chunks[..1] == [[LEAD]] && chunks[..1][..0] == [];
    assert Whole(chunks[..1]) == [LEAD] && Whole(chunks) == [LEAD, c];
    assert [LEAD, c][2..] == [];
    SingleByte(LEAD);
    SingleByte(c);
    assert [] + [LEAD] == [LEAD] && [] + [c] == [c];
    assert Written(chunks[..1]) == ([LEAD], []);
    assert Written(chunks) == ([LEAD, c], []);
  }

  lemma {:induction false} SingleByte(b: Byte)
    requires b == LEAD || IsC1(b)
    ensures Sanitize([b], false) == ([b], [])
  {
    assert [b][1..] == [] && [b][..1] + [] == [b];
  }

  // ---- what reaches the terminal ----

  /** Every one-byte control of s is a newline, a tab, or the ESC of a complete SGR
      sequence. Encoded C1 controls are another matter: see BatchJoins. */
  ghost predicate Tame(s: seq<Byte>) {
    forall i :: 0 <= i < |s| && (s[i] < 32 || s[i] == 127) ==> s[i] == 9 || s[i] == 10 || StartsSgr(s, i)
  }

  lemma {:induction false} SgrExtends(s: seq<Byte>, t: seq<Byte>, i: nat)
    requires StartsSgr(s, i)
    ensures StartsSgr(s + t, i) && StartsSgr(t + s, |t| + i)
  {
    var j :| SgrTo(s, i, j);
    assert SgrTo(s + t, i, j);
    assert forall k :: |t| <= k < |t| + |s| ==> (t + s)[k] == s[k - |t|];
    assert SgrTo(t + s, |t| + i, |t| + j);
  }

  lemma {:induction false} TameConcat(s: seq<Byte>, t: seq<Byte>)
    requires Tame(s) && Tame(t)
    ensures Tame(s + t)
  {
    forall i | 0 <= i < |s + t| ensures !IsControl((s + t)[i]) || StartsSgr(s + t, i) {
      if IsControl((s + t)[i]) {
        if i < |s| {
          SgrExtends(s, t, i);
        } else {
          SgrExtends(t, s, i - |s|);
        }
      }
    }
  }

  lemma {:induction false} SgrIsTame(s: seq<Byte>)
    requires s != [] && s[0] == ESC && Escape(s).Keep?
    ensures Tame(s[..Escape(s).n])
  {
    var n := Escape(s).n;
    var t := s[..n];
    assert s[0..] == s;
    EscapeKeepsSgr(s, 0);
    hide Escape;
    EscapeBracket(s, 0);
    assert SgrTo(t, 0, n - 1);
    assert StartsSgr(t, 0);
  }

  lemma {:induction false} OutputIsTame(s: seq<Byte>, final: bool)
    ensures Tame(Sanitize(s, final).0)
    decreases |s|
  {
    if s != [] {
      hide Escape, Tame;
      NothingIsTame();
      var p := Front(s);
      if p.Open? {
        OutputIsTame(s[1..], final);
      } else {
        OutputIsTame(s[p.n..], final);
        if p.Keep? {
          FrontIsTame(s);
          TameConcat(s[..p.n], Sanitize(s[p.n..], final).0);
        }
      }
    }
  }

  lemma {:induction false} FrontIsTame(s: seq<Byte>)
    requires s != [] && Front(s).Keep?
    ensures Tame(s[..Front(s).n])
  {
    if s[0] == ESC {
      SgrIsTame(s);
    }
  }

  /** However the input is split into writes, after every write, and after the Flush, the
      only one-byte controls the terminal has seen are newlines, tabs and the ESC of
      complete SGR sequences; and what is held is a possible SGR prefix at the very end
      of the input. */
  lemma {:induction false} SinkIsTame(chunks: seq<seq<Byte>>)
    ensures Tame(Written(chunks).0) && Tame(Streamed(chunks))
    ensures var h := Written(chunks).1; h == [] || IsTail(h)
  {
    hide Tame, Sanitize, IsTail;
    if chunks != [] {
      var before := chunks[..|chunks| - 1];
      var input := Written(before).1 + chunks[|chunks| - 1];
      SinkIsTame(before);
      OutputIsTame(input, false);
      HeldTail(input, false);
      TameConcat(Written(before).0, Sanitize(input, false).0);
    } else {
      NothingIsTame();
    }
    OutputIsTame(Written(chunks).1, true);
    TameConcat(Written(chunks).0, Sanitize(Written(chunks).1, true).0);
  }

  lemma {:induction false} NothingIsTame()
    ensures Tame([])
  {
  }

  // ---- encoded C1 controls in the output ----

  ghost predicate HasPair(s: seq<Byte>) { exists i :: IsPair(s, i) }

  /** Between a surviving lead byte at p and a surviving C1 byte at q there are bytes, and
      all of them are dropped. */
  ghost predicate JoinsAt(s: seq<Byte>, p: int, q: int) {
    && 0 <= p && p + 1 < q < |s| && s[p] == 194 && 128 <= s[q] <= 159
    && !Dropped(s, p) && !Dropped(s, q) && forall k :: p < k < q ==> Dropped(s, k)
  }

  /** The first byte from i on that survives, or the end. */
  ghost function NextKept(s: seq<Byte>, i: nat): (n: nat)
    requires i <= |s|
    ensures i <= n <= |s| && (n < |s| ==> !Dropped(s, n)) && forall k :: i <= k < n ==> Dropped(s, k)
    decreases |s| - i
  {
    if i == |s| || !Dropped(s, i) then i else NextKept(s, i + 1)
  }

  lemma {:induction false} SurvivorsFrom(s: seq<Byte>, i: nat)
    requires i <= |s|
    ensures var n := NextKept(s, i);
      Survivors(s, i) == if n == |s| then [] else [s[n]] + Survivors(s, n + 1)
    decreases |s| - i
  {
    hide Dropped;
    if i < |s| && Dropped(s, i) {
      SurvivorsFrom(s, i + 1);
      assert [] + Survivors(s, i + 1) == Survivors(s, i + 1);
    }
  }

  lemma {:induction false} PairAtFront(x: Byte, t: seq<Byte>)
    ensures HasPair([x] + t) <==> HasPair(t) || (t != [] && x == LEAD && IsC1(t[0]))
  {
    var u := [x] + t;
    if i :| IsPair(u, i) && i > 0 {
      assert IsPair(t, i - 1);
    }
    if i :| IsPair(t, i) {
      assert IsPair(u, i + 1);
    }
    if t != [] && x == LEAD && IsC1(t[0]) {
      assert IsPair(u, 0);
    }
  }

  ghost predicate JoinsFrom(s: seq<Byte>, i: nat) { exists p, q :: i <= p && JoinsAt(s, p, q) }

  lemma {:induction false} SurvivorsJoin(s: seq<Byte>, i: nat)
    requires i <= |s|
    ensures HasPair(Survivors(s, i)) <==> JoinsFrom(s, i)
    decreases |s| - i
  {
    hide Dropped, HasPair;
    var n := NextKept(s, i);
    SurvivorsFrom(s, i);
    if n == |s| {
      NoPair();
    } else {
      SurvivorsJoin(s, n + 1);
      PairAtFront(s[n], Survivors(s, n + 1));
      SurvivorsFrom(s, n + 1);
      JoinsHere(s, i, n);
    }
  }

  lemma {:induction false} NoPair()
    ensures !HasPair([])
  {
  }

  /** The surviving byte at n joins exactly with the next one that survives. */
  lemma {:induction false} JoinsHere(s: seq<Byte>, i: nat, n: nat)
    requires i <= |s| && n == NextKept(s, i) < |s|
    ensures var m := NextKept(s, n + 1);
      JoinsFrom(s, i) <==> JoinsFrom(s, n + 1) || (m < |s| && s[n] == LEAD && IsC1(s[m]))
  {
    var m := NextKept(s, n + 1);
    if m < |s| && s[n] == LEAD && IsC1(s[m]) {
      NotAdjacent(s, n, m);
      assert JoinsAt(s, n, m);
    }
    if p, q :| i <= p && JoinsAt(s, p, q) && p <= n {
      assert p == n && q == m;
    }
  }

  lemma {:induction false} NotAdjacent(s: seq<Byte>, n: nat, m: nat)
    requires n < m < |s| && s[n] == LEAD && IsC1(s[m]) && !Dropped(s, n)
    ensures n + 1 < m
  {
    assert n + 1 == m ==> IsPair(s, n);
  }

  /** A batch result holds an encoded C1 control exactly when its two bytes were apart in
      the input, with at least one byte between them and only dropped ones. */
  lemma {:induction false} BatchJoins(s: seq<Byte>)
    ensures HasPair(Sanitize(s, true).0) <==> exists p, q :: JoinsAt(s, p, q)
  {
    hide Sanitize, HasPair, Dropped;
    BatchIsExact(s);
    SurvivorsJoin(s, 0);
  }

  /** The witness: a lead byte, BEL, a C1 byte. */
  lemma {:induction false} BellJoins(c: Byte)
    requires IsC1(c)
    ensures Sanitize([LEAD, 7, c], true) == ([LEAD, c], []) && HasPair([LEAD, c])
  {
    var s: seq<Byte> := [LEAD, 7, c];
    var t: seq<Byte>, u: seq<Byte> := [7, c], [c];
    assert Front(s) == Keep(1) && Front(t) == Drop(1) && Front(u) == Keep(1);
    hide Front;
    assert u[1..] == [] && u[..1] + [] == u && t[1..] == u;
    assert Sanitize(u, true) == (u, []) && Sanitize(t, true) == (u, []);
    assert s[1..] == t && s[..1] + u == [LEAD, c];
    assert IsPair([LEAD, c], 0);
  }

  // ---- and in the streamed output ----

  lemma {:induction false} PairExtends(s: seq<Byte>, t: seq<Byte>)
    requires HasPair(s)
    ensures HasPair(s + t)
  {
    var i :| IsPair(s, i);
    assert IsPair(s + t, i);
  }

  /** An input that ends in a lead byte leaves nothing open, and the byte comes out last. */
  lemma {:induction false} LeadComesOut(s: seq<Byte>)
    requires s != [] && s[|s| - 1] == LEAD
    ensures var (out, hold) := Sanitize(s, false); hold == [] && out != [] && out[|out| - 1] == LEAD
    decreases |s|
  {
    hide Params;
    var p := Front(s);
    if p.Open? {
      OpenIsTail(s);
      assert false;
    } else if p.n < |s| {
      assert s[p.n..][|s| - p.n - 1] == LEAD;
      LeadComesOut(s[p.n..]);
    } else {
      LastPiece(s);
    }
  }

  lemma {:induction false} EscapeEnds(s: seq<Byte>)
    requires s != []
    ensures s[0] == ESC && Front(s).Keep? ==> s[Front(s).n - 1] == FINAL
  {
  }

  lemma {:induction false} LastPiece(s: seq<Byte>)
    requires s != [] && s[|s| - 1] == LEAD && !Front(s).Open? && Front(s).n == |s|
    ensures s == [LEAD] && Sanitize(s, false) == ([LEAD], [])
  {
    EscapeEnds(s);
    assert s == [s[0]] && s[1..] == [] && s[..1] + [] == s;
  }

  lemma {:induction false} C1ComesOut(b: seq<Byte>)
    requires b != [] && IsC1(b[0])
    ensures Sanitize(b, false).0 != [] && Sanitize(b, false).0[0] == b[0]
  {
    assert Front(b) == Keep(1);
  }

  lemma {:induction false} CutShows(chunks: seq<seq<Byte>>)
    requires CutCount(chunks) > 0
    ensures HasPair(Written(chunks).0)
  {
    hide Sanitize, HasPair;
    var before, last := chunks[..|chunks| - 1], chunks[|chunks| - 1];
    var (sink, hold) := Written(before);
    if CutCount(before) > 0 {
      CutShows(before);
      PairExtends(sink, Sanitize(hold + last, false).0);
    } else {
      WrittenSoFar(before);
      LeadComesOut(Whole(before));
      assert hold + last == last;
      C1ComesOut(last);
      PairAtSeam(sink, Sanitize(last, false).0);
    }
  }

  lemma {:induction false} PairAtSeam(s: seq<Byte>, t: seq<Byte>)
    requires s != [] && s[|s| - 1] == LEAD && t != [] && IsC1(t[0])
    ensures HasPair(s + t)
  {
    assert IsPair(s + t, |s| - 1);
  }

  /** The streamed output holds an encoded C1 control exactly when a write boundary cut
      one in two, or the batch result would hold one. */
  lemma {:induction false} StreamJoins(chunks: seq<seq<Byte>>)
    ensures HasPair(Streamed(chunks)) <==> CutCount(chunks) > 0 || exists p, q :: JoinsAt(Whole(chunks), p, q)
  {
    hide Sanitize, HasPair, JoinsAt, Written, Whole, CutCount;
    StreamIsBatch(chunks);
    BatchJoins(Whole(chunks));
    if CutCount(chunks) > 0 {
      CutShows(chunks);
      PairExtends(Written(chunks).0, Sanitize(Written(chunks).1, true).0);
    }
  }
}
