/** The output filter of internal/cli/safe.go: what bnm prints keeps newline, tab,
    printable bytes and complete SGR sequences (section 8.3.117 of ECMA-48); the other
    control bytes and escape sequences lose their control part. */
module SafeWriter {

  type Byte = b: int | 0 <= b < 256

  const ESC: Byte := 0x1b
  const BRACKET: Byte := 0x5b
  const FINAL: Byte := 0x6d
  const LEAD: Byte := 0xc2

  /** Digits, ':' and ';'. */
  predicate IsParam(b: Byte) { 0x30 <= b <= 0x39 || b == 0x3a || b == 0x3b }

  /** The second byte of a UTF-8 encoded C1 control. */
  predicate IsC1(b: Byte) { 0x80 <= b <= 0x9f }

  predicate IsBlank(b: Byte) { b == 0x0a || b == 0x09 }

  predicate IsControl(b: Byte) { !IsBlank(b) && (b < 0x20 || b == 0x7f) }

  // ---- one piece at a time ----

  /** How many parameter bytes s begins with. */
  function Params(s: seq<Byte>): (n: nat)
    ensures n <= |s| && (forall k :: 0 <= k < n ==> IsParam(s[k]))
    ensures n < |s| ==> !IsParam(s[n])
  {
    if s == [] || !IsParam(s[0]) then 0 else 1 + Params(s[1..])
  }

  /** What the filter does with the front of its input: keep n bytes, drop n bytes, or
      (an escape cut short) leave it open. */
  datatype Piece = Keep(n: nat) | Drop(n: nat) | Open

  function Escape(s: seq<Byte>): (p: Piece)
    requires s != [] && s[0] == ESC
    ensures p.Keep? ==> 0 < p.n <= |s|
    ensures p.Drop? ==> p.n == 1
  {
    if |s| == 1 then Open
    else if s[1] != BRACKET then Drop(1)
    else
      var n := Params(s[2..]);
      if 2 + n == |s| then Open else if s[2 + n] == FINAL then Keep(3 + n) else Drop(1)
  }

  function Front(s: seq<Byte>): (p: Piece)
    requires s != []
    ensures !p.Open? ==> 0 < p.n <= |s|
  {
    if s[0] == ESC then Escape(s)
    else if IsBlank(s[0]) then Keep(1)
    else if IsControl(s[0]) then Drop(1)
    else if s[0] == LEAD && |s| > 1 && IsC1(s[1]) then Drop(2)
    else Keep(1)
  }

  /** The filtered bytes and the tail left undecided. */
  function Sanitize(s: seq<Byte>, final: bool): (seq<Byte>, seq<Byte>)
    decreases |s|
  {
    if s == [] then ([], [])
    else
      match Front(s)
      case Keep(n) => var (out, hold) := Sanitize(s[n..], final); (s[..n] + out, hold)
      case Drop(n) => Sanitize(s[n..], final)
      case Open => if final then Sanitize(s[1..], final) else ([], s)
  }

  // ---- the loops of the source ----

  method SgrEnd(s: seq<Byte>, i: nat) returns (end: nat, complete: bool)
    requires i < |s| && s[i] == ESC
    ensures i < end <= |s|
    ensures complete <==> Escape(s[i..]).Keep?
    ensures complete ==> Escape(s[i..]) == Keep(end - i)
    ensures !complete ==> (end == |s| <==> Escape(s[i..]).Open?)
  {
    hide Params;
    ghost var t := s[i..];
    if i + 1 >= |s| {
      return |s|, false;
    }
    assert s[i + 1] == t[1];
    if s[i + 1] != BRACKET {
      return i + 1, false;
    }
    for j := i + 2 to |s|
      invariant forall k :: i + 2 <= k < j ==> IsParam(s[k])
    {
      if IsParam(s[j]) {
        continue;
      }
      ParamsAre(t[2..], j - i - 2);
      if s[j] == FINAL {
        return j + 1, true;
      }
      return j, false;
    }
    ParamsAre(t[2..], |s| - i - 2);
    return |s|, false;
  }

  /** Params stops at the first byte that is no parameter. */
  lemma {:induction false} ParamsAre(s: seq<Byte>, n: nat)
    requires n <= |s| && (forall k :: 0 <= k < n ==> IsParam(s[k])) && (n < |s| ==> !IsParam(s[n]))
    ensures Params(s) == n
  {
    if n > 0 {
      assert IsParam(s[0]);
      ParamsAre(s[1..], n - 1);
    }
  }

  /** out is what the filter gives for the first i bytes of s. */
  ghost predicate DoneTo(s: seq<Byte>, final: bool, out: seq<Byte>, i: nat)
    requires i <= |s|
  {
    var (rest, hold) := Sanitize(s[i..], final);
    Sanitize(s, final) == (out + rest, hold)
  }

  /** One more piece. */
  lemma {:induction false} DoneMore(s: seq<Byte>, final: bool, out: seq<Byte>, i: nat)
    requires i < |s| && DoneTo(s, final, out, i)
    ensures var p := Front(s[i..]);
      && (p.Keep? ==> DoneTo(s, final, out + s[i..i + p.n], i + p.n))
      && (p.Drop? ==> DoneTo(s, final, out, i + p.n))
      && (p.Open? && final ==> DoneTo(s, final, out, i + 1))
      && (p.Open? && !final ==> Sanitize(s, final) == (out, s[i..]))
  {
    hide Front;
    var t, p := s[i..], Front(s[i..]);
    if p.Open? {
      assert t[1..] == s[i + 1..];
      assert out + [] == out;
    } else {
      assert t[p.n..] == s[i + p.n..] && t[..p.n] == s[i..i + p.n];
      var rest := Sanitize(s[i + p.n..], final).0;
      assert out + (t[..p.n] + rest) == (out + t[..p.n]) + rest;
    }
  }

  method SanitizeBytes(s: seq<Byte>, final: bool) returns (out: seq<Byte>, hold: seq<Byte>)
    ensures (out, hold) == Sanitize(s, final)
  {
    hide Escape, Params, Sanitize, DoneTo;
    out := [];
    var i := 0;
    NothingDone(s, final);
    while i < |s|
      invariant 0 <= i <= |s| && DoneTo(s, final, out, i)
    {
      var b := s[i];
      assert s[i..][0] == b && (i + 1 < |s| ==> s[i..][1] == s[i + 1]);
      DoneMore(s, final, out, i);
      if b == ESC {
        var end, complete := SgrEnd(s, i);
        if complete {
          out := out + s[i..end];
          i := end;
          continue;
        }
        if end == |s| && !final {
          return out, s[i..];
        }
      } else if IsBlank(b) {
        assert s[i..i + 1] == [b];
        out := out + [b];
      } else if b < 0x20 || b == 0x7f {
      } else if b == LEAD && i + 1 < |s| && IsC1(s[i + 1]) {
        i := i + 1;
      } else {
        assert s[i..i + 1] == [b];
        out := out + [b];
      }
      i := i + 1;
    }
    AllDone(s, final, out);
    return out, [];
  }

  lemma {:induction false} NothingDone(s: seq<Byte>, final: bool)
    ensures DoneTo(s, final, [], 0)
  {
    hide Sanitize;
    assert s[0..] == s && [] + Sanitize(s, final).0 == Sanitize(s, final).0;
  }

  lemma {:induction false} AllDone(s: seq<Byte>, final: bool, out: seq<Byte>)
    requires DoneTo(s, final, out, |s|)
    ensures Sanitize(s, final) == (out, [])
  {
    assert s[|s|..] == [] && out + [] == out;
  }

  // ---- the writer ----

  class Writer {
    var hold: seq<Byte>
    var sink: seq<Byte>

    constructor ()
      ensures hold == [] && sink == []
    {
      hold, sink := [], [];
    }

    /** works says whether the underlying writer accepts what it is given. */
    method Write(p: seq<Byte>, works: bool) returns (n: nat, ok: bool)
      modifies this
      ensures ok == works && n == if works then |p| else 0
      ensures var (out, rest) := Sanitize(old(hold) + p, false);
        hold == rest && sink == if works then old(sink) + out else old(sink)
    {
      var input := p;
      if |hold| > 0 {
        input := hold + p;
      } else {
        assert hold + p == p;
      }
      var out, rest := SanitizeBytes(input, false);
      hold := rest;
      if !works {
        return 0, false;
      }
      sink := sink + out;
      return |p|, true;
    }

    method Flush(works: bool) returns (ok: bool)
      modifies this
      ensures hold == [] && (ok <==> works || old(hold) == [])
      ensures sink == if works then old(sink) + Sanitize(old(hold), true).0 else old(sink)
    {
      if |hold| == 0 {
        assert sink + [] == sink;
        return true;
      }
      var out, _ := SanitizeBytes(hold, true);
      hold := [];
      if works {
        sink := sink + out;
      }
      return works;
    }
  }
}
