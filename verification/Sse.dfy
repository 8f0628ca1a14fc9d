/** Server-sent events (section 9.2 of the WHATWG HTML Living Standard): the printer of
    internal/api/server.go and the parser of internal/client/sse.go. Strings are byte
    strings, one char a byte. */
module Sse {

  datatype Event = Event(name: string, data: string)

  /** The longest line the scanner's buffer takes, newline included. */
  const MAX_LINE: nat := 0x80_0000

  // ---- the printer ----

  datatype Frame = Send(name: string, data: string) | Comment(text: string)

  function Encode(f: Frame): string {
    match f
    case Send(name, data) => "event: " + name + "\n" + "data: " + data + "\n" + "\n"
    case Comment(text) => ": " + text + "\n" + "\n"
  }

  /** The response writer; works says whether it takes what it is given. */
  class Printer {
    var body: string

    constructor ()
      ensures body == ""
    {
      body := "";
    }

    method Send(name: string, data: string, works: bool) returns (ok: bool)
      modifies this
      ensures ok == works && body == old(body) + if works then Encode(Frame.Send(name, data)) else ""
    {
      if works {
        body := body + ("event: " + name + "\n" + "data: " + data + "\n" + "\n");
      }
      return works;
    }

    method Comment(text: string, works: bool) returns (ok: bool)
      modifies this
      ensures ok == works && body == old(body) + if works then Encode(Frame.Comment(text)) else ""
    {
      if works {
        body := body + (": " + text + "\n" + "\n");
      }
      return works;
    }
  }

  // ---- the parser ----

  /** The fields of the event being read, what the callback was given so far, and
      whether it asked to stop. */
  datatype Parser = Parser(name: string, data: string, out: seq<Event>, stopped: bool)

  const FRESH := Parser("", "", [], false)

  /** The callback: given the events so far, the newest last, does it want more? */
  type Callback = seq<Event> -> bool

  function TrimNewline(s: string): string {
    if s != "" && s[|s| - 1] == '\n' then s[..|s| - 1] else s
  }

  function StripCr(line: string): string {
    if line != "" && line[|line| - 1] == '\r' then line[..|line| - 1] else line
  }

  /** Where c first stands in s, or |s|. */
  function Find(s: string, c: char): (n: nat)
    ensures n <= |s| && (n < |s| ==> s[n] == c) && c !in s[..n]
  {
    if s == "" || s[0] == c then 0
    else
      var n := Find(s[1..], c);
      assert s[..n + 1] == [s[0]] + s[1..][..n];
      n + 1
  }

  /** The value of a field line: what follows the colon, less one space. */
  function ValueOf(line: string): string {
    var n := Find(line, ':');
    var value := if n < |line| then line[n + 1..] else "";
    if value != "" && value[0] == ' ' then value[1..] else value
  }

  function Dispatch(p: Parser, wants: Callback): Parser {
    if p.name == "" && p.data == "" then p
    else
      var out := p.out + [Event(p.name, TrimNewline(p.data))];
      Parser("", "", out, !wants(out))
  }

  function TakeLine(p: Parser, line: string, wants: Callback): Parser {
    if line == "" then Dispatch(p, wants)
    else if line[0] == ':' then p
    else
      var field := line[..Find(line, ':')];
      if field == "event" then p.(name := ValueOf(line))
      else if field == "data" then p.(data := p.data + ValueOf(line) + "\n")
      else p
  }

  datatype Outcome = Finished | TooLong

  /** Reads s to its end, to a line the buffer does not take, or to a callback that
      wants no more. */
  function Read(p: Parser, s: string, wants: Callback): (Parser, Outcome)
    decreases |s|
  {
    if p.stopped then (p, Finished)
    else if s == "" then (Dispatch(p, wants), Finished)
    else
      var n := Find(s, '\n');
      if n + 1 > MAX_LINE then (p, TooLong)
      else Read(TakeLine(p, StripCr(s[..n]), wants), Rest(s, n), wants)
  }

  function Rest(s: string, n: nat): (r: string)
    requires n <= |s|
    ensures s != "" ==> |r| < |s|
  {
    if n < |s| then s[n + 1..] else ""
  }

  // ---- the loops of the source ----

  method IndexOf(s: string, from: nat, c: char) returns (n: nat)
    requires from <= |s|
    ensures n == from + Find(s[from..], c)
  {
    hide Find;
    n := from;
    while n < |s| && s[n] != c
      invariant from <= n <= |s| && c !in s[from..n]
    {
      n := n + 1;
    }
    FoundAt(s[from..], c, n - from);
  }

  lemma {:induction false} FoundAt(s: string, c: char, n: nat)
    requires n <= |s| && c !in s[..n] && (n < |s| ==> s[n] == c)
    ensures Find(s, c) == n
  {
    if n > 0 {
      assert s[0] == s[..n][0] && s[1..][..n - 1] == s[..n][1..];
      FoundAt(s[1..], c, n - 1);
    }
  }

  /** strings.Cut at the first colon, and strings.TrimPrefix of one space. */
  method ParseField(line: string) returns (field: string, value: string)
    ensures field == line[..Find(line, ':')] && value == ValueOf(line)
  {
    hide Find;
    var colon := IndexOf(line, 0, ':');
    assert line[0..] == line;
    field := line[..colon];
    value := if colon < |line| then line[colon + 1..] else "";
    if value != "" && value[0] == ' ' {
      value := value[1..];
    }
  }

  /** readSSE: the scanner loop and its flush. */
  method ReadSse(s: string, wants: Callback) returns (out: seq<Event>, result: Outcome)
    ensures var (p, r) := Read(FRESH, s, wants); out == p.out && result == r
  {
    hide Find, ValueOf, Rest, StripCr, TrimNewline;
    var name, data := "", "";
    var at := 0;
    out := [];
    assert s[0..] == s;
    while at < |s|
      invariant at <= |s|
      invariant Read(FRESH, s, wants) == Read(Parser(name, data, out, false), s[at..], wants)
    {
      ghost var p := Parser(name, data, out, false);
      var n := IndexOf(s, at, '\n');
      if n - at + 1 > MAX_LINE {
        return out, TooLong;
      }
      var line := StripCr(s[at..n]);
      assert s[at..n] == s[at..][..n - at];
      RestAt(s, at, n);
      if line == "" {
        if name != "" || data != "" {
          out := out + [Event(name, TrimNewline(data))];
          name, data := "", "";
          if !wants(out) {
            return out, Finished;
          }
        }
      } else if line[0] != ':' {
        var field, value := ParseField(line);
        if field == "event" {
          name := value;
        } else if field == "data" {
          data := data + value + "\n";
        }
      }
      assert TakeLine(p, line, wants) == Parser(name, data, out, false);
      at := if n < |s| then n + 1 else |s|;
    }
    assert s[at..] == "";
    if name != "" || data != "" {
      out := out + [Event(name, TrimNewline(data))];
    }
    return out, Finished;
  }

  lemma {:induction false} RestAt(s: string, at: nat, n: nat)
    requires at <= n <= |s|
    ensures Rest(s[at..], n - at) == s[if n < |s| then n + 1 else |s|..]
  {
  }
}
