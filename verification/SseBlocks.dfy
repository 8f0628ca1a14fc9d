/** What the parser of internal/client/sse.go makes of one block of lines, whoever printed
    it: one event with the last name and the data lines joined. */
module SseBlocks {
  import opened Sse
  import opened SseRuns

  /** A line of a stream, by what it says; spaced when a space follows the colon, crlf when
      the line ends in CR LF. */
  datatype Line =
    | Named(value: string, spaced: bool, crlf: bool)
    | Data(value: string, spaced: bool, crlf: bool)
    | Note(text: string, crlf: bool)
    | Unknown(text: string, crlf: bool)

  function Text(l: Line): string {
    match l
    case Named(value, spaced, _) => (if spaced then "event: " else "event:") + value
    case Data(value, spaced, _) => (if spaced then "data: " else "data:") + value
    case Note(text, _) => ":" + text
    case Unknown(text, _) => text
  }

  function Ending(crlf: bool): string { if crlf then "\r\n" else "\n" }

  /** A text that is one line: a CR at its end is part of the ending. */
  predicate OwnLine(text: string, crlf: bool) { '\n' !in text && (crlf || text == "" || text[|text| - 1] != '\r') }

  /** A line that fits the scanner's buffer and says what its constructor says. */
  predicate Proper(l: Line) {
    && OwnLine(Text(l), l.crlf) && |Text(l)| + |Ending(l.crlf)| <= 8388608
    && match l
       case Named(value, spaced, _) => !spaced && value != "" ==> value[0] != ' '
       case Data(value, spaced, _) => !spaced && value != "" ==> value[0] != ' '
       case Note(_, _) => true
       case Unknown(text, _) =>
         && text != "" && text[0] != ':' && text != "event" && text != "data"
         && !("event:" <= text) && !("data:" <= text)
  }

  function Printed(lines: seq<Line>): string {
    if lines == [] then "" else Printed(lines[..|lines| - 1]) + (Text(lines[|lines| - 1]) + Ending(lines[|lines| - 1].crlf))
  }

  /** The last name given, "" when there is none. */
  function NameOf(lines: seq<Line>): string {
    if lines == [] then ""
    else if lines[|lines| - 1].Named? then lines[|lines| - 1].value
    else NameOf(lines[..|lines| - 1])
  }

  predicate HasData(lines: seq<Line>) { exists i :: 0 <= i < |lines| && lines[i].Data? }

  /** The values of the data lines, joined by newlines. */
  function Joined(lines: seq<Line>): string {
    if lines == [] then ""
    else
      var before, l := lines[..|lines| - 1], lines[|lines| - 1];
      if !l.Data? then Joined(before)
      else if HasData(before) then Joined(before) + "\n" + l.value
      else l.value
  }

  // ---- one line ----

  lemma {:induction false} EndedLine(p: Parser, text: string, crlf: bool, rest: string, wants: Callback)
    requires !p.stopped && OwnLine(text, crlf) && |text| + |Ending(crlf)| <= 8388608
    ensures Read(p, text + Ending(crlf) + rest, wants) == Read(TakeLine(p, text, wants), rest, wants)
  {
    hide Read, TakeLine;
    var line := if crlf then text + "\r" else text;
    assert text + Ending(crlf) + rest == line + "\n" + rest;
    LineRead(p, line, rest, wants);
    assert StripCr(line) == text by {
      if crlf {
        assert line[..|line| - 1] == text;
      }
    }
  }

  /** What a line does to the fields. */
  lemma {:induction false} LineSays(p: Parser, l: Line, wants: Callback)
    requires Proper(l)
    ensures Text(l) != ""
    ensures TakeLine(p, Text(l), wants) ==
      match l
      case Named(value, _, _) => p.(name := value)
      case Data(value, _, _) => p.(data := p.data + value + "\n")
      case Note(_, _) => p
      case Unknown(_, _) => p
  {
    match l
    case Named(value, spaced, _) =>
      if spaced {
        FieldLine(p, value, wants);
      } else {
        TightName(p, value, wants);
      }
    case Data(value, spaced, _) =>
      if spaced {
        FieldLine(p, value, wants);
      } else {
        TightData(p, value, wants);
      }
    case Note(_, _) =>
    case Unknown(text, _) => UnknownField(text);
  }

  lemma {:induction false} TightField(field: string, value: string)
    requires ':' !in field && (value != "" ==> value[0] != ' ')
    ensures var line := field + ":" + value;
      Find(line, ':') == |field| && line[..|field|] == field && ValueOf(line) == value
  {
    hide Find;
    var line := field + ":" + value;
    assert line[..|field|] == field && line[|field|] == ':';
    FoundAt(line, ':', |field|);
    assert line[|field| + 1..] == value;
  }

  lemma {:induction false} TightName(p: Parser, value: string, wants: Callback)
    requires value != "" ==> value[0] != ' '
    ensures TakeLine(p, "event:" + value, wants) == p.(name := value)
  {
    TightField("event", value);
    hide Find, ValueOf;
    assert "event" + ":" + value == "event:" + value;
  }

  lemma {:induction false} TightData(p: Parser, value: string, wants: Callback)
    requires value != "" ==> value[0] != ' '
    ensures TakeLine(p, "data:" + value, wants) == p.(data := p.data + value + "\n")
  {
    TightField("data", value);
    hide Find, ValueOf;
    assert "data" + ":" + value == "data:" + value;
  }

  lemma {:induction false} UnknownField(text: string)
    requires text != "" && text != "event" && text != "data" && !("event:" <= text) && !("data:" <= text)
    ensures var field := text[..Find(text, ':')]; field != "event" && field != "data"
  {
    hide Find;
    var n := Find(text, ':');
    if n == |text| {
      assert text[..n] == text;
    } else {
      assert text[..n + 1] == text[..n] + ":" && text[..n] + ":" <= text;
      assert "event" + ":" == "event:" && "data" + ":" == "data:";
    }
  }

  // ---- a block of lines ----

  /** The fields after some lines: every data line is followed by a newline. */
  function Fields(p: Parser, lines: seq<Line>): Parser {
    p.(name := NameOf(lines), data := if HasData(lines) then Joined(lines) + "\n" else "")
  }

  lemma {:induction false} LinesRead(p: Parser, lines: seq<Line>, rest: string, wants: Callback)
    requires Idle(p) && forall i :: 0 <= i < |lines| ==> Proper(lines[i])
    ensures Read(p, Printed(lines) + rest, wants) == Read(Fields(p, lines), rest, wants)
  {
    hide Read, TakeLine, Proper, Text, Ending;
    if lines == [] {
      assert Printed(lines) + rest == rest;
      assert Fields(p, lines) == p;
    } else {
      var before, l := lines[..|lines| - 1], lines[|lines| - 1];
      var more := Text(l) + Ending(l.crlf) + rest;
      assert Printed(lines) + rest == Printed(before) + more;
      LinesRead(p, before, more, wants);
      assert Proper(lines[|lines| - 1]);
      ProperIsOwn(l);
      EndedLine(Fields(p, before), Text(l), l.crlf, rest, wants);
      LineSays(Fields(p, before), l, wants);
      FieldsGrow(p, before, l);
      assert before + [l] == lines;
    }
  }

  lemma {:induction false} ProperIsOwn(l: Line)
    requires Proper(l)
    ensures OwnLine(Text(l), l.crlf) && |Text(l)| + |Ending(l.crlf)| <= 8388608
  {
  }

  lemma {:induction false} FieldsGrow(p: Parser, lines: seq<Line>, l: Line)
    ensures Fields(p, lines + [l]) == match l
      case Named(value, _, _) => Fields(p, lines).(name := value)
      case Data(value, _, _) => Fields(p, lines).(data := Fields(p, lines).data + value + "\n")
      case Note(_, _) => Fields(p, lines)
      case Unknown(_, _) => Fields(p, lines)
  {
    var all := lines + [l];
    assert all[..|lines|] == lines && all[|lines|] == l;
    assert HasData(all) <==> HasData(lines) || l.Data? by {
      if HasData(lines) {
        var i :| 0 <= i < |lines| && lines[i].Data?;
        assert all[i].Data?;
      }
    }
    if l.Data? {
      assert Joined(lines) + "\n" + l.value + "\n" == Joined(lines) + "\n" + (l.value + "\n");
      assert "" + l.value == l.value;
    }
  }

  /** What a block tells the callback: nothing when it has neither a name nor a data line,
      and one event otherwise. */
  function Told(p: Parser, lines: seq<Line>, wants: Callback): Parser {
    if NameOf(lines) == "" && !HasData(lines) then p
    else var out := p.out + [Event(NameOf(lines), Joined(lines))]; Parser("", "", out, !wants(out))
  }

  lemma {:induction false} BlockDispatches(p: Parser, lines: seq<Line>, wants: Callback)
    requires Idle(p)
    ensures Dispatch(Fields(p, lines), wants) == Told(p, lines, wants)
  {
    if !HasData(lines) {
      NoneJoined(lines);
    }
    assert (Joined(lines) + "\n")[..|Joined(lines)|] == Joined(lines);
  }

  lemma {:induction false} NoneJoined(lines: seq<Line>)
    requires !HasData(lines)
    ensures Joined(lines) == ""
  {
    if lines != [] {
      assert forall i :: 0 <= i < |lines| - 1 ==> lines[..|lines| - 1][i] == lines[i];
      NoneJoined(lines[..|lines| - 1]);
    }
  }

  /** A block, exactly: comments, lines with other fields and line endings do not matter;
      at the blank line the callback is given the last name and the data lines joined by
      newlines, once, unless there is neither; the reading goes on with what follows. */
  lemma {:induction false} BlockRead(p: Parser, lines: seq<Line>, crlf: bool, rest: string, wants: Callback)
    requires Idle(p) && forall i :: 0 <= i < |lines| ==> Proper(lines[i])
    ensures Read(p, Printed(lines) + (Ending(crlf) + rest), wants) == Read(Told(p, lines, wants), rest, wants)
  {
    hide Read, Printed, Proper, Fields, Told;
    LinesRead(p, lines, Ending(crlf) + rest, wants);
    var q := Fields(p, lines);
    FieldsGoOn(p, lines);
    assert "" + Ending(crlf) + rest == Ending(crlf) + rest;
    EndedLine(q, "", crlf, rest, wants);
    BlockDispatches(p, lines, wants);
  }

  lemma {:induction false} FieldsGoOn(p: Parser, lines: seq<Line>)
    ensures Fields(p, lines).stopped == p.stopped
  {
  }

  lemma {:induction false} AtEnd(p: Parser, lines: seq<Line>, wants: Callback)
    requires Idle(p)
    ensures Read(Fields(p, lines), "", wants) == (Told(p, lines, wants), Finished)
  {
    hide Fields, Told, Dispatch;
    FieldsGoOn(p, lines);
    BlockDispatches(p, lines, wants);
  }

  /** A block that the stream ends in is told of too ... */
  lemma {:induction false} LastBlockRead(p: Parser, lines: seq<Line>, wants: Callback)
    requires Idle(p) && forall i :: 0 <= i < |lines| ==> Proper(lines[i])
    ensures Read(p, Printed(lines), wants) == (Told(p, lines, wants), Finished)
  {
    hide Printed, Proper, Fields, Told, Read;
    LinesRead(p, lines, "", wants);
    assert Printed(lines) + "" == Printed(lines);
    AtEnd(p, lines, wants);
  }

  /** ... also when its last line has no end. */
  lemma {:induction false} CutBlockRead(p: Parser, lines: seq<Line>, l: Line, wants: Callback)
    requires Idle(p) && (forall i :: 0 <= i < |lines| ==> Proper(lines[i])) && Proper(l) && !l.crlf
    ensures Read(p, Printed(lines) + Text(l), wants) == (Told(p, lines + [l], wants), Finished)
  {
    hide Printed, Proper, Fields, Told, Read;
    LinesRead(p, lines, Text(l), wants);
    ProperIsOwn(l);
    FieldsGoOn(p, lines);
    LineSays(Fields(p, lines), l, wants);
    UnendedLine(Fields(p, lines), Text(l), wants);
    FieldsGrow(p, lines, l);
    AtEnd(p, lines + [l], wants);
  }

  lemma {:induction false} UnendedLine(p: Parser, text: string, wants: Callback)
    requires !p.stopped && text != "" && OwnLine(text, false) && |text| + 1 <= 8388608
    ensures Read(p, text, wants) == Read(TakeLine(p, text, wants), "", wants)
  {
    hide TakeLine, Find;
    FoundAt(text, '\n', |text|);
    assert text[..|text|] == text;
  }
}
