/** Printing and parsing undo each other. */
module SseRuns {
  import opened Sse

  /** A field value the line format carries: one line, not ending in CR. */
  predicate OneLine(s: string) { '\n' !in s && (s == "" || s[|s| - 1] != '\r') }

  predicate Carried(f: Frame) {
    match f
    case Send(name, data) => OneLine(name) && OneLine(data)
    case Comment(text) => '\n' !in text
  }

  /** Every line of the frame fits the scanner's buffer. */
  predicate Fits(f: Frame) {
    match f
    case Send(name, data) => |name| + 8 <= 8388608 && |data| + 7 <= 8388608
    case Comment(text) => |text| + 3 <= 8388608
  }

  function Encoded(frames: seq<Frame>): string {
    if frames == [] then "" else Encode(frames[0]) + Encoded(frames[1..])
  }

  /** The events of a list of frames: its send frames. */
  function Sent(frames: seq<Frame>): seq<Event> {
    if frames == [] then []
    else (match frames[0] case Send(n, d) => [Event(n, d)] case Comment(_) => []) + Sent(frames[1..])
  }

  /** What a callback is given when the events todo come after those done: all of
      them, or up to the first after which it wants no more. */
  function Given(done: seq<Event>, todo: seq<Event>, wants: Callback): seq<Event>
    decreases |todo|
  {
    if todo == [] then done
    else if wants(done + [todo[0]]) then Given(done + [todo[0]], todo[1..], wants)
    else done + [todo[0]]
  }

  lemma {:induction false} GivenIsPrefix(done: seq<Event>, todo: seq<Event>, wants: Callback)
    ensures Given(done, todo, wants) <= done + todo
    ensures (forall n :: 0 < n <= |todo| ==> wants(done + todo[..n])) ==> Given(done, todo, wants) == done + todo
    decreases |todo|
  {
    if todo != [] {
      var next := done + [todo[0]];
      assert next + todo[1..] == done + todo;
      assert todo[..1] == [todo[0]];
      if wants(next) {
        GivenIsPrefix(next, todo[1..], wants);
        if forall n :: 0 < n <= |todo| ==> wants(done + todo[..n]) {
          forall n | 0 < n <= |todo[1..]| ensures wants(next + todo[1..][..n]) {
            assert next + todo[1..][..n] == done + todo[..n + 1];
          }
        }
      }
    }
  }

  // ---- one line ----

  /** Reading a line the buffer takes. */
  lemma {:induction false} LineRead(p: Parser, line: string, rest: string, wants: Callback)
    requires !p.stopped && '\n' !in line && |line| + 1 <= MAX_LINE
    ensures Read(p, line + "\n" + rest, wants) == Read(TakeLine(p, StripCr(line), wants), rest, wants)
  {
    hide TakeLine, Find;
    var s := line + "\n" + rest;
    assert s[..|line|] == line && s[|line|] == '\n' && s[|line| + 1..] == rest;
    FoundAt(s, '\n', |line|);
  }

  /** A line the buffer does not take ends the reading. */
  lemma {:induction false} LineTooLong(p: Parser, line: string, rest: string, wants: Callback)
    requires !p.stopped && '\n' !in line && |line| + 1 > MAX_LINE
    ensures Read(p, line + "\n" + rest, wants) == (p, TooLong)
  {
    hide TakeLine, Find;
    var s := line + "\n" + rest;
    assert s[..|line|] == line && s[|line|] == '\n';
    FoundAt(s, '\n', |line|);
  }

  /** A field line "<field>: <value>" sets its field. */
  lemma {:induction false} FieldLine(p: Parser, value: string, wants: Callback)
    ensures TakeLine(p, "event: " + value, wants) == p.(name := value)
    ensures TakeLine(p, "data: " + value, wants) == p.(data := p.data + value + "\n")
  {
    FieldCut("event", value);
    FieldCut("data", value);
    hide Find, ValueOf;
    assert "event" + ": " + value == "event: " + value;
    assert "data" + ": " + value == "data: " + value;
  }

  lemma {:induction false} FieldCut(field: string, value: string)
    requires ':' !in field
    ensures var line := field + ": " + value;
      Find(line, ':') == |field| && line[..|field|] == field && ValueOf(line) == value
  {
    hide Find;
    var line := field + ": " + value;
    assert line[..|field|] == field && line[|field|] == ':';
    FoundAt(line, ':', |field|);
    assert line[|field| + 1..] == " " + value;
    assert (" " + value)[1..] == value;
  }

  // ---- one frame ----

  predicate Idle(p: Parser) { p.name == "" && p.data == "" && !p.stopped }

  function AfterFrame(p: Parser, f: Frame, wants: Callback): Parser {
    match f
    case Send(name, data) => Parser("", "", p.out + [Event(name, data)], !wants(p.out + [Event(name, data)]))
    case Comment(_) => p
  }

  lemma {:induction false} BlankLine(p: Parser, rest: string, wants: Callback)
    requires !p.stopped
    ensures Read(p, "\n" + rest, wants) == Read(Dispatch(p, wants), rest, wants)
  {
    hide Read, Dispatch;
    assert "" + "\n" + rest == "\n" + rest;
    LineRead(p, "", rest, wants);
  }

  lemma {:induction false} SendLines(name: string, data: string, rest: string)
    ensures Encode(Send(name, data)) + rest == "event: " + name + "\n" + ("data: " + data + "\n" + ("\n" + rest))
  {
  }

  lemma {:induction false} CommentLines(text: string, rest: string)
    ensures Encode(Comment(text)) + rest == ": " + text + "\n" + ("\n" + rest)
  {
  }

  lemma {:induction false} SendRead(p: Parser, name: string, data: string, rest: string, wants: Callback)
    requires Idle(p) && Carried(Send(name, data)) && Fits(Send(name, data))
    ensures Read(p, Encode(Send(name, data)) + rest, wants) == Read(AfterFrame(p, Send(name, data), wants), rest, wants)
  {
    hide Read, TakeLine, StripCr, Encode;
    var e, d := "event: " + name, "data: " + data;
    Prefixed("event: ", name);
    Prefixed("data: ", data);
    var r1, r2 := d + "\n" + ("\n" + rest), "\n" + rest;
    SendLines(name, data, rest);
    LineRead(p, e, r1, wants);
    FieldLine(p, name, wants);
    var p1 := p.(name := name);
    LineRead(p1, d, r2, wants);
    FieldLine(p1, data, wants);
    var p2 := p1.(data := data + "\n");
    assert "" + data == data;
    BlankLine(p2, rest, wants);
    assert TrimNewline(data + "\n") == data;
  }

  lemma {:induction false} Prefixed(prefix: string, value: string)
    requires OneLine(value) && OneLine(prefix) && prefix != ""
    ensures OneLine(prefix + value) && StripCr(prefix + value) == prefix + value
  {
  }

  lemma {:induction false} CommentRead(p: Parser, text: string, rest: string, wants: Callback)
    requires Idle(p) && Carried(Comment(text)) && Fits(Comment(text))
    ensures Read(p, Encode(Comment(text)) + rest, wants) == Read(p, rest, wants)
  {
    hide Read, Encode;
    var c := ": " + text;
    CommentLines(text, rest);
    LineRead(p, c, "\n" + rest, wants);
    assert StripCr(c)[0] == ':';
    BlankLine(p, rest, wants);
  }

  // ---- whole streams ----

  /** Reading a stream that begins with these frames: their events reach the callback,
      in order, until it wants no more; then the reading goes on with what follows. */
  lemma {:induction false} FramesRead(p: Parser, frames: seq<Frame>, rest: string, wants: Callback)
    requires Idle(p) && forall i :: 0 <= i < |frames| ==> Carried(frames[i]) && Fits(frames[i])
    ensures var out := Given(p.out, Sent(frames), wants);
      var result := Read(p, Encoded(frames) + rest, wants);
      || (result == (Parser("", "", out, true), Finished) && !wants(out) && |out| > |p.out|)
      || (result == Read(p.(out := out), rest, wants) && out == p.out + Sent(frames))
    decreases |frames|
  {
    hide Encode, Carried, Fits;
    if frames == [] {
      assert Encoded(frames) + rest == rest;
    } else {
      hide Read, Given, Sent, Encoded;
      var f, more := frames[0], Encoded(frames[1..]) + rest;
      EncodedHead(frames, rest);
      SentHead(frames);
      match f {
        case Send(name, data) =>
          SendRead(p, name, data, more, wants);
          var p1, sent := AfterFrame(p, f, wants), Sent(frames[1..]);
          GivenHead(p.out, Event(name, data), sent, wants);
          if p1.stopped {
            ReadStopped(p1, more, wants);
          } else {
            FramesRead(p1, frames[1..], rest, wants);
          }
        case Comment(text) =>
          CommentRead(p, text, more, wants);
          FramesRead(p, frames[1..], rest, wants);
      }
    }
  }

  lemma {:induction false} EncodedHead(frames: seq<Frame>, rest: string)
    requires frames != []
    ensures Encoded(frames) + rest == Encode(frames[0]) + (Encoded(frames[1..]) + rest)
  {
    hide Encode;
  }

  lemma {:induction false} SentHead(frames: seq<Frame>)
    requires frames != []
    ensures match frames[0]
      case Send(n, d) => Sent(frames) == [Event(n, d)] + Sent(frames[1..])
      case Comment(_) => Sent(frames) == Sent(frames[1..])
  {
  }

  lemma {:induction false} GivenHead(done: seq<Event>, e: Event, todo: seq<Event>, wants: Callback)
    ensures Given(done, [e] + todo, wants) == if wants(done + [e]) then Given(done + [e], todo, wants) else done + [e]
    ensures done + ([e] + todo) == (done + [e]) + todo
  {
    assert ([e] + todo)[1..] == todo;
  }

  lemma {:induction false} ReadStopped(p: Parser, s: string, wants: Callback)
    requires p.stopped
    ensures Read(p, s, wants) == (p, Finished)
  {
  }

  /** The round trip: the callback gets exactly the sent events, in order, comments
      left out; one that stops gets a prefix. */
  lemma {:induction false} RoundTrip(frames: seq<Frame>, wants: Callback)
    requires forall i :: 0 <= i < |frames| ==> Carried(frames[i]) && Fits(frames[i])
    ensures var (p, result) := Read(FRESH, Encoded(frames), wants);
      && result == Finished
      && p.out == Given([], Sent(frames), wants)
      && p.out <= Sent(frames)
      && ((forall n :: 0 < n <= |Sent(frames)| ==> wants(Sent(frames)[..n])) ==> p.out == Sent(frames))
  {
    hide Encoded, Sent, Given, Encode, Carried, Fits;
    FramesRead(FRESH, frames, "", wants);
    assert Encoded(frames) + "" == Encoded(frames);
    var todo := Sent(frames);
    GivenIsPrefix([], todo, wants);
    assert [] + todo == todo;
    assert forall n :: 0 < n <= |todo| ==> [] + todo[..n] == todo[..n];
  }

  /** The limit is sharp: the first frame with a line the buffer does not take ends
      the reading with an error, after exactly the events before it. */
  lemma {:induction false} OverlongFails(frames: seq<Frame>, f: Frame, rest: string, wants: Callback)
    requires forall i :: 0 <= i < |frames| ==> Carried(frames[i]) && Fits(frames[i])
    requires Carried(f) && !Fits(f)
    requires forall n :: 0 < n <= |Sent(frames)| ==> wants(Sent(frames)[..n])
    ensures var (p, result) := Read(FRESH, Encoded(frames) + (Encode(f) + rest), wants);
      result == TooLong && p.out == Sent(frames)
  {
    hide Encoded, Sent, Given, Encode, Carried, Fits, Read;
    var todo := Sent(frames);
    FramesRead(FRESH, frames, Encode(f) + rest, wants);
    GivenIsPrefix([], todo, wants);
    assert [] + todo == todo;
    assert forall n :: 0 < n <= |todo| ==> [] + todo[..n] == todo[..n];
    assert todo[..|todo|] == todo;
    if Read(FRESH, Encoded(frames) + (Encode(f) + rest), wants) == Read(FRESH.(out := todo), Encode(f) + rest, wants) {
      OverlongFrame(FRESH.(out := todo), f, rest, wants);
    }
  }

  lemma {:induction false} OverlongFrame(p: Parser, f: Frame, rest: string, wants: Callback)
    requires Idle(p) && Carried(f) && !Fits(f)
    ensures var (q, result) := Read(p, Encode(f) + rest, wants); result == TooLong && q.out == p.out
  {
    hide Read, TakeLine, StripCr, Encode;
    match f
    case Comment(text) =>
      var c := ": " + text;
      CommentLines(text, rest);
      LineTooLong(p, c, "\n" + rest, wants);
    case Send(name, data) =>
      var e, d := "event: " + name, "data: " + data;
      Prefixed("event: ", name);
      Prefixed("data: ", data);
      var r := d + "\n" + ("\n" + rest);
      SendLines(name, data, rest);
      if |e| + 1 > MAX_LINE {
        LineTooLong(p, e, r, wants);
      } else {
        LineRead(p, e, r, wants);
        FieldLine(p, name, wants);
        LineTooLong(p.(name := name), d, "\n" + rest, wants);
      }
  }
}
