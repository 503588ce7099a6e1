/**
 Replies as a server writes them, section 4.2 of RFC 959, and the proof that the assembler of
 FtpReply returns them all, in order, from any division of the byte stream.
 */
module FtpReplyFormat {
  import opened Text
  import opened FtpReply

  /** A middle line of a multi-line reply; `tagged` lines repeat the code and a hyphen. */
  datatype Mid = Mid(text: string, tagged: bool)

  datatype Reply =
    | Single(code: seq<int>, text: string)
    | Multi(code: seq<int>, first: string, middle: seq<Mid>, last: string)

  predicate OneLine(s: string) { forall i :: 0 <= i < |s| ==> s[i] != '\n' }

  /** An untagged line must not look like one that carries the code. */
  predicate MidOk(code: seq<int>, m: Mid)
    requires IsCode(code)
  {
    OneLine(m.text) &&
    (!m.tagged ==> Left4(m.text + CRLF) != Digits(code) + " " && Left4(m.text + CRLF) != Digits(code) + "-")
  }

  predicate WellFormed(r: Reply) {
    IsCode(r.code) &&
    match r
    case Single(_, text) => OneLine(text)
    case Multi(code, first, middle, last) =>
      OneLine(first) && OneLine(last) && forall i :: 0 <= i < |middle| ==> MidOk(code, middle[i])
  }

  function MidLine(code: seq<int>, m: Mid): string
    requires IsCode(code)
  {
    (if m.tagged then Digits(code) + "-" else "") + m.text + CRLF
  }

  function MidLines(code: seq<int>, middle: seq<Mid>): seq<string>
    requires IsCode(code)
  {
    if middle == [] then [] else [MidLine(code, middle[0])] + MidLines(code, middle[1..])
  }

  function RenderLines(r: Reply): seq<string>
    requires IsCode(r.code)
  {
    match r
    case Single(code, text) => [Digits(code) + " " + text + CRLF]
    case Multi(code, first, middle, last) =>
      [Digits(code) + "-" + first + CRLF] + MidLines(code, middle) + [Digits(code) + " " + last + CRLF]
  }

  function MidText(middle: seq<Mid>): string {
    if middle == [] then "" else middle[0].text + CRLF + MidText(middle[1..])
  }

  /** The code and the text of a reply. */
  function Meaning(r: Reply): Message {
    match r
    case Single(code, text) => Message(code, text)
    case Multi(code, first, middle, last) =>
      Message(code, first + CRLF + MidText(middle) + last)
  }

  function AllLines(rs: seq<Reply>): seq<string>
    requires forall i :: 0 <= i < |rs| ==> WellFormed(rs[i])
  {
    if rs == [] then []
    else
      assert WellFormed(rs[0]);
      RenderLines(rs[0]) + AllLines(rs[1..])
  }

  function Meanings(rs: seq<Reply>): seq<Message> {
    if rs == [] then [] else [Meaning(rs[0])] + Meanings(rs[1..])
  }

  // -------------------------------------------------------- the assembler, a line at a time

  /** The effect of one line, or None if its code is malformed. */
  datatype Outcome = Bad | Good(reader: Reader)

  function OnLine(r: Reader, line: string): (o: Outcome)
    requires Valid(r)
    ensures o.Good? ==> Valid(o.reader)
  {
    if r.text != "" then Good(Take(r, line))
    else if |line| < 3 || !Scan(line, r.code, 0).1 then Bad
    else Good(Take(r.(code := Scan(line, r.code, 0).0), line))
  }

  function OnLines(r: Reader, lines: seq<string>): (o: Outcome)
    requires Valid(r)
    ensures o.Good? ==> Valid(o.reader)
    decreases |lines|
  {
    if lines == [] then Good(r)
    else match OnLine(r, lines[0])
      case Bad => Bad
      case Good(s) => OnLines(s, lines[1..])
  }

  function Lines(s: string): seq<string>
    decreases |s|
  {
    if CanReadLine(s) then [FirstLine(s)] + Lines(AfterLine(s)) else []
  }

  function Tail(s: string): string
    decreases |s|
  {
    if CanReadLine(s) then Tail(AfterLine(s)) else s
  }

  /** The buffer plays no part in the effect of lines. */
  function WithBuffer(o: Outcome, buffer: string): Outcome {
    if o.Good? then Good(o.reader.(buffer := buffer)) else o
  }

  lemma {:induction false} OnLinesBuffer(r: Reader, lines: seq<string>, buffer: string)
    requires Valid(r)
    ensures OnLines(r.(buffer := buffer), lines) == WithBuffer(OnLines(r, lines), buffer)
    decreases |lines|
  {
    if lines != [] && OnLine(r, lines[0]).Good? {
      OnLinesBuffer(OnLine(r, lines[0]).reader, lines[1..], buffer);
    }
  }

  /** Without malformed codes a call consumes all complete lines of the buffer. */
  lemma {:induction false} DrainIsOnLines(r: Reader)
    requires Valid(r) && OnLines(r, Lines(r.buffer)).Good?
    ensures Good(Drain(r)) == WithBuffer(OnLines(r, Lines(r.buffer)), Tail(r.buffer))
    decreases |r.buffer|
  {
    if CanReadLine(r.buffer) {
      var rest := AfterLine(r.buffer);
      var o := OnLine(r, FirstLine(r.buffer));
      FirstLineCounts(r);
      DrainTakesLine(r);
      OnLinesBuffer(o.reader, Lines(rest), rest);
      DrainIsOnLines(o.reader.(buffer := rest));
    }
  }

  lemma FirstLineCounts(r: Reader)
    requires Valid(r) && CanReadLine(r.buffer) && OnLines(r, Lines(r.buffer)).Good?
    ensures var o := OnLine(r, FirstLine(r.buffer));
            o.Good? && OnLines(r, Lines(r.buffer)) == OnLines(o.reader, Lines(AfterLine(r.buffer)))
  {
  }

  /** One turn of the loop, when the code of the line is in order. */
  lemma DrainTakesLine(r: Reader)
    requires Valid(r) && CanReadLine(r.buffer) && OnLine(r, FirstLine(r.buffer)).Good?
    ensures Drain(r) == Drain(OnLine(r, FirstLine(r.buffer)).reader.(buffer := AfterLine(r.buffer)))
  {
    var line, s := FirstLine(r.buffer), r.(buffer := AfterLine(r.buffer));
    if r.text != "" {
      TakeBuffer(r, line, s.buffer);
      DrainContinues(r, Take(s, line));
    } else {
      var code := Scan(line, r.code, 0).0;
      TakeBuffer(r.(code := code), line, s.buffer);
      DrainBegins(r, code, Take(s.(code := code), line));
    }
  }

  lemma TakeBuffer(r: Reader, line: string, buffer: string)
    requires IsCode(r.code)
    ensures Take(r.(buffer := buffer), line) == Take(r, line).(buffer := buffer)
  {
  }

  lemma DrainBegins(r: Reader, code: seq<int>, t: Reader)
    requires Valid(r) && Valid(t) && CanReadLine(r.buffer) && r.text == "" && |FirstLine(r.buffer)| >= 3
    requires Scan(FirstLine(r.buffer), r.code, 0) == (code, true)
    requires t == Take(r.(buffer := AfterLine(r.buffer), code := code), FirstLine(r.buffer))
    ensures Drain(r) == Drain(t)
  {
  }

  lemma {:induction false} OnLinesAppend(r: Reader, a: seq<string>, b: seq<string>)
    requires Valid(r)
    ensures OnLines(r, a + b) ==
            match OnLines(r, a) case Bad => Bad case Good(s) => OnLines(s, b)
    decreases |a|
  {
    if a == [] {
      assert a + b == b;
    } else {
      assert (a + b)[0] == a[0] && (a + b)[1..] == a[1..] + b;
      if OnLine(r, a[0]).Good? {
        OnLinesAppend(OnLine(r, a[0]).reader, a[1..], b);
      }
    }
  }

  /** Lines of a longer stream: those complete before, then those that the rest completes. */
  lemma {:induction false} LinesAppend(a: string, b: string)
    ensures Lines(a + b) == Lines(a) + Lines(Tail(a) + b)
    ensures Tail(a + b) == Tail(Tail(a) + b)
    decreases |a|
  {
    if CanReadLine(a) {
      NewlineAppend(a, b);
      assert FirstLine(a + b) == FirstLine(a);
      assert AfterLine(a + b) == AfterLine(a) + b;
      LinesAppend(AfterLine(a), b);
      assert Lines(a + b) == [FirstLine(a)] + (Lines(AfterLine(a)) + Lines(Tail(a) + b));
    } else {
      assert Lines(a) == [] && Lines(a) + Lines(a + b) == Lines(a + b);
    }
  }

  lemma NewlineUnique(s: string, i: nat)
    requires i < |s| && s[i] == '\n' && forall j :: 0 <= j < i ==> s[j] != '\n'
    ensures Newline(s) == i
  {
    IndexUnique(s, '\n', i);
  }

  lemma NewlineAppend(a: string, b: string)
    requires CanReadLine(a)
    ensures Newline(a + b) == Newline(a)
  {
    NewlineUnique(a + b, Newline(a));
  }

  /** Deliveries in pieces have the effect of the whole stream, as long as no code in it is
      malformed. */
  lemma {:induction false} PiecesAreWhole(r: Reader, chunks: seq<string>)
    requires Valid(r) && !CanReadLine(r.buffer)
    requires OnLines(r, Lines(r.buffer + Join(chunks))).Good?
    ensures Good(DeliverAll(r, chunks)) ==
            WithBuffer(OnLines(r, Lines(r.buffer + Join(chunks))), Tail(r.buffer + Join(chunks)))
    decreases |chunks|
  {
    if chunks == [] {
      assert r.buffer + Join(chunks) == r.buffer;
    } else {
      var a, b := r.buffer + chunks[0], Join(chunks[1..]);
      assert r.buffer + Join(chunks) == a + b;
      LinesAppend(a, b);
      OnLinesAppend(r, Lines(a), Lines(Tail(a) + b));
      var s := r.(buffer := a);
      OnLinesBuffer(r, Lines(a), a);
      DrainIsOnLines(s);
      var d := Deliver(r, chunks[0]);
      TailHasNoLine(a);
      assert d == OnLines(r, Lines(a)).reader.(buffer := Tail(a));
      OnLinesBuffer(OnLines(r, Lines(a)).reader, Lines(Tail(a) + b), Tail(a));
      PiecesAreWhole(d, chunks[1..]);
    }
  }

  lemma {:induction false} TailHasNoLine(s: string)
    ensures !CanReadLine(Tail(s))
    decreases |s|
  {
    if CanReadLine(s) {
      TailHasNoLine(AfterLine(s));
    }
  }

  // ------------------------------------------------------------------ replies come out whole

  predicate Terminated(line: string) { line != "" && Newline(line) == |line| - 1 }

  lemma {:induction false} LinesOfJoin(lines: seq<string>)
    requires forall i :: 0 <= i < |lines| ==> Terminated(lines[i])
    ensures Lines(Join(lines)) == lines && Tail(Join(lines)) == ""
    decreases |lines|
  {
    if lines != [] {
      var s, rest := Join(lines), Join(lines[1..]);
      LinesOfJoin(lines[1..]);
      NewlineAppend(lines[0], rest);
      assert FirstLine(s) == lines[0] && AfterLine(s) == rest;
    }
  }

  lemma DigitsScan(code: seq<int>, line: string, old_: seq<int>)
    requires IsCode(code) && |old_| == 3 && |line| >= 3 && line[..3] == Digits(code)
    ensures Scan(line, old_, 0) == (code, true)
  {
    assert line[0] == line[..3][0] && line[1] == line[..3][1] && line[2] == line[..3][2];
    assert Digit(line[0]) == code[0] && Digit(line[1]) == code[1] && Digit(line[2]) == code[2];
    var c1 := old_[0 := code[0]];
    var c2 := c1[1 := code[1]];
    assert Scan(line, old_, 0) == Scan(line, c1, 1) == Scan(line, c2, 2) == Scan(line, c2[2 := code[2]], 3);
    assert c2[2 := code[2]] == code;
  }

  /** A line that carries the code: its first four characters and the rest. */
  lemma CodedLine(code: seq<int>, sep: string, text: string)
    requires IsCode(code) && |sep| == 1
    ensures var line := Digits(code) + sep + text + CRLF;
            Left4(line) == Digits(code) + sep && Mid4(line) == text + CRLF &&
            line[..3] == Digits(code) && |line| >= 6
  {
    var line := Digits(code) + sep + text + CRLF;
    assert line == (Digits(code) + sep) + (text + CRLF);
  }

  lemma ChopEnd(s: string)
    ensures Chop(s + CRLF) == s
  {
    assert (s + CRLF)[|s|..] == CRLF;
  }

  lemma SeparatorsDiffer(code: seq<int>)
    requires IsCode(code)
    ensures Digits(code) + "-" != Digits(code) + " "
  {
    assert (Digits(code) + "-")[3] == '-' && (Digits(code) + " ")[3] == ' ';
  }

  /** A middle line adds its text. */
  lemma MidTaken(r: Reader, m: Mid)
    requires Valid(r) && r.text != "" && MidOk(r.code, m)
    ensures OnLine(r, MidLine(r.code, m)) == Good(r.(text := r.text + (m.text + CRLF)))
  {
    if m.tagged {
      CodedLine(r.code, "-", m.text);
    } else {
      assert MidLine(r.code, m) == m.text + CRLF;
    }
    SeparatorsDiffer(r.code);
  }

  lemma {:induction false} MiddleTaken(r: Reader, middle: seq<Mid>)
    requires Valid(r) && r.text != ""
    requires forall i :: 0 <= i < |middle| ==> MidOk(r.code, middle[i])
    ensures OnLines(r, MidLines(r.code, middle)) == Good(r.(text := r.text + MidText(middle)))
    decreases |middle|
  {
    if middle == [] {
      assert r.text + MidText(middle) == r.text;
    } else {
      var m, rest := middle[0], middle[1..];
      assert MidOk(r.code, m);
      MidTaken(r, m);
      var s := r.(text := r.text + (m.text + CRLF));
      MiddleTaken(s, rest);
      OnLinesStep(r, MidLine(r.code, m), MidLines(r.code, rest));
      Regroup(r.text, m.text + CRLF, MidText(rest));
    }
  }

  lemma Regroup(a: string, b: string, c: string)
    ensures (a + b) + c == a + (b + c)
  {
  }

  lemma OnLinesStep(r: Reader, line: string, rest: seq<string>)
    requires Valid(r) && OnLine(r, line).Good?
    ensures OnLines(r, [line] + rest) == OnLines(OnLine(r, line).reader, rest)
  {
    assert ([line] + rest)[0] == line && ([line] + rest)[1..] == rest;
  }

  lemma SingleTaken(r: Reader, code: seq<int>, text: string)
    requires Valid(r) && r.text == "" && IsCode(code)
    ensures OnLines(r, [Digits(code) + " " + text + CRLF]) ==
            Good(r.(code := code, seen := r.seen + [Message(code, text)]))
  {
    var line := Digits(code) + " " + text + CRLF;
    CodedLine(code, " ", text);
    DigitsScan(code, line, r.code);
    ChopEnd(text);
    assert r.text + Mid4(line) == text + CRLF;
    assert OnLines(r, [line]) == OnLines(OnLine(r, line).reader, [line][1..]);
  }

  lemma LastTaken(r: Reader, code: seq<int>, last: string)
    requires Valid(r) && r.text != "" && r.code == code && IsCode(code)
    ensures OnLines(r, [Digits(code) + " " + last + CRLF]) ==
            Good(r.(text := "", seen := r.seen + [Message(code, r.text + last)]))
  {
    var line := Digits(code) + " " + last + CRLF;
    CodedLine(code, " ", last);
    ChopEnd(r.text + last);
    assert r.text + Mid4(line) == r.text + last + CRLF;
    assert OnLines(r, [line]) == OnLines(OnLine(r, line).reader, [line][1..]);
  }

  /** One reply, from its first line to its last. */
  lemma ReplyTaken(r: Reader, reply: Reply)
    requires Valid(r) && r.text == "" && WellFormed(reply)
    ensures OnLines(r, RenderLines(reply)) ==
            Good(r.(code := reply.code, seen := r.seen + [Meaning(reply)]))
  {
    match reply
    case Single(code, text) => SingleTaken(r, code, text);
    case Multi(code, first, middle, last) =>
      var head := Digits(code) + "-" + first + CRLF;
      CodedLine(code, "-", first);
      DigitsScan(code, head, r.code);
      SeparatorsDiffer(code);
      var s := r.(code := code, text := first + CRLF);
      assert r.text + Mid4(head) == first + CRLF;
      assert OnLine(r, head) == Good(s);
      MiddleTaken(s, middle);
      var t := s.(text := s.text + MidText(middle));
      LastTaken(t, code, last);
      OnLinesAppend(s, MidLines(code, middle), [Digits(code) + " " + last + CRLF]);
      var lines := RenderLines(reply);
      assert lines[0] == head &&
             lines[1..] == MidLines(code, middle) + [Digits(code) + " " + last + CRLF];
  }

  function After(r: Reader, reply: Reply): Reader {
    r.(code := reply.code, seen := r.seen + [Meaning(reply)])
  }

  lemma ReplyTakenThen(r: Reader, reply: Reply, rest: seq<string>)
    requires Valid(r) && r.text == "" && WellFormed(reply)
    ensures OnLines(r, RenderLines(reply) + rest) == OnLines(After(r, reply), rest)
  {
    ReplyTaken(r, reply);
    OnLinesAppend(r, RenderLines(reply), rest);
  }

  function AfterAll(r: Reader, rs: seq<Reply>): Reader
    decreases |rs|
  {
    if rs == [] then r else AfterAll(After(r, rs[0]), rs[1..])
  }

  lemma {:induction false} AfterAllSeen(r: Reader, rs: seq<Reply>)
    ensures var s := AfterAll(r, rs);
            s.text == r.text && s.seen == r.seen + Meanings(rs)
    decreases |rs|
  {
    if rs == [] {
      assert r.seen + Meanings(rs) == r.seen;
    } else {
      var s := After(r, rs[0]);
      AfterAllSeen(s, rs[1..]);
      assert s.seen + Meanings(rs[1..]) == r.seen + Meanings(rs);
    }
  }

  lemma {:induction false} RepliesTaken(r: Reader, rs: seq<Reply>)
    requires Valid(r) && r.text == "" && forall i :: 0 <= i < |rs| ==> WellFormed(rs[i])
    ensures OnLines(r, AllLines(rs)) == Good(AfterAll(r, rs))
    decreases |rs|
  {
    if rs != [] {
      assert WellFormed(rs[0]);
      ReplyTakenThen(r, rs[0], AllLines(rs[1..]));
      RepliesTaken(After(r, rs[0]), rs[1..]);
    }
  }

  lemma LineTerminated(s: string)
    requires OneLine(s)
    ensures Terminated(s + CRLF)
  {
    var line := s + CRLF;
    assert line[|line| - 1] == '\n';
    NewlineUnique(line, |line| - 1);
  }

  lemma OneLineAppend(a: string, b: string)
    requires OneLine(a) && OneLine(b)
    ensures OneLine(a + b)
  {
  }

  lemma CodeOneLine(code: seq<int>, sep: string, text: string)
    requires IsCode(code) && OneLine(sep) && OneLine(text)
    ensures Terminated(Digits(code) + sep + text + CRLF)
  {
    OneLineAppend(Digits(code), sep);
    OneLineAppend(Digits(code) + sep, text);
    LineTerminated(Digits(code) + sep + text);
  }

  lemma {:induction false} MidLinesTerminated(code: seq<int>, middle: seq<Mid>)
    requires IsCode(code) && forall i :: 0 <= i < |middle| ==> MidOk(code, middle[i])
    ensures forall i :: 0 <= i < |MidLines(code, middle)| ==> Terminated(MidLines(code, middle)[i])
    decreases |middle|
  {
    if middle != [] {
      if middle[0].tagged {
        CodeOneLine(code, "-", middle[0].text);
      } else {
        LineTerminated(middle[0].text);
        assert MidLine(code, middle[0]) == middle[0].text + CRLF;
      }
      MidLinesTerminated(code, middle[1..]);
    }
  }

  lemma ReplyLinesTerminated(r: Reply)
    requires WellFormed(r)
    ensures forall i :: 0 <= i < |RenderLines(r)| ==> Terminated(RenderLines(r)[i])
  {
    match r
    case Single(code, text) => CodeOneLine(code, " ", text);
    case Multi(code, first, middle, last) =>
      CodeOneLine(code, "-", first);
      MidLinesTerminated(code, middle);
      CodeOneLine(code, " ", last);
  }

  lemma {:induction false} AllLinesTerminated(rs: seq<Reply>)
    requires forall i :: 0 <= i < |rs| ==> WellFormed(rs[i])
    ensures forall i :: 0 <= i < |AllLines(rs)| ==> Terminated(AllLines(rs)[i])
    decreases |rs|
  {
    if rs != [] {
      ReplyLinesTerminated(rs[0]);
      AllLinesTerminated(rs[1..]);
    }
  }

  /** Any sequence of replies, rendered and cut into pieces in any way, comes out as it went in:
      every code with its whole text, in order, and nothing is left over. */
  lemma AssemblerInvertsFormat(rs: seq<Reply>, chunks: seq<string>, code: seq<int>)
    requires forall i :: 0 <= i < |rs| ==> WellFormed(rs[i])
    requires Join(chunks) == Join(AllLines(rs)) && |code| == 3
    ensures var d := DeliverAll(Reader("", "", code, []), chunks);
            d.seen == Meanings(rs) && d.text == "" && d.buffer == ""
  {
    var r := Reader("", "", code, []);
    AllLinesTerminated(rs);
    LinesOfJoin(AllLines(rs));
    RepliesTaken(r, rs);
    AfterAllSeen(r, rs);
    assert r.buffer + Join(chunks) == Join(AllLines(rs));
    PiecesAreWhole(r, chunks);
  }
}
