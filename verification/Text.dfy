/**
 What the models of texts and streams share: lines end with CR LF, texts are cut at a character
 and put together again, and a result may be missing.
 */
module Text {

  datatype Option<+T> = None | Some(value: T)

  const CRLF := "\r\n"

  function DigitChar(d: nat): char requires d < 10 { ('0' as int + d) as char }

  /** The index of a character, or the length. */
  function IndexOf(s: string, c: char): (i: nat)
    ensures i <= |s|
    ensures i < |s| ==> s[i] == c
    ensures forall j :: 0 <= j < i ==> s[j] != c
  {
    if s == "" || s[0] == c then 0 else 1 + IndexOf(s[1..], c)
  }

  lemma IndexUnique(s: string, c: char, i: nat)
    requires i < |s| && s[i] == c && forall j :: 0 <= j < i ==> s[j] != c
    ensures IndexOf(s, c) == i
  {
  }

  /** The parts between the separators, empty ones included. */
  function Split(s: string, c: char): (parts: seq<string>)
    ensures |parts| >= 1
    decreases |s|
  {
    var i := IndexOf(s, c);
    if i == |s| then [s] else [s[..i]] + Split(s[i + 1..], c)
  }

  /** The parts with the separator between them. */
  function Separated(parts: seq<string>, c: char): string {
    if parts == [] then "" else if |parts| == 1 then parts[0] else parts[0] + [c] + Separated(parts[1..], c)
  }

  /** What splitting gives: parts without the separator that make up the text. */
  lemma {:induction false} SplitRestores(s: string, c: char)
    ensures forall i :: 0 <= i < |Split(s, c)| ==> c !in Split(s, c)[i]
    ensures Separated(Split(s, c), c) == s
    decreases |s|
  {
    var i := IndexOf(s, c);
    if i < |s| {
      SplitRestores(s[i + 1..], c);
      assert Split(s, c) == [s[..i]] + Split(s[i + 1..], c);
      assert Split(s, c)[1..] == Split(s[i + 1..], c);
      assert s == s[..i] + [c] + s[i + 1..];
    }
  }

  /** No other parts do. */
  lemma {:induction false} SplitReads(parts: seq<string>, c: char)
    requires parts != [] && forall i :: 0 <= i < |parts| ==> c !in parts[i]
    ensures Split(Separated(parts, c), c) == parts
    decreases |parts|
  {
    if |parts| == 1 {
      assert IndexOf(parts[0], c) == |parts[0]|;
      assert Split(parts[0], c) == [parts[0]] == parts;
    } else {
      SplitReads(parts[1..], c);
      SplitOne(parts[0], Separated(parts[1..], c), c);
      assert parts == [parts[0]] + parts[1..];
    }
  }

  lemma SplitOne(first: string, rest: string, c: char)
    requires c !in first
    ensures Split(first + [c] + rest, c) == [first] + Split(rest, c)
  {
    var s := first + [c] + rest;
    assert s[|first|] == c && s[..|first|] == first && s[|first| + 1..] == rest;
    assert forall j :: 0 <= j < |first| ==> s[j] == first[j];
    IndexUnique(s, c, |first|);
  }

  /** The pieces one after the other. */
  function Join(pieces: seq<string>): string {
    if pieces == [] then "" else pieces[0] + Join(pieces[1..])
  }
}
