/**
 How the raw lines written for a command carry out its script: line by line, but EPSV and EPRT may
 be tried for PASV and PORT, and PASS may be left out.
 */
module FtpScript {
  import opened Text
  import opened FtpTypes

  predicate Accepted(code: nat) { code / 100 in {2, 3} && code != 202 }

  /** A line as it is written: the text of PORT is replaced by the local address. */
  predicate Writes(l: Line, x: Line) { x == l || (l.verb == PORT && x.verb == PORT) }

  /** The line that is tried before PASV or PORT. */
  predicate Tries(l: Line, x: Line) {
    (l.verb == PASV && x == Line(EPSV, "")) || (l.verb == PORT && x.verb == EPRT)
  }

  function Last(w: seq<Exchange>): Exchange requires w != [] { w[|w| - 1] }
  function Front(w: seq<Exchange>): seq<Exchange> requires w != [] { w[..|w| - 1] }

  /** The first n exchanges carry out the first k lines of the script: each line is written, where
      an accepted EPSV or EPRT stands for PASV or PORT, a refused one stands before it, and PASS is
      left out when USER was answered with 230. */
  ghost predicate Covers(w: seq<Exchange>, n: nat, raw: seq<Line>, k: nat)
    requires n <= |w| && k <= |raw|
    decreases k
  {
    if k == 0 then n == 0
    else
      n > 0 &&
      (|| (Writes(raw[k - 1], w[n - 1].line) && Covers(w, n - 1, raw, k - 1))
       || (raw[k - 1].verb == PASS && k > 1 && raw[k - 2].verb == USER &&
           w[n - 1].line.verb == USER && w[n - 1].code == 230 && Covers(w, n, raw, k - 1))
       || (Tries(raw[k - 1], w[n - 1].line) && Accepted(w[n - 1].code) && Covers(w, n - 1, raw, k - 1))
       || (n > 1 && Writes(raw[k - 1], w[n - 1].line) && Tries(raw[k - 1], w[n - 2].line) &&
           !Accepted(w[n - 2].code) && Covers(w, n - 2, raw, k - 1)))
  }

  /** All but the last of k lines are carried out, and the line tried before the last is not
      accepted, or not yet. */
  ghost predicate Trying(w: seq<Exchange>, raw: seq<Line>, k: nat)
    requires k <= |raw|
  {
    k > 0 && w != [] && Tries(raw[k - 1], Last(w).line) && !Accepted(Last(w).code) &&
    Covers(w, |w| - 1, raw, k - 1)
  }

  /** Written so far and still to write make up the script. */
  ghost predicate Divides(w: seq<Exchange>, rest: seq<Line>, raw: seq<Line>) {
    |rest| <= |raw| && rest == raw[|raw| - |rest|..] && Covers(w, |w|, raw, |raw| - |rest|)
  }

  /** The same while the last line written may still have to be retried in its older form. */
  ghost predicate Midway(w: seq<Exchange>, rest: seq<Line>, raw: seq<Line>) {
    |rest| <= |raw| && rest == raw[|raw| - |rest|..] &&
    (Covers(w, |w|, raw, |raw| - |rest|) || Trying(w, raw, |raw| - |rest|))
  }

  /** Scripts in which the engine itself chooses between EPSV and PASV, and EPRT and PORT. */
  predicate Plain(raw: seq<Line>) {
    forall l :: l in raw ==> l.verb !in {EPSV, EPRT} && (l.verb == PASV ==> l.arg == "")
  }

  predicate PassiveScript(raw: seq<Line>) { forall l :: l in raw ==> l.verb !in {PORT, EPRT} }

  /** Only the first n exchanges count. */
  lemma {:induction false} CoversFrame(w: seq<Exchange>, v: seq<Exchange>, n: nat, raw: seq<Line>, k: nat)
    requires n <= |w| && n <= |v| && k <= |raw| && forall i :: 0 <= i < n ==> w[i] == v[i]
    requires Covers(w, n, raw, k)
    ensures Covers(v, n, raw, k)
    decreases k
  {
    if k > 0 {
      if Covers(w, n - 1, raw, k - 1) {
        CoversFrame(w, v, n - 1, raw, k - 1);
      }
      if Covers(w, n, raw, k - 1) {
        CoversFrame(w, v, n, raw, k - 1);
      }
      if n > 1 && Covers(w, n - 2, raw, k - 1) {
        CoversFrame(w, v, n - 2, raw, k - 1);
      }
    }
  }

  /** The next line of the script is written, or tried. */
  lemma DividesSend(w: seq<Exchange>, rest: seq<Line>, raw: seq<Line>, x: Exchange)
    requires Divides(w, rest, raw) && rest != []
    requires Writes(rest[0], x.line) || Tries(rest[0], x.line)
    ensures Midway(w + [x], rest[1..], raw)
  {
    assert raw[|raw| - |rest|] == rest[0];
    CoversFrame(w, w + [x], |w|, raw, |raw| - |rest|);
  }

  /** The line written last is answered: what was tried is accepted or has to be retried. */
  lemma AnsweredMidway(w: seq<Exchange>, code: nat, rest: seq<Line>, raw: seq<Line>)
    requires Midway(w, rest, raw) && w != [] && Last(w).code == 0
    ensures var v := Front(w) + [Exchange(Last(w).line, code)];
            Midway(v, rest, raw) && (Accepted(code) ==> Divides(v, rest, raw))
  {
    var k := |raw| - |rest|;
    var v := Front(w) + [Exchange(Last(w).line, code)];
    if Covers(w, |w| - 1, raw, k - 1) {
      CoversFrame(w, v, |w| - 1, raw, k - 1);
    }
    if |w| > 1 && Covers(w, |w| - 2, raw, k - 1) {
      CoversFrame(w, v, |w| - 2, raw, k - 1);
    }
  }

  /** The last line written, while it is not answered, is the last of the script so far. */
  lemma MidwayLine(w: seq<Exchange>, rest: seq<Line>, raw: seq<Line>)
    requires Midway(w, rest, raw) && w != [] && Last(w).code == 0
    ensures var k := |raw| - |rest|;
            0 < k <= |raw| && (Writes(raw[k - 1], Last(w).line) || Tries(raw[k - 1], Last(w).line))
  {
  }

  /** The same for a script without PASS, whatever the code. */
  lemma DividesLine(w: seq<Exchange>, rest: seq<Line>, raw: seq<Line>)
    requires Divides(w, rest, raw) && w != [] && forall l :: l in raw ==> l.verb != PASS
    ensures var k := |raw| - |rest|;
            0 < k <= |raw| && (Writes(raw[k - 1], Last(w).line) || Tries(raw[k - 1], Last(w).line))
  {
    assert |rest| < |raw| ==> raw[|raw| - |rest| - 1] in raw;
  }

  lemma DividesNothing(rest: seq<Line>, raw: seq<Line>)
    requires Divides([], rest, raw)
    ensures rest == raw
  {
  }

  /** PASS is dropped after USER was answered with 230. */
  lemma DividesDropped(w: seq<Exchange>, rest: seq<Line>, raw: seq<Line>)
    requires Divides(w, rest, raw) && rest != [] && rest[0].verb == PASS && |rest| < |raw|
    requires raw[|raw| - |rest| - 1].verb == USER
    requires w != [] && Last(w).line.verb == USER && Last(w).code == 230
    ensures Divides(w, rest[1..], raw)
  {
    assert raw[|raw| - |rest|] == rest[0];
  }

  /** In a plain script a refused EPSV or EPRT was tried, and PASV or PORT follows it. */
  lemma DividesRetried(w: seq<Exchange>, rest: seq<Line>, raw: seq<Line>, l: Line)
    requires Midway(w, rest, raw) && Plain(raw) && w != [] && !Accepted(Last(w).code)
    requires (Last(w).line.verb == EPSV && l == Line(PASV, "")) ||
             (Last(w).line.verb == EPRT && l.verb == PORT)
    ensures Divides(w + [Exchange(l, 0)], rest, raw)
  {
    var k := |raw| - |rest|;
    assert k > 0 ==> raw[k - 1] in raw;
    CoversFrame(w, w + [Exchange(l, 0)], |w| - 1, raw, k - 1);
  }

  /** A refused line of another kind is the last of the script so far. */
  lemma DividesRefused(w: seq<Exchange>, rest: seq<Line>, raw: seq<Line>)
    requires Midway(w, rest, raw) && w != [] && Last(w).line.verb !in {EPSV, EPRT}
    ensures Divides(w, rest, raw)
  {
  }
}
