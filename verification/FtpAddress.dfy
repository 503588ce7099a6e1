/**
 The addresses of data connections: the argument of PORT (section 4.1.2 of RFC 959), the
 address in a 227 reply, and the port in a 229 reply (section 3 of RFC 2428).
 */
module FtpAddress {
  import opened Text

  // -------------------------------------------------------------------------------- numbers

  predicate IsDigit(c: char) { '0' <= c <= '9' }

  function DigitOf(c: char): nat requires IsDigit(c) { c as int - '0' as int }

  predicate Numeral(s: string) { s != "" && forall i :: 0 <= i < |s| ==> IsDigit(s[i]) }

  /** QString::number. */
  function Decimal(n: nat): string {
    if n < 10 then [DigitChar(n)] else Decimal(n / 10) + [DigitChar(n % 10)]
  }

  function Value(s: string): nat
    requires forall i :: 0 <= i < |s| ==> IsDigit(s[i])
  {
    if s == "" then 0 else 10 * Value(s[..|s| - 1]) + DigitOf(s[|s| - 1])
  }

  const UINT_LIMIT := 0x1_0000_0000
  const INT_LIMIT := 0x8000_0000
  const PORT_LIMIT := 0x1_0000

  /** Conversions that fail give 0. */
  function ToUInt(s: string): nat { if Numeral(s) && Value(s) < UINT_LIMIT then Value(s) else 0 }
  function ToInt(s: string): nat { if Numeral(s) && Value(s) < INT_LIMIT then Value(s) else 0 }

  lemma {:induction false} ValueOfDecimal(n: nat)
    ensures Numeral(Decimal(n)) && Value(Decimal(n)) == n
    ensures n > 0 ==> Decimal(n)[0] != '0'
    ensures n < 10 <==> |Decimal(n)| == 1
  {
    if n >= 10 {
      ValueOfDecimal(n / 10);
      var s := Decimal(n);
      assert s[..|s| - 1] == Decimal(n / 10);
    }
  }

  // ---------------------------------------------------------------------- fields of a numeral

  /** How many digits the text starts with. */
  function Run(s: string): (n: nat)
    ensures n <= |s|
    ensures forall i :: 0 <= i < n ==> IsDigit(s[i])
    ensures n < |s| ==> !IsDigit(s[n])
  {
    if s == "" || !IsDigit(s[0]) then 0 else 1 + Run(s[1..])
  }

  /** A match of n groups of digits with separators between, at the start of the text. Groups
      are as long as possible. */
  function Fields(s: string, n: nat, sep: char): Option<seq<string>>
    requires n >= 1
    decreases |s|
  {
    var r := Run(s);
    if r == 0 then None
    else if n == 1 then Some([s[..r]])
    else if r < |s| && s[r] == sep then
      match Fields(s[r + 1..], n - 1, sep)
      case Some(fs) => Some([s[..r]] + fs)
      case None => None
    else None
  }

  /** QRegExp::indexIn: the match that starts first. */
  function Search(s: string): Option<seq<string>>
    decreases |s|
  {
    if Fields(s, 6, ',').Some? || s == "" then Fields(s, 6, ',') else Search(s[1..])
  }

  function Joined(fs: seq<string>, sep: char): string
    requires |fs| >= 1
    decreases |fs|
  {
    if |fs| == 1 then fs[0] else fs[0] + [sep] + Joined(fs[1..], sep)
  }

  function Decimals(ns: seq<nat>): (fs: seq<string>)
    ensures |fs| == |ns| && forall i :: 0 <= i < |ns| ==> fs[i] == Decimal(ns[i])
  {
    if ns == [] then [] else [Decimal(ns[0])] + Decimals(ns[1..])
  }

  predicate NoDigitFirst(s: string) { s == "" || !IsDigit(s[0]) }

  lemma {:induction false} RunOfNumeral(a: string, b: string)
    requires forall i :: 0 <= i < |a| ==> IsDigit(a[i])
    requires NoDigitFirst(b)
    ensures Run(a + b) == |a|
  {
    if a == "" {
      assert a + b == b;
    } else {
      RunOfNumeral(a[1..], b);
      assert (a + b)[1..] == a[1..] + b;
    }
  }

  lemma FieldsStep(first: string, sep: char, more: string, n: nat)
    requires Numeral(first) && !IsDigit(sep) && n > 1 && Fields(more, n - 1, sep).Some?
    ensures Fields(first + ([sep] + more), n, sep) == Some([first] + Fields(more, n - 1, sep).value)
  {
    var s := first + ([sep] + more);
    RunOfNumeral(first, [sep] + more);
    assert s[..|first|] == first && s[|first| + 1..] == more;
  }

  lemma LastField(last: string, sep: char, rest: string)
    requires Numeral(last) && NoDigitFirst(rest)
    ensures Fields(last + rest, 1, sep) == Some([last])
  {
    RunOfNumeral(last, rest);
    assert (last + rest)[..|last|] == last;
  }

  lemma JoinedStep(fs: seq<string>, sep: char, rest: string)
    requires |fs| > 1
    ensures Joined(fs, sep) + rest == fs[0] + ([sep] + (Joined(fs[1..], sep) + rest))
  {
  }

  lemma {:induction false} FieldsOfJoined(fs: seq<string>, sep: char, rest: string)
    requires |fs| >= 1 && !IsDigit(sep) && NoDigitFirst(rest)
    requires forall i :: 0 <= i < |fs| ==> Numeral(fs[i])
    ensures Fields(Joined(fs, sep) + rest, |fs|, sep) == Some(fs)
    decreases |fs|
  {
    if |fs| == 1 {
      LastField(fs[0], sep, rest);
      assert fs == [fs[0]];
    } else {
      var tail := fs[1..];
      TailNumerals(fs);
      FieldsOfJoined(tail, sep, rest);
      JoinedStep(fs, sep, rest);
      FieldsStep(fs[0], sep, Joined(tail, sep) + rest, |fs|);
      assert fs == [fs[0]] + tail;
    }
  }

  lemma TailNumerals(fs: seq<string>)
    requires fs != [] && forall i :: 0 <= i < |fs| ==> Numeral(fs[i])
    ensures Numeral(fs[0]) && forall i :: 0 <= i < |fs[1..]| ==> Numeral(fs[1..][i])
  {
  }

  lemma DecimalsAreNumerals(ns: seq<nat>)
    ensures forall i :: 0 <= i < |ns| ==> Numeral(Decimals(ns)[i]) && Value(Decimals(ns)[i]) == ns[i]
  {
    forall i | 0 <= i < |ns| ensures Numeral(Decimals(ns)[i]) && Value(Decimals(ns)[i]) == ns[i] {
      ValueOfDecimal(ns[i]);
    }
  }

  // -------------------------------------------------------------------------------- 227, PORT

  function Octets(ip: nat): seq<nat>
    requires ip < UINT_LIMIT
  {
    [ip / 0x100_0000, ip / 0x1_0000 % 0x100, ip / 0x100 % 0x100, ip % 0x100]
  }

  /** What startNextCmd writes after "PORT ". */
  function PortArgument(ip: nat, port: nat): string
    requires ip < UINT_LIMIT && port < PORT_LIMIT
  {
    Joined(Decimals(Octets(ip) + [port / 0x100, port % 0x100]), ',')
  }

  datatype Peer = Peer(host: string, port: nat)

  /** The host and port taken from the text of a 227 reply; the sum is cut to 16 bits. */
  function ReadPassive(text: string): Option<Peer> {
    match Search(text)
    case Some(fs) =>
      assert |fs| == 6 by { SearchGivesSix(text); }
      Some(Peer(Joined(fs[..4], '.'), (ToUInt(fs[4]) * 0x100 + ToUInt(fs[5])) % PORT_LIMIT))
    case None => None
  }

  lemma {:induction false} FieldsGiveCount(s: string, n: nat, sep: char)
    requires n >= 1 && Fields(s, n, sep).Some?
    ensures |Fields(s, n, sep).value| == n
    decreases n
  {
    if n > 1 {
      FieldsGiveCount(s[Run(s) + 1..], n - 1, sep);
    }
  }

  lemma {:induction false} SearchGivesSix(s: string)
    requires Search(s).Some?
    ensures |Search(s).value| == 6
    decreases |s|
  {
    if Fields(s, 6, ',').Some? {
      FieldsGiveCount(s, 6, ',');
    } else {
      SearchGivesSix(s[1..]);
    }
  }

  /** The 32-bit address a dotted host text stands for. */
  function HostAddress(host: string): Option<nat> {
    match Fields(host, 4, '.')
    case Some(fs) =>
      assert |fs| == 4 by { FieldsGiveCount(host, 4, '.'); }
      Some(0x100_0000 * ToUInt(fs[0]) + 0x1_0000 * ToUInt(fs[1]) + 0x100 * ToUInt(fs[2]) + ToUInt(fs[3]))
    case None => None
  }

  /** Text in front of an address: no digit is followed by a comma or by the end. */
  predicate Quiet(s: string) {
    (s == "" || !IsDigit(s[|s| - 1])) &&
    forall i, j :: 0 <= i < |s| && 0 <= j < |s| && j == i + 1 && IsDigit(s[i]) ==> s[j] != ','
  }

  lemma QuietHasNoMatch(prefix: string, s: string, n: nat)
    requires Quiet(prefix) && prefix != "" && n > 1
    ensures Fields(prefix + s, n, ',') == None
  {
    var r := Run(prefix + s);
    if r > 0 {
      var last := |prefix| - 1;
      assert r < |prefix| by {
        assert (prefix + s)[last] == prefix[last];
      }
      var before := r - 1;
      assert IsDigit((prefix + s)[before]) && (prefix + s)[before] == prefix[before];
      assert prefix[r] != ',' && (prefix + s)[r] == prefix[r];
    }
  }

  lemma QuietTail(prefix: string)
    requires Quiet(prefix) && prefix != ""
    ensures Quiet(prefix[1..])
  {
    var t := prefix[1..];
    forall i, j | 0 <= i < j < |t| && j == i + 1 && IsDigit(t[i]) ensures t[j] != ',' {
      var k := j + 1;
      assert prefix[j] == t[i] && prefix[k] == t[j];
    }
  }

  lemma {:induction false} SearchSkipsQuiet(prefix: string, s: string)
    requires Quiet(prefix) && Fields(s, 6, ',').Some?
    ensures Search(prefix + s) == Fields(s, 6, ',')
    decreases |prefix|
  {
    if prefix == "" {
      assert prefix + s == s;
    } else {
      QuietHasNoMatch(prefix, s, 6);
      QuietTail(prefix);
      SearchSkipsQuiet(prefix[1..], s);
      assert (prefix + s)[1..] == prefix[1..] + s;
    }
  }

  lemma OctetsMakeAddress(ip: nat)
    requires ip < UINT_LIMIT
    ensures var o := Octets(ip);
            0x100_0000 * o[0] + 0x1_0000 * o[1] + 0x100 * o[2] + o[3] == ip &&
            forall i :: 0 <= i < 4 ==> o[i] < 0x100
  {
    var a, b := ip / 0x100, ip / 0x1_0000;
    assert a / 0x100 == b && b / 0x100 == ip / 0x100_0000;
  }

  function PortNumbers(ip: nat, port: nat): (ns: seq<nat>)
    requires ip < UINT_LIMIT && port < PORT_LIMIT
    ensures |ns| == 6
  {
    Octets(ip) + [port / 0x100, port % 0x100]
  }

  lemma FoundIsArgument(ip: nat, port: nat, prefix: string, suffix: string)
    requires ip < UINT_LIMIT && port < PORT_LIMIT
    requires Quiet(prefix) && NoDigitFirst(suffix)
    ensures Search(prefix + PortArgument(ip, port) + suffix) == Some(Decimals(PortNumbers(ip, port)))
  {
    var fs := Decimals(PortNumbers(ip, port));
    DecimalsAreNumerals(PortNumbers(ip, port));
    FieldsOfJoined(fs, ',', suffix);
    var tail := PortArgument(ip, port) + suffix;
    assert prefix + PortArgument(ip, port) + suffix == prefix + tail;
    SearchSkipsQuiet(prefix, tail);
  }

  lemma HostIsRead(fs: seq<string>, ip: nat)
    requires ip < UINT_LIMIT && fs == Decimals(Octets(ip))
    ensures HostAddress(Joined(fs, '.')) == Some(ip)
  {
    DecimalsAreNumerals(Octets(ip));
    OctetsMakeAddress(ip);
    FieldsOfJoined(fs, '.', "");
    assert Joined(fs, '.') + "" == Joined(fs, '.');
    HostOfFields(fs, Octets(ip), Joined(fs, '.'));
  }

  /** Every IPv4 address and every port written as the argument of PORT is read back by the 227
      parser, wherever in a reply it stands. */
  lemma PassiveReadsPort(ip: nat, port: nat, prefix: string, suffix: string)
    requires ip < UINT_LIMIT && port < PORT_LIMIT
    requires Quiet(prefix) && NoDigitFirst(suffix)
    ensures var peer := ReadPassive(prefix + PortArgument(ip, port) + suffix);
            peer.Some? && peer.value.port == port && HostAddress(peer.value.host) == Some(ip)
  {
    var ns := PortNumbers(ip, port);
    var fs := Decimals(ns);
    FoundIsArgument(ip, port, prefix, suffix);
    assert fs[..4] == Decimals(Octets(ip));
    HostIsRead(fs[..4], ip);
    PortIsRead(ip, port);
  }

  lemma PortIsRead(ip: nat, port: nat)
    requires ip < UINT_LIMIT && port < PORT_LIMIT
    ensures var fs := Decimals(PortNumbers(ip, port));
            (ToUInt(fs[4]) * 0x100 + ToUInt(fs[5])) % PORT_LIMIT == port
  {
    var ns := PortNumbers(ip, port);
    DecimalsAreNumerals(ns);
    assert ToUInt(Decimals(ns)[4]) == ns[4] == port / 0x100;
    assert ToUInt(Decimals(ns)[5]) == ns[5] == port % 0x100;
  }

  lemma HostOfFields(fs: seq<string>, o: seq<nat>, host: string)
    requires |fs| == 4 && |o| == 4 && Fields(host, 4, '.') == Some(fs)
    requires forall i :: 0 <= i < 4 ==> Numeral(fs[i]) && Value(fs[i]) == o[i] && o[i] < 0x100
    ensures HostAddress(host) == Some(0x100_0000 * o[0] + 0x1_0000 * o[1] + 0x100 * o[2] + o[3])
  {
    assert ToUInt(fs[0]) == o[0] && ToUInt(fs[1]) == o[1] && ToUInt(fs[2]) == o[2] && ToUInt(fs[3]) == o[3];
  }

  // -------------------------------------------------------------------------------------- 229

  /** `Beyond`: the reply is taken for a 229 reply but has no fourth part to read. */
  datatype Extended = Missing | Beyond | Port(port: nat)

  function ReadExtended(text: string): Extended {
    var open := IndexOf(text, '(');
    if open == |text| then Missing
    else
      var rest := text[open + 1..];
      if rest == "" then Beyond
      else
        var parts := Split(rest, rest[0]);
        if |parts| <= 3 then Beyond else Port(ToInt(parts[3]) % PORT_LIMIT)
  }

  function ExtendedReply(d: char, port: nat): string { "(" + [d, d, d] + Decimal(port) + [d] }

  lemma SplitAtHead(c: char, s: string)
    ensures Split([c] + s, c) == [""] + Split(s, c)
  {
    assert ([c] + s)[1..] == s;
    IndexUnique([c] + s, c, 0);
    assert ([c] + s)[..0] == "";
  }

  lemma SplitFirst(number: string, d: char, rest: string)
    ensures Split(number + [d] + rest, d)[0] == number[..IndexOf(number, d)]
  {
    var s := number + [d] + rest;
    var i := IndexOf(number, d);
    assert s[i] == d;
    IndexUnique(s, d, i);
    assert s[..i] == number[..i];
  }

  lemma SplitTail(c: char, s: string, k: nat)
    requires k < |Split(s, c)|
    ensures |Split([c] + s, c)| > k + 1 && Split([c] + s, c)[k + 1] == Split(s, c)[k]
  {
    SplitAtHead(c, s);
  }

  /** The fourth part is the number up to the first delimiter. */
  lemma FourthPart(d: char, s: string)
    ensures var parts := Split([d, d, d] + s, d);
            |parts| > 3 && parts[3] == Split(s, d)[0]
  {
    var one, two := [d] + s, [d] + ([d] + s);
    assert [d, d, d] + s == [d] + two;
    SplitTail(d, s, 0);
    SplitTail(d, one, 1);
    SplitTail(d, two, 2);
  }

  /** A proper front part of a numeral without leading zeros is a smaller number. */
  lemma {:induction false} FrontIsSmaller(s: string, k: nat)
    requires Numeral(s) && s[0] != '0' && k < |s|
    ensures Value(s[..k]) < Value(s)
    decreases |s|
  {
    var t := s[..|s| - 1];
    if k == 0 {
      if |s| > 1 {
        FrontIsSmaller(t, 0);
      }
    } else if k == |s| - 1 {
      PositiveNumeral(t);
    } else {
      FrontIsSmaller(t, k);
      assert t[..k] == s[..k];
    }
  }

  lemma {:induction false} PositiveNumeral(s: string)
    requires Numeral(s) && s[0] != '0'
    ensures Value(s) > 0
    decreases |s|
  {
    if |s| > 1 {
      PositiveNumeral(s[..|s| - 1]);
    }
  }

  lemma ExtendedRest(prefix: string, rest: string)
    requires '(' !in prefix
    ensures IndexOf(prefix + ("(" + rest), '(') == |prefix|
    ensures (prefix + ("(" + rest))[|prefix| + 1..] == rest
  {
    var text := prefix + ("(" + rest);
    assert text[|prefix|] == '(';
    IndexUnique(text, '(', |prefix|);
  }

  /** The port that the parser sees. */
  lemma ExtendedIsFront(prefix: string, d: char, port: nat, suffix: string)
    requires port < PORT_LIMIT && '(' !in prefix
    ensures ReadExtended(prefix + ExtendedReply(d, port) + suffix) ==
            Port(ToInt(Decimal(port)[..IndexOf(Decimal(port), d)]) % PORT_LIMIT)
  {
    var number := Decimal(port);
    var s := number + [d] + suffix;
    var rest := [d, d, d] + s;
    ExtendedText(prefix, d, number, suffix);
    ReadsFourth(prefix, d, s);
    SplitFirst(number, d, suffix);
  }

  lemma ExtendedText(prefix: string, d: char, number: string, suffix: string)
    ensures prefix + ("(" + [d, d, d] + number + [d]) + suffix == prefix + ("(" + ([d, d, d] + (number + [d] + suffix)))
  {
  }

  /** The number is the fourth part, between the third delimiter and the next. */
  lemma ReadsFourth(prefix: string, d: char, s: string)
    requires '(' !in prefix
    ensures ReadExtended(prefix + ("(" + ([d, d, d] + s))) == Port(ToInt(Split(s, d)[0]) % PORT_LIMIT)
  {
    var rest := [d, d, d] + s;
    ExtendedRest(prefix, rest);
    FourthPart(d, s);
    assert rest[0] == d;
  }

  /** Cutting a port at one of its own digits makes it smaller, unless it is 0. */
  lemma CutPort(d: char, port: nat)
    requires port < PORT_LIMIT
    ensures var number := Decimal(port);
            ToInt(number[..IndexOf(number, d)]) == port <==> d !in number || port == 0
  {
    ValueOfDecimal(port);
    var number := Decimal(port);
    var k := IndexOf(number, d);
    if d !in number {
      assert number[..k] == number;
    } else if port > 0 {
      FrontIsSmaller(number, k);
    } else {
      assert number[..k] == "";
    }
  }

  /** Which delimiters the 229 parser accepts: for a port, every character that is not one of
      its own digits; so every character that is no digit, for all ports. */
  lemma ExtendedReadsPort(prefix: string, d: char, port: nat, suffix: string)
    requires port < PORT_LIMIT && '(' !in prefix
    ensures ReadExtended(prefix + ExtendedReply(d, port) + suffix) == Port(port)
            <==> d !in Decimal(port) || port == 0
    ensures !IsDigit(d) ==> d !in Decimal(port)
  {
    ExtendedIsFront(prefix, d, port, suffix);
    CutPort(d, port);
    CutPortFits(d, port);
    DecimalHasDigits(d, port);
    PortOf(ReadExtended(prefix + ExtendedReply(d, port) + suffix),
           ToInt(Decimal(port)[..IndexOf(Decimal(port), d)]), port, d !in Decimal(port) || port == 0);
  }

  lemma PortOf(x: Extended, v: nat, port: nat, same: bool)
    requires v < PORT_LIMIT && port < PORT_LIMIT && x == Port(v % PORT_LIMIT) && (v == port <==> same)
    ensures x == Port(port) <==> same
  {
  }

  lemma DecimalHasDigits(d: char, port: nat)
    ensures !IsDigit(d) ==> d !in Decimal(port)
  {
    ValueOfDecimal(port);
  }

  lemma CutPortFits(d: char, port: nat)
    requires port < PORT_LIMIT
    ensures ToInt(Decimal(port)[..IndexOf(Decimal(port), d)]) < PORT_LIMIT
  {
    ValueOfDecimal(port);
    FrontIsNotGreater(Decimal(port), IndexOf(Decimal(port), d));
  }

  lemma {:induction false} FrontIsNotGreater(s: string, k: nat)
    requires Numeral(s) && k <= |s|
    ensures Value(s[..k]) <= Value(s)
    decreases |s|
  {
    if k == |s| {
      assert s[..k] == s;
    } else if |s| == 1 {
      assert s[..k] == "";
    } else {
      var t := s[..|s| - 1];
      FrontIsNotGreater(t, k);
      assert t[..k] == s[..k];
    }
  }
}
