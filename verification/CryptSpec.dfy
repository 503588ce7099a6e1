/**
 The encryption of SimpleCrypt: a header, then a random byte, a checksum or hash, and the text,
 perhaps compressed, as a chain of exclusive ors over eight key bytes. The compression and the
 two digests are parameters.
 */
module CryptSpec {

  type Byte = bv8
  type Bytes = seq<bv8>

  // ---------------------------------------------------------------------------------- the key

  /** A quint64. */
  type Key = bv64

  /** The lowest byte, the rest moved to the right by a byte, and the two put together. */
  function Low(s: Key): Byte { (s & 0xff) as bv8 }
  function Right(s: Key): Key { s >> 8 }
  function Attach(high: Key, low: Byte): Key { (high << 8) | (low as bv64) }

  /** The key moved to the right by n bytes. */
  function Shifted(key: Key, n: nat): Key {
    if n == 0 then key else Right(Shifted(key, n - 1))
  }

  function KeyPart(key: Key, i: nat): Byte { Low(Shifted(key, i)) }

  function KeyParts(key: Key): (parts: Bytes)
    ensures |parts| == 8
    ensures forall i :: 0 <= i < 8 ==> parts[i] == KeyPart(key, i)
  {
    seq(8, i requires 0 <= i < 8 => KeyPart(key, i))
  }

  /** The parts put together again, from number i on. */
  function Combined(parts: Bytes, i: nat): Key
    requires |parts| == 8 && i <= 8
    decreases 8 - i
  {
    if i == 8 then 0 else Attach(Combined(parts, i + 1), parts[i])
  }

  lemma AttachLow(s: Key)
    ensures Attach(Right(s), Low(s)) == s
  {
  }

  lemma {:induction false} CombinedFrom(key: Key, i: nat)
    requires i <= 8 && Shifted(key, 8) == 0
    ensures Combined(KeyParts(key), i) == Shifted(key, i)
    decreases 8 - i
  {
    if i < 8 {
      CombinedFrom(key, i + 1);
      AttachLow(Shifted(key, i));
    }
  }

  lemma EightRights(s: Key)
    ensures Right(Right(Right(Right(Right(Right(Right(Right(s)))))))) == 0
  {
  }

  lemma ShiftedTwice(key: Key, n: nat)
    ensures Shifted(key, n + 2) == Right(Right(Shifted(key, n)))
  {
  }

  lemma NothingLeft(key: Key)
    ensures Shifted(key, 8) == 0
  {
    ShiftedTwice(key, 0);
    ShiftedTwice(key, 2);
    ShiftedTwice(key, 4);
    ShiftedTwice(key, 6);
    EightRights(key);
  }

  /** No bit of the key is lost: its parts make up the key, so no two keys share them. */
  lemma KeyPartsRecombine(key: Key, other: Key)
    ensures Combined(KeyParts(key), 0) == key
    ensures KeyParts(key) == KeyParts(other) ==> key == other
  {
    NothingLeft(key);
    NothingLeft(other);
    CombinedFrom(key, 0);
    CombinedFrom(other, 0);
  }

  // -------------------------------------------------------------------------------- the chain

  /** A ciphertext byte: the text, the key, and the ciphertext byte before. */
  function Cipher(p: Bytes, k: Bytes, i: nat): Byte
    requires i < |p| && |k| == 8
  {
    p[i] ^ k[i % 8] ^ (if i == 0 then 0 else Cipher(p, k, i - 1))
  }

  function Encoded(p: Bytes, k: Bytes): (c: Bytes)
    requires |k| == 8
    ensures |c| == |p|
    ensures forall i :: 0 <= i < |p| ==> c[i] == Cipher(p, k, i)
  {
    seq(|p|, i requires 0 <= i < |p| => Cipher(p, k, i))
  }

  function Plain(c: Bytes, k: Bytes, i: nat): Byte
    requires i < |c| && |k| == 8
  {
    c[i] ^ (if i == 0 then 0 else c[i - 1]) ^ k[i % 8]
  }

  function Decoded(c: Bytes, k: Bytes): (p: Bytes)
    requires |k| == 8
    ensures |p| == |c|
    ensures forall i :: 0 <= i < |c| ==> p[i] == Plain(c, k, i)
  {
    seq(|c|, i requires 0 <= i < |c| => Plain(c, k, i))
  }

  lemma XorCancels(a: Byte, b: Byte, c: Byte)
    ensures (a ^ b ^ c) ^ c ^ b == a && (a ^ c ^ b) ^ b ^ c == a
  {
  }

  lemma DecodeUndoesEncode(p: Bytes, k: Bytes)
    requires |k| == 8
    ensures Decoded(Encoded(p, k), k) == p
  {
    var c := Encoded(p, k);
    forall i | 0 <= i < |p| ensures Decoded(c, k)[i] == p[i] {
      XorCancels(p[i], k[i % 8], if i == 0 then 0 else c[i - 1]);
    }
  }

  lemma {:induction false} CipherOfDecoded(c: Bytes, k: Bytes, i: nat)
    requires |k| == 8 && i < |c|
    ensures Cipher(Decoded(c, k), k, i) == c[i]
    decreases i
  {
    if i > 0 {
      CipherOfDecoded(c, k, i - 1);
    }
    XorCancels(c[i], if i == 0 then 0 else c[i - 1], k[i % 8]);
  }

  lemma EncodeUndoesDecode(c: Bytes, k: Bytes)
    requires |k| == 8
    ensures Encoded(Decoded(c, k), k) == c
  {
    forall i | 0 <= i < |c| ensures Encoded(Decoded(c, k), k)[i] == c[i] {
      CipherOfDecoded(c, k, i);
    }
  }

  lemma XorDiffers(a: Byte, b: Byte, x: Byte, y: Byte)
    ensures a ^ x ^ y == b ^ x ^ y <==> a == b
    ensures x ^ a ^ y == x ^ b ^ y <==> a == b
  {
    XorCancels(a, x, y);
    XorCancels(b, x, y);
    assert x ^ a ^ y == a ^ x ^ y && x ^ b ^ y == b ^ x ^ y;
  }

  /** Changing a byte of the ciphertext changes the same byte of the text and the next one, and
      no other. */
  lemma ChangeSpreadsOnce(c: Bytes, k: Bytes, i: nat, b: Byte, j: nat)
    requires |k| == 8 && i < |c| && b != c[i] && j < |c|
    ensures Decoded(c[i := b], k)[j] != Decoded(c, k)[j] <==> j == i || j == i + 1
  {
    var d := c[i := b];
    if j == i {
      XorDiffers(b, c[i], if j == 0 then 0 else c[j - 1], k[j % 8]);
    } else if j == i + 1 {
      XorDiffers(b, c[i], c[j], k[j % 8]);
    }
  }

  /** The recurrence of the chain, on text and ciphertext: each byte is xored with its key byte and
      the ciphertext byte before it. */
  predicate Chained(p: Bytes, c: Bytes, k: Bytes)
    requires |k| == 8
  {
    |c| == |p| && forall i :: 0 <= i < |p| ==> c[i] == p[i] ^ k[i % 8] ^ (if i == 0 then 0 else c[i - 1])
  }

  /** The same from the ciphertext to the text. */
  predicate Unchained(c: Bytes, p: Bytes, k: Bytes)
    requires |k| == 8
  {
    |p| == |c| && forall i :: 0 <= i < |c| ==> p[i] == c[i] ^ (if i == 0 then 0 else c[i - 1]) ^ k[i % 8]
  }

  lemma EncodedIsChained(p: Bytes, k: Bytes)
    requires |k| == 8
    ensures Chained(p, Encoded(p, k), k)
  {
    ChainAt(p, Encoded(p, k), k);
  }

  lemma ChainAt(p: Bytes, c: Bytes, k: Bytes)
    requires |k| == 8 && |c| == |p| && forall i :: 0 <= i < |p| ==> c[i] == Cipher(p, k, i)
    ensures Chained(p, c, k)
  {
  }

  lemma CipherStep(p: Bytes, k: Bytes, i: nat, last: Byte)
    requires |k| == 8 && i < |p| && last == if i == 0 then 0 else Cipher(p, k, i - 1)
    ensures p[i] ^ k[i % 8] ^ last == Cipher(p, k, i)
  {
  }

  lemma IsEncoded(p: Bytes, c: Bytes, k: Bytes)
    requires |k| == 8 && |c| == |p| && forall i :: 0 <= i < |p| ==> c[i] == Cipher(p, k, i)
    ensures c == Encoded(p, k) && Chained(p, c, k)
  {
    ChainAt(p, c, k);
  }

  lemma IsDecoded(c: Bytes, p: Bytes, k: Bytes)
    requires |k| == 8 && |p| == |c| && forall i :: 0 <= i < |c| ==> p[i] == Plain(c, k, i)
    ensures p == Decoded(c, k) && Unchained(c, p, k)
  {
  }

  /** Decoding with another key: byte i comes out changed by the difference of the two key bytes
      number i % 8, so wrong exactly where these differ. */
  lemma OtherKeyShifts(c: Bytes, k: Bytes, l: Bytes, i: nat)
    requires |k| == 8 && |l| == 8 && i < |c|
    ensures Decoded(c, l)[i] == Decoded(c, k)[i] ^ k[i % 8] ^ l[i % 8]
    ensures Decoded(c, l)[i] == Decoded(c, k)[i] <==> k[i % 8] == l[i % 8]
  {
    PlainShifts(c, k, l, i);
    DecodedAt(c, k, i);
    DecodedAt(c, l, i);
  }

  lemma PlainShifts(c: Bytes, k: Bytes, l: Bytes, i: nat)
    requires |k| == 8 && |l| == 8 && i < |c|
    ensures Plain(c, l, i) == Plain(c, k, i) ^ k[i % 8] ^ l[i % 8]
    ensures Plain(c, l, i) == Plain(c, k, i) <==> k[i % 8] == l[i % 8]
  {
  }

  lemma DecodedAt(c: Bytes, k: Bytes, i: nat)
    requires |k| == 8 && i < |c|
    ensures Decoded(c, k)[i] == Plain(c, k, i)
  {
  }

  /** Two keys give a text the same ciphertext exactly if they agree on the bytes it reaches. */
  lemma EncodedTellsKey(p: Bytes, k: Bytes, l: Bytes)
    requires |k| == 8 && |l| == 8
    ensures Encoded(p, k) == Encoded(p, l) <==> forall i :: 0 <= i < 8 && i < |p| ==> k[i] == l[i]
  {
    var c, d := Encoded(p, k), Encoded(p, l);
    if c == d {
      forall i | 0 <= i < 8 && i < |p| ensures k[i] == l[i] {
        assert c[i] == Cipher(p, k, i) && d[i] == Cipher(p, l, i);
        assert i > 0 ==> c[i - 1] == Cipher(p, k, i - 1) && d[i - 1] == Cipher(p, l, i - 1);
        XorDiffers(k[i], l[i], p[i], if i == 0 then 0 else c[i - 1]);
      }
    }
    if forall i :: 0 <= i < 8 && i < |p| ==> k[i] == l[i] {
      forall i | 0 <= i < |p| ensures c[i] == d[i] {
        CipherSame(p, k, l, i);
      }
    }
  }

  lemma {:induction false} CipherSame(p: Bytes, k: Bytes, l: Bytes, i: nat)
    requires |k| == 8 && |l| == 8 && i < |p| && forall j :: 0 <= j < 8 && j < |p| ==> k[j] == l[j]
    ensures Cipher(p, k, i) == Cipher(p, l, i)
    decreases i
  {
    if i > 0 {
      CipherSame(p, k, l, i - 1);
    }
  }

  // -------------------------------------------------------------------------------- the layers

  /** qCompress, qUncompress, qChecksum and SHA-1. */
  datatype Codec = Codec(
    compress: Bytes -> Bytes, uncompress: Bytes -> Bytes, checksum: Bytes -> bv16, hash: Bytes -> Bytes)

  ghost predicate Lawful(codec: Codec) {
    (forall x :: codec.uncompress(codec.compress(x)) == x) && forall x :: |codec.hash(x)| == 20
  }

  datatype Compression = Auto | Always | Never
  datatype Protection = NoProtection | Checksum | Hash
  datatype Error = NoError | NoKeySet | UnknownVersion | IntegrityFailed

  const COMPRESSED: Byte := 1
  const WITH_CHECKSUM: Byte := 2
  const WITH_HASH: Byte := 4
  const VERSION: Byte := 3

  predicate Has(flags: Byte, flag: Byte) { flags & flag == flag }

  /** QDataStream writes the higher byte first. */
  function ToBytes(n: bv16): Bytes { [(n >> 8) as bv8, (n & 0xff) as bv8] }
  function FromBytes(hi: Byte, lo: Byte): bv16 { ((hi as bv16) << 8) | (lo as bv16) }

  lemma BytesOfWord(n: bv16)
    ensures FromBytes((n >> 8) as bv8, (n & 0xff) as bv8) == n
  {
  }

  lemma WordOfBytes(hi: Byte, lo: Byte)
    ensures (FromBytes(hi, lo) >> 8) as bv8 == hi && (FromBytes(hi, lo) & 0xff) as bv8 == lo
  {
  }

  lemma StreamRoundTrip(n: bv16, hi: Byte, lo: Byte)
    ensures FromBytes(ToBytes(n)[0], ToBytes(n)[1]) == n
    ensures FromBytes(hi, lo) == n <==> [hi, lo] == ToBytes(n)
  {
    BytesOfWord(n);
    WordOfBytes(hi, lo);
    if [hi, lo] == ToBytes(n) {
      assert [hi, lo][0] == ToBytes(n)[0] && [hi, lo][1] == ToBytes(n)[1];
    }
  }

  /** What stands between the random byte and the text. */
  function Guard(codec: Codec, flags: Byte, text: Bytes): Bytes {
    if Has(flags, WITH_CHECKSUM) then ToBytes(codec.checksum(text))
    else if Has(flags, WITH_HASH) then codec.hash(text)
    else []
  }

  function Sealed(codec: Codec, k: Bytes, flags: Byte, random: Byte, text: Bytes): Bytes
    requires |k| == 8
  {
    [VERSION, flags] + Encoded([random] + Guard(codec, flags, text) + text, k)
  }

  predicate Shrinks(codec: Codec, mode: Compression, text: Bytes) {
    mode.Always? || (mode.Auto? && |codec.compress(text)| < |text|)
  }

  function FlagsFor(compressed: bool, protection: Protection): Byte {
    (if compressed then COMPRESSED else 0) | FlagOf(protection)
  }

  function FlagOf(protection: Protection): Byte {
    match protection case NoProtection => 0 case Checksum => WITH_CHECKSUM case Hash => WITH_HASH
  }

  function GuardOf(codec: Codec, protection: Protection, text: Bytes): Bytes {
    match protection
    case NoProtection => []
    case Checksum => ToBytes(codec.checksum(text))
    case Hash => codec.hash(text)
  }

  function Encrypt(codec: Codec, k: Bytes, mode: Compression, protection: Protection, random: Byte, text: Bytes): Bytes
    requires |k| == 8
  {
    var small := Shrinks(codec, mode, text);
    Sealed(codec, k, FlagsFor(small, protection), random, if small then codec.compress(text) else text)
  }

  datatype Opened = Opened(bytes: Bytes, error: Error)

  function Unpacked(codec: Codec, flags: Byte, text: Bytes): Opened {
    Opened(if Has(flags, COMPRESSED) then codec.uncompress(text) else text, NoError)
  }

  /** After the chain is undone and the random byte is dropped. */
  function Checked(codec: Codec, flags: Byte, ba: Bytes): Opened {
    if Has(flags, WITH_CHECKSUM) then
      if |ba| < 2 || codec.checksum(ba[2..]) != FromBytes(ba[0], ba[1]) then Opened([], IntegrityFailed)
      else Unpacked(codec, flags, ba[2..])
    else if Has(flags, WITH_HASH) then
      if |ba| < 20 || codec.hash(ba[20..]) != ba[..20] then Opened([], IntegrityFailed)
      else Unpacked(codec, flags, ba[20..])
    else Unpacked(codec, flags, ba)
  }

  function Mid(s: Bytes, n: nat): Bytes { if n <= |s| then s[n..] else [] }

  /** Reading past the single byte of a short text finds the 0 that ends its buffer. */
  function FlagsOf(cypher: Bytes): Byte { if |cypher| >= 2 then cypher[1] else 0 }

  function Decrypt(codec: Codec, k: Bytes, cypher: Bytes): Opened
    requires |k| == 8
  {
    if cypher == [] || cypher[0] != VERSION then Opened([], UnknownVersion)
    else Checked(codec, FlagsOf(cypher), Mid(Decoded(Mid(cypher, 2), k), 1))
  }

  // -------------------------------------------------------------------------------- theorems

  lemma GuardChecks(codec: Codec, flags: Byte, text: Bytes)
    requires Lawful(codec)
    ensures Checked(codec, flags, Guard(codec, flags, text) + text) == Unpacked(codec, flags, text)
  {
    var g := Guard(codec, flags, text);
    assert (g + text)[|g|..] == text && (g + text)[..|g|] == g;
    if Has(flags, WITH_CHECKSUM) {
      StreamRoundTrip(codec.checksum(text), g[0], g[1]);
    }
  }

  lemma SealOpens(codec: Codec, k: Bytes, flags: Byte, random: Byte, text: Bytes)
    requires |k| == 8 && Lawful(codec)
    ensures Decrypt(codec, k, Sealed(codec, k, flags, random, text)) == Unpacked(codec, flags, text)
  {
    SealIsChecked(codec, k, flags, random, text);
    GuardChecks(codec, flags, text);
  }

  lemma SealIsChecked(codec: Codec, k: Bytes, flags: Byte, random: Byte, text: Bytes)
    requires |k| == 8
    ensures Decrypt(codec, k, Sealed(codec, k, flags, random, text)) ==
            Checked(codec, flags, Guard(codec, flags, text) + text)
  {
    var guard := Guard(codec, flags, text);
    SealDecodes(k, flags, random, guard + text);
    Bracket(random, guard, text);
  }

  lemma Bracket(random: Byte, guard: Bytes, text: Bytes)
    ensures [random] + guard + text == [random] + (guard + text)
  {
  }

  lemma SealDecodes(k: Bytes, flags: Byte, random: Byte, body: Bytes)
    requires |k| == 8
    ensures var c := [VERSION, flags] + Encoded([random] + body, k);
            c[0] == VERSION && FlagsOf(c) == flags && Mid(Decoded(Mid(c, 2), k), 1) == body
  {
    var inner := [random] + body;
    var c := [VERSION, flags] + Encoded(inner, k);
    assert Mid(c, 2) == Encoded(inner, k);
    DecodeUndoesEncode(inner, k);
    assert inner[1..] == body;
  }

  lemma FlagsTell(compressed: bool, protection: Protection)
    ensures Has(FlagsFor(compressed, protection), COMPRESSED) <==> compressed
    ensures Has(FlagsFor(compressed, protection), WITH_CHECKSUM) <==> protection.Checksum?
    ensures Has(FlagsFor(compressed, protection), WITH_HASH) <==> protection.Hash?
  {
  }

  lemma GuardFor(codec: Codec, compressed: bool, protection: Protection, text: Bytes)
    ensures Guard(codec, FlagsFor(compressed, protection), text) == GuardOf(codec, protection, text)
  {
    FlagsTell(compressed, protection);
  }

  /** Whatever was encrypted, under whatever modes and with whatever random byte, is decrypted
      with the same key. */
  lemma DecryptUndoesEncrypt(codec: Codec, k: Bytes, mode: Compression, protection: Protection,
                             random: Byte, text: Bytes)
    requires |k| == 8 && Lawful(codec)
    ensures Decrypt(codec, k, Encrypt(codec, k, mode, protection, random, text)) == Opened(text, NoError)
  {
    var small := Shrinks(codec, mode, text);
    FlagsTell(small, protection);
    SealOpens(codec, k, FlagsFor(small, protection), random, if small then codec.compress(text) else text);
  }

  /** The random byte, the digest and the text, compressed or not, as they stand before the chain. */
  function Body(codec: Codec, small: bool, protection: Protection, random: Byte, text: Bytes): Bytes {
    var packed := if small then codec.compress(text) else text;
    [random] + GuardOf(codec, protection, packed) + packed
  }

  /** The ciphertext byte by byte: version 3, the flags 1 (compressed), 2 (checksum) and 4 (hash),
      and the body, each byte xored with its key byte and the ciphertext byte before it. */
  lemma CipherLayout(codec: Codec, k: Bytes, mode: Compression, protection: Protection, random: Byte, text: Bytes)
    requires |k| == 8
    ensures var c := Encrypt(codec, k, mode, protection, random, text);
            var small := mode == Always || (mode == Auto && |codec.compress(text)| < |text|);
            var b := Body(codec, small, protection, random, text);
            && |c| == |b| + 2 && c[0] == 3
            && c[1] == (if small then 1 else 0) +
                       (if protection.Checksum? then 2 else if protection.Hash? then 4 else 0)
            && Chained(b, c[2..], k)
  {
    var small := Shrinks(codec, mode, text);
    GuardFor(codec, small, protection, if small then codec.compress(text) else text);
    FlagsAdd(small, protection);
    ChainLayout(FlagsFor(small, protection), Body(codec, small, protection, random, text), k);
  }

  lemma FlagsAdd(compressed: bool, protection: Protection)
    ensures FlagsFor(compressed, protection) ==
            (if compressed then 1 else 0) + (if protection.Checksum? then 2 else if protection.Hash? then 4 else 0)
  {
  }

  lemma ChainLayout(flags: Byte, b: Bytes, k: Bytes)
    requires |k| == 8
    ensures var c := [VERSION, flags] + Encoded(b, k);
            && |c| == |b| + 2 && c[0] == VERSION && c[1] == flags
            && Chained(b, c[2..], k)
  {
    var c := [VERSION, flags] + Encoded(b, k);
    assert c[2..] == Encoded(b, k);
    EncodedIsChained(b, k);
  }

  /** The body starts with the random byte and ends with the text; between them stands nothing, the
      two bytes of the checksum, the higher first, or the hash. */
  lemma BodyParts(codec: Codec, small: bool, protection: Protection, random: Byte, text: Bytes)
    ensures var b := Body(codec, small, protection, random, text);
            var packed := if small then codec.compress(text) else text;
            && b[0] == random && |b| == 1 + |GuardOf(codec, protection, packed)| + |packed|
            && b[|b| - |packed|..] == packed
            && (protection.NoProtection? ==> |b| == 1 + |packed|)
            && (protection.Hash? ==> b[1..|b| - |packed|] == codec.hash(packed))
            && (protection.Checksum? ==>
                  |b| == 3 + |packed| && ((b[1] as bv16) << 8) | (b[2] as bv16) == codec.checksum(packed))
  {
    var packed := if small then codec.compress(text) else text;
    var g := GuardOf(codec, protection, packed);
    PartsOf(random, g, packed);
    if protection.Checksum? {
      BytesOfSum(codec.checksum(packed), g[0], g[1]);
    }
  }

  lemma PartsOf(random: Byte, g: Bytes, packed: Bytes)
    ensures var b := [random] + g + packed;
            && |b| == 1 + |g| + |packed| && b[0] == random && b[1..1 + |g|] == g && b[1 + |g|..] == packed
            && (|g| == 2 ==> b[1] == g[0] && b[2] == g[1])
  {
  }

  lemma BytesOfSum(n: bv16, hi: Byte, lo: Byte)
    requires [hi, lo] == ToBytes(n)
    ensures ((hi as bv16) << 8) | (lo as bv16) == n
  {
    assert [hi, lo][0] == ToBytes(n)[0] && [hi, lo][1] == ToBytes(n)[1];
    BytesOfWord(n);
  }

  /** For a body of at least 8 bytes no two 64-bit keys give the same ciphertext. */
  lemma CipherTellsKey(codec: Codec, key: Key, other: Key, mode: Compression, protection: Protection,
                       random: Byte, text: Bytes)
    requires |Encrypt(codec, KeyParts(key), mode, protection, random, text)| >= 10
    ensures (Encrypt(codec, KeyParts(key), mode, protection, random, text) ==
             Encrypt(codec, KeyParts(other), mode, protection, random, text)) <==> key == other
  {
    var small := Shrinks(codec, mode, text);
    var packed := if small then codec.compress(text) else text;
    var flags := FlagsFor(small, protection);
    var b := [random] + Guard(codec, flags, packed) + packed;
    ChainTellsKey(flags, b, KeyParts(key), KeyParts(other));
    KeyPartsRecombine(key, other);
  }

  lemma ChainTellsKey(flags: Byte, b: Bytes, k: Bytes, l: Bytes)
    requires |k| == 8 && |l| == 8 && |b| >= 8
    ensures [VERSION, flags] + Encoded(b, k) == [VERSION, flags] + Encoded(b, l) <==> k == l
  {
    var c, d := [VERSION, flags] + Encoded(b, k), [VERSION, flags] + Encoded(b, l);
    assert c[2..] == Encoded(b, k) && d[2..] == Encoded(b, l);
    EncodedTellsKey(b, k, l);
    if c == d {
      assert k == l;
    }
  }

  /** Decrypted with another key, a text without digest comes out changed by the key bytes that
      differ, and no error is reported. */
  lemma OtherKeyGarbles(codec: Codec, k: Bytes, l: Bytes, random: Byte, text: Bytes)
    requires |k| == 8 && |l| == 8
    ensures var r := Decrypt(codec, l, Encrypt(codec, k, Never, NoProtection, random, text));
            && r.error == NoError && |r.bytes| == |text|
            && forall i :: 0 <= i < |text| ==> r.bytes[i] == text[i] ^ k[(i + 1) % 8] ^ l[(i + 1) % 8]
  {
    var flags := FlagsFor(false, NoProtection);
    FlagsTell(false, NoProtection);
    var b := [random] + [] + text;
    var c := Encrypt(codec, k, Never, NoProtection, random, text);
    assert Mid(c, 2) == Encoded(b, k);
    DecodeUndoesEncode(b, k);
    var d := Decoded(Encoded(b, k), l);
    assert Decrypt(codec, l, c) == Opened(d[1..], NoError);
    forall i | 0 <= i < |text| ensures d[1..][i] == text[i] ^ k[(i + 1) % 8] ^ l[(i + 1) % 8] {
      OtherKeyShifts(Encoded(b, k), k, l, i + 1);
      assert b[i + 1] == text[i];
    }
  }

  /** A ciphertext without a body: its header only, or cut before the flags. */
  predicate Bare(cypher: Bytes) {
    1 <= |cypher| <= 2 && cypher[0] == VERSION &&
    !Has(FlagsOf(cypher), WITH_CHECKSUM) && !Has(FlagsOf(cypher), WITH_HASH)
  }

  /** A text of any kind with its digest, sealed with this key under any flags byte. */
  ghost predicate Genuine(codec: Codec, k: Bytes, cypher: Bytes)
    requires |k| == 8
  {
    exists flags, random, text :: cypher == Sealed(codec, k, flags, random, text)
  }

  lemma CheckedIsGuarded(codec: Codec, flags: Byte, ba: Bytes) returns (text: Bytes)
    requires Checked(codec, flags, ba).error.NoError?
    ensures ba == Guard(codec, flags, text) + text
  {
    if Has(flags, WITH_CHECKSUM) {
      text := ba[2..];
      StreamRoundTrip(codec.checksum(text), ba[0], ba[1]);
    } else if Has(flags, WITH_HASH) {
      text := ba[20..];
    } else {
      text := ba;
    }
  }

  lemma IsSealed(codec: Codec, k: Bytes, cypher: Bytes, random: Byte, text: Bytes)
    requires |k| == 8 && |cypher| > 2 && cypher[0] == VERSION
    requires cypher[2..] == Encoded([random] + Guard(codec, cypher[1], text) + text, k)
    ensures Genuine(codec, k, cypher)
  {
    assert cypher == [VERSION, cypher[1]] + cypher[2..];
    assert cypher == Sealed(codec, k, cypher[1], random, text);
  }

  lemma AcceptedIsSealed(codec: Codec, k: Bytes, cypher: Bytes)
    requires |k| == 8 && |cypher| > 2 && Decrypt(codec, k, cypher).error.NoError?
    ensures Genuine(codec, k, cypher)
  {
    var inner := Decoded(cypher[2..], k);
    var text := CheckedIsGuarded(codec, cypher[1], inner[1..]);
    EncodeUndoesDecode(cypher[2..], k);
    Reassembled(inner, Guard(codec, cypher[1], text), text);
    IsSealed(codec, k, cypher, inner[0], text);
  }

  lemma Reassembled(inner: Bytes, guard: Bytes, text: Bytes)
    requires inner != [] && inner[1..] == guard + text
    ensures inner == [inner[0]] + guard + text
  {
    assert inner == [inner[0]] + inner[1..];
    Bracket(inner[0], guard, text);
  }

  lemma BareIsAccepted(codec: Codec, k: Bytes, cypher: Bytes)
    requires |k| == 8 && |cypher| <= 2 && Lawful(codec)
    ensures Decrypt(codec, k, cypher).error.NoError? <==> Bare(cypher)
  {
    assert Mid(Decoded(Mid(cypher, 2), k), 1) == [];
  }

  /** Decryption reports no error for exactly the ciphertexts that are sealed with this key under
      some flags byte, and for bare headers. */
  lemma AcceptsExactlySeals(codec: Codec, k: Bytes, cypher: Bytes)
    requires |k| == 8 && Lawful(codec)
    ensures Decrypt(codec, k, cypher).error.NoError? <==> Genuine(codec, k, cypher) || Bare(cypher)
    ensures Decrypt(codec, k, cypher).error.UnknownVersion? <==> cypher == [] || cypher[0] != 3
    ensures Decrypt(codec, k, cypher).error.IntegrityFailed? <==>
              cypher != [] && cypher[0] == 3 && !Genuine(codec, k, cypher) && !Bare(cypher)
    ensures !Decrypt(codec, k, cypher).error.NoError? ==> Decrypt(codec, k, cypher).bytes == []
  {
    if Genuine(codec, k, cypher) {
      var flags, random, text :| cypher == Sealed(codec, k, flags, random, text);
      SealOpens(codec, k, flags, random, text);
    } else if |cypher| <= 2 {
      BareIsAccepted(codec, k, cypher);
    } else if Decrypt(codec, k, cypher).error.NoError? {
      AcceptedIsSealed(codec, k, cypher);
    }
  }

  // ------------------------------------------------------------ what encryption can make

  /** The result of encryption with this key, whatever the modes, the random byte and the text. */
  ghost predicate Made(codec: Codec, k: Bytes, cypher: Bytes)
    requires |k| == 8
  {
    exists mode, protection, random, text :: cypher == Encrypt(codec, k, mode, protection, random, text)
  }

  function DigestLength(flags: Byte): nat {
    if Has(flags, WITH_CHECKSUM) then 2 else if Has(flags, WITH_HASH) then 20 else 0
  }

  /** What stands behind the digest of a ciphertext. */
  function Packed(k: Bytes, cypher: Bytes): Bytes
    requires |k| == 8
  {
    Mid(Mid(Decoded(Mid(cypher, 2), k), 1), DigestLength(FlagsOf(cypher)))
  }

  function ProtectionOf(flags: Byte): Protection {
    if Has(flags, WITH_CHECKSUM) then Checksum else if Has(flags, WITH_HASH) then Hash else NoProtection
  }

  lemma FlagsInRange(flags: Byte, compressed: bool, protection: Protection)
    ensures FlagsFor(compressed, protection) < 6
    ensures flags < 6 ==> FlagsFor(Has(flags, COMPRESSED), ProtectionOf(flags)) == flags
  {
  }

  /** What a seal opens to, and what was sealed. */
  lemma SealedParts(codec: Codec, k: Bytes, flags: Byte, random: Byte, body: Bytes)
    requires |k| == 8 && Lawful(codec)
    ensures var cypher := Sealed(codec, k, flags, random, body);
            && |cypher| > 2 && FlagsOf(cypher) == flags && Packed(k, cypher) == body
            && Decrypt(codec, k, cypher) == Unpacked(codec, flags, body)
  {
    var guard := Guard(codec, flags, body);
    SealOpens(codec, k, flags, random, body);
    SealDecodes(k, flags, random, guard + body);
    Bracket(random, guard, body);
    assert (guard + body)[|guard|..] == body;
  }

  /** An accepted ciphertext is sealed under its own flags. */
  lemma AcceptedParts(codec: Codec, k: Bytes, cypher: Bytes) returns (random: Byte)
    requires |k| == 8 && Lawful(codec) && |cypher| > 2 && Decrypt(codec, k, cypher).error.NoError?
    ensures cypher == Sealed(codec, k, cypher[1], random, Packed(k, cypher))
    ensures Decrypt(codec, k, cypher) == Unpacked(codec, cypher[1], Packed(k, cypher))
  {
    AcceptedIsSealed(codec, k, cypher);
    var flags, r, body :| cypher == Sealed(codec, k, flags, r, body);
    SealedParts(codec, k, flags, r, body);
    random := r;
  }

  /** Which ciphertexts encryption with this key can make: those that are accepted, have a body,
      carry one of the six flag bytes that encryption sets, and, if they are flagged as compressed,
      hold what compressing their text gives. All others that are accepted were not made so. */
  lemma MadeExactly(codec: Codec, k: Bytes, cypher: Bytes)
    requires |k| == 8 && Lawful(codec)
    ensures Made(codec, k, cypher) <==>
              var plain := Decrypt(codec, k, cypher);
              && plain.error.NoError? && |cypher| > 2 && cypher[1] < 6
              && (Has(cypher[1], COMPRESSED) ==> Packed(k, cypher) == codec.compress(plain.bytes))
  {
    if Made(codec, k, cypher) {
      MadeParts(codec, k, cypher);
    }
    var plain := Decrypt(codec, k, cypher);
    if plain.error.NoError? && |cypher| > 2 && cypher[1] < 6 {
      if Has(cypher[1], COMPRESSED) ==> Packed(k, cypher) == codec.compress(plain.bytes) {
        PartsMake(codec, k, cypher);
      }
    }
  }

  lemma MadeParts(codec: Codec, k: Bytes, cypher: Bytes)
    requires |k| == 8 && Lawful(codec) && Made(codec, k, cypher)
    ensures Decrypt(codec, k, cypher).error.NoError? && |cypher| > 2 && cypher[1] < 6
    ensures Has(cypher[1], COMPRESSED) ==>
              Packed(k, cypher) == codec.compress(Decrypt(codec, k, cypher).bytes)
  {
    var mode, protection, random, text :| cypher == Encrypt(codec, k, mode, protection, random, text);
    var small := Shrinks(codec, mode, text);
    FlagsInRange(0, small, protection);
    FlagsTell(small, protection);
    SealedParts(codec, k, FlagsFor(small, protection), random, if small then codec.compress(text) else text);
  }

  lemma PartsMake(codec: Codec, k: Bytes, cypher: Bytes)
    requires |k| == 8 && Lawful(codec)
    requires Decrypt(codec, k, cypher).error.NoError? && |cypher| > 2 && cypher[1] < 6
    requires Has(cypher[1], COMPRESSED) ==>
               Packed(k, cypher) == codec.compress(Decrypt(codec, k, cypher).bytes)
    ensures Made(codec, k, cypher)
  {
    var random := AcceptedParts(codec, k, cypher);
    var small := Has(cypher[1], COMPRESSED);
    FlagsInRange(cypher[1], small, ProtectionOf(cypher[1]));
    var mode := if small then Always else Never;
    assert cypher == Encrypt(codec, k, mode, ProtectionOf(cypher[1]), random, Decrypt(codec, k, cypher).bytes);
  }

  /** Any text sealed under a flags byte that encryption never sets is accepted all the same. */
  lemma OddFlagsAreAccepted(codec: Codec, k: Bytes, flags: Byte, random: Byte, text: Bytes)
    requires |k| == 8 && Lawful(codec) && flags >= 6
    ensures var cypher := Sealed(codec, k, flags, random, text);
            Decrypt(codec, k, cypher).error.NoError? && !Made(codec, k, cypher)
  {
    SealedParts(codec, k, flags, random, text);
    MadeExactly(codec, k, Sealed(codec, k, flags, random, text));
  }

  function GuardLength(protection: Protection): nat {
    match protection case NoProtection => 0 case Checksum => 2 case Hash => 20
  }

  /** Automatic compression never makes the result longer than the text, the header, the
      random byte and the digest; and no mode of compression makes it shorter than Auto. */
  lemma AutoIsShortest(codec: Codec, k: Bytes, mode: Compression, protection: Protection, random: Byte, text: Bytes)
    requires |k| == 8 && Lawful(codec)
    ensures |Encrypt(codec, k, Auto, protection, random, text)| <= |text| + 3 + GuardLength(protection)
    ensures |Encrypt(codec, k, Auto, protection, random, text)| <= |Encrypt(codec, k, mode, protection, random, text)|
  {
    SealedLength(codec, k, Auto, protection, random, text);
    SealedLength(codec, k, mode, protection, random, text);
  }

  lemma SealedLength(codec: Codec, k: Bytes, mode: Compression, protection: Protection, random: Byte, text: Bytes)
    requires |k| == 8 && Lawful(codec)
    ensures |Encrypt(codec, k, mode, protection, random, text)| == 3 + GuardLength(protection) +
            if Shrinks(codec, mode, text) then |codec.compress(text)| else |text|
  {
    FlagsTell(Shrinks(codec, mode, text), protection);
  }
}
