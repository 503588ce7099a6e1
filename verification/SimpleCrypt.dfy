/**
 SimpleCrypt with its key parts, modes and last error, and the two loops that work in place on
 a byte array.
 */
module SimpleCrypt {
  import opened CryptSpec

  /** The loop of encryptToByteArray. */
  method EncodeInPlace(ba: array<Byte>, keyParts: Bytes)
    requires |keyParts| == 8
    modifies ba
    ensures ba[..] == Encoded(old(ba[..]), keyParts)
    ensures Chained(old(ba[..]), ba[..], keyParts)
  {
    ghost var p := ba[..];
    var pos, cnt := 0, ba.Length;
    var lastChar: Byte := 0;
    while pos < cnt
      invariant 0 <= pos <= cnt
      invariant forall i :: 0 <= i < pos ==> ba[i] == Cipher(p, keyParts, i)
      invariant forall i :: pos <= i < cnt ==> ba[i] == p[i]
      invariant lastChar == if pos == 0 then 0 else Cipher(p, keyParts, pos - 1)
    {
      CipherStep(p, keyParts, pos, lastChar);
      ba[pos] := ba[pos] ^ keyParts[pos % 8] ^ lastChar;
      lastChar := ba[pos];
      pos := pos + 1;
    }
    IsEncoded(p, ba[..], keyParts);
  }

  /** The loop of decryptToByteArray, which has to keep the byte it overwrites. */
  method DecodeInPlace(ba: array<Byte>, keyParts: Bytes)
    requires |keyParts| == 8
    modifies ba
    ensures ba[..] == Decoded(old(ba[..]), keyParts)
    ensures Unchained(old(ba[..]), ba[..], keyParts)
  {
    ghost var c := ba[..];
    var pos, cnt := 0, ba.Length;
    var lastChar: Byte := 0;
    while pos < cnt
      invariant 0 <= pos <= cnt
      invariant forall i :: 0 <= i < pos ==> ba[i] == Plain(c, keyParts, i)
      invariant forall i :: pos <= i < cnt ==> ba[i] == c[i]
      invariant lastChar == if pos == 0 then 0 else c[pos - 1]
    {
      var currentChar := ba[pos];
      ba[pos] := ba[pos] ^ lastChar ^ keyParts[pos % 8];
      lastChar := currentChar;
      pos := pos + 1;
    }
    IsDecoded(c, ba[..], keyParts);
  }

  method ToArray(s: Bytes) returns (a: array<Byte>)
    ensures fresh(a) && a[..] == s
  {
    a := new Byte[|s|](i requires 0 <= i < |s| => s[i]);
  }

  class Crypt {
    const codec: Codec
    var key: Key
    var keyParts: Bytes
    var compressionMode: Compression
    var protectionMode: Protection
    var lastError: Error

    predicate Valid()
      reads this
    {
      keyParts == [] || keyParts == KeyParts(key)
    }

    constructor (codec: Codec)
      ensures Valid() && this.codec == codec && keyParts == []
      ensures compressionMode == Auto && protectionMode == Checksum && lastError == NoError
    {
      this.codec := codec;
      key, keyParts := 0, [];
      compressionMode, protectionMode, lastError := Auto, Checksum, NoError;
    }

    constructor WithKey(codec: Codec, key: Key)
      ensures Valid() && this.codec == codec && keyParts == KeyParts(key)
      ensures compressionMode == Auto && protectionMode == Checksum && lastError == NoError
    {
      this.codec := codec;
      this.key, keyParts := key, [];
      compressionMode, protectionMode, lastError := Auto, Checksum, NoError;
      new;
      SplitKey();
    }

    method SetKey(key: Key)
      modifies this`key, this`keyParts
      ensures Valid() && this.key == key && keyParts == KeyParts(key)
    {
      this.key := key;
      SplitKey();
    }

    method SplitKey()
      modifies this`keyParts
      ensures keyParts == KeyParts(key)
    {
      keyParts := [0, 0, 0, 0, 0, 0, 0, 0];
      for i := 0 to 8
        invariant |keyParts| == 8
        invariant forall n :: 0 <= n < i ==> keyParts[n] == KeyPart(key, n)
      {
        var part := key;
        ghost var moved := 0;
        for j := i downto 0
          invariant moved == i - j && part == Shifted(key, moved)
        {
          part := Right(part);
          moved := moved + 1;
        }
        keyParts := keyParts[i := Low(part)];
      }
    }

    /** `random` is the byte that qrand gives. */
    method EncryptToByteArray(plaintext: Bytes, random: Byte) returns (result: Bytes)
      requires Valid()
      modifies this`lastError
      ensures keyParts == [] ==> result == [] && lastError == NoKeySet
      ensures keyParts != [] ==>
                lastError == NoError &&
                result == Encrypt(codec, KeyParts(key), compressionMode, protectionMode, random, plaintext)
    {
      if keyParts == [] {
        lastError := NoKeySet;
        return [];
      }
      var ba, flags := Pack(plaintext);
      var integrityProtection, flag := Protect(ba);
      flags := flags | flag;
      GuardFor(codec, Shrinks(codec, compressionMode, plaintext), protectionMode, ba);
      var body := ToArray([random] + integrityProtection + ba);
      EncodeInPlace(body, keyParts);
      lastError := NoError;
      return [VERSION, flags] + body[..];
    }

    /** The compression, and the flag that tells of it. */
    method Pack(plaintext: Bytes) returns (ba: Bytes, flags: Byte)
      ensures var small := Shrinks(codec, compressionMode, plaintext);
              ba == (if small then codec.compress(plaintext) else plaintext) &&
              flags == (if small then COMPRESSED else 0)
    {
      ba, flags := plaintext, 0;
      if compressionMode == Always {
        ba := codec.compress(ba);
        flags := flags | COMPRESSED;
      } else if compressionMode == Auto {
        var compressed := codec.compress(ba);
        if |compressed| < |ba| {
          ba := compressed;
          flags := flags | COMPRESSED;
        }
      }
    }

    /** The checksum or hash, and the flag that tells which. */
    method Protect(ba: Bytes) returns (integrityProtection: Bytes, flag: Byte)
      ensures integrityProtection == GuardOf(codec, protectionMode, ba) && flag == FlagOf(protectionMode)
    {
      integrityProtection, flag := [], 0;
      if protectionMode == Checksum {
        flag := WITH_CHECKSUM;
        integrityProtection := ToBytes(codec.checksum(ba));
      } else if protectionMode == Hash {
        flag := WITH_HASH;
        integrityProtection := integrityProtection + codec.hash(ba);
      }
    }

    method DecryptToByteArray(cypher: Bytes) returns (result: Bytes)
      requires Valid()
      modifies this`lastError
      ensures keyParts == [] ==> result == [] && lastError == NoKeySet
      ensures keyParts != [] ==> Opened(result, lastError) == Decrypt(codec, KeyParts(key), cypher)
    {
      if keyParts == [] {
        lastError := NoKeySet;
        return [];
      }
      if |cypher| == 0 {
        lastError := UnknownVersion;
        return [];
      }
      if cypher[0] != VERSION {
        lastError := UnknownVersion;
        return [];
      }
      var flags := FlagsOf(cypher);
      var body := ToArray(Mid(cypher, 2));
      DecodeInPlace(body, keyParts);
      result := Check(flags, Mid(body[..], 1));
    }

    /** The part of decryptToByteArray behind the loop. */
    method Check(flags: Byte, body: Bytes) returns (ba: Bytes)
      modifies this`lastError
      ensures Opened(ba, lastError) == Checked(codec, flags, body)
    {
      ba := body;
      var integrityOk := true;
      if Has(flags, WITH_CHECKSUM) {
        if |ba| < 2 {
          lastError := IntegrityFailed;
          return [];
        }
        var storedChecksum := FromBytes(ba[0], ba[1]);
        ba := ba[2..];
        integrityOk := codec.checksum(ba) == storedChecksum;
      } else if Has(flags, WITH_HASH) {
        if |ba| < 20 {
          lastError := IntegrityFailed;
          return [];
        }
        var storedHash := ba[..20];
        ba := ba[20..];
        integrityOk := codec.hash(ba) == storedHash;
      }
      if !integrityOk {
        lastError := IntegrityFailed;
        return [];
      }
      if Has(flags, COMPRESSED) {
        ba := codec.uncompress(ba);
      }
      lastError := NoError;
    }
  }

  /** Two instances with the same key, set up in any way: what one encrypts the other decrypts. */
  method Exchange(codec: Codec, key: Key, mode: Compression, protection: Protection,
                  otherMode: Compression, otherProtection: Protection, random: Byte, text: Bytes)
    returns (received: Bytes)
    requires Lawful(codec)
    ensures received == text
  {
    var sender := new Crypt.WithKey(codec, key);
    sender.compressionMode, sender.protectionMode := mode, protection;
    var receiver := new Crypt(codec);
    receiver.compressionMode, receiver.protectionMode := otherMode, otherProtection;
    receiver.SetKey(key);
    var cypher := sender.EncryptToByteArray(text, random);
    DecryptUndoesEncrypt(codec, KeyParts(key), mode, protection, random, text);
    received := receiver.DecryptToByteArray(cypher);
  }
}
