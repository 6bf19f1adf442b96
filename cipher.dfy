/**
 * The two ciphers of the puzzle.  The real one adds `3 * i` modulo 256 to the
 * character at position `i` and XORs the result with key byte `i % 16`; the
 * decoy XORs every character with one fixed byte.  The build script encodes,
 * the binary decodes; the definitions here are shared by both sides.
 */
module Cipher {
  import opened Bytes
  import opened Calibration

  /**
   * Indexing `key[i % 16]` for every position `i < n` stays inside `key`:
   * either the key has all 16 bytes, or the text is no longer than the key.
   */
  predicate Covers(key: seq<Byte>, n: nat) {
    |key| >= KeyLen || n <= |key|
  }

  /** `acc` with 3 added `n` times, in 8-bit arithmetic. */
  function OffsetFrom(n: nat, acc: Byte): Byte {
    if n == 0 then acc else OffsetFrom(n - 1, acc + 3)
  }

  /**
   * The offset `i * 3` of position `i`, reduced modulo 256: 3 added `i` times
   * to 0 in 8-bit arithmetic.
   */
  function Offset(i: nat): Byte {
    OffsetFrom(i, 0)
  }

  /** Adding 3 once more at the end is the same as starting 3 higher. */
  lemma {:induction false} OffsetFromSucc(n: nat, acc: Byte)
    ensures OffsetFrom(n + 1, acc) == OffsetFrom(n, acc) + 3
  {
    if n > 0 {
      OffsetFromSucc(n - 1, acc + 3);
    }
  }

  /** Each position's offset is 3 more than the previous one's. */
  lemma OffsetSucc(i: nat)
    ensures Offset(i + 1) == Offset(i) + 3
  {
    OffsetFromSucc(i, 0);
  }

  /** Adding 3 to a byte adds 3 to its value modulo 256. */
  lemma AddThree(b: Byte)
    ensures (b + 3) as int == (b as int + 3) % 256
  {
  }

  /** Three more than `3 * (i - 1)`, modulo 256, is `3 * i` modulo 256. */
  lemma TimesThreeStep(i: nat, r: int)
    requires i > 0 && r == 3 * (i - 1) % 256
    ensures (r + 3) % 256 == 3 * i % 256
  {
    var q := 3 * (i - 1) / 256;
    assert 3 * i == 256 * q + r + 3;
  }

  /** Offset(i) is `(i * 3) & 0xFF`. */
  lemma {:induction false} OffsetValue(i: nat)
    ensures Offset(i) as int == 3 * i % 256
  {
    if i > 0 {
      OffsetValue(i - 1);
      OffsetSucc(i - 1);
      AddThree(Offset(i - 1));
      TimesThreeStep(i, Offset(i - 1) as int);
    }
  }

  /** `p + o` in 8-bit arithmetic, the `& 0xFF` of the source. */
  function Shift(p: Byte, o: Byte): Byte {
    p + o
  }

  /** `e - o` in 8-bit arithmetic: masking a negative difference with `& 0xFF` wraps it modulo 256. */
  function Unshift(e: Byte, o: Byte): Byte {
    e - o
  }

  /** Unshift undoes Shift. */
  lemma UnshiftShift(p: Byte, o: Byte)
    ensures Unshift(Shift(p, o), o) == p
  {
  }

  /** Shift undoes Unshift. */
  lemma ShiftUnshift(e: Byte, o: Byte)
    ensures Shift(Unshift(e, o), o) == e
  {
  }

  /** One byte of the real cipher: add the offset `o`, then XOR with the key byte `k`. */
  function Scramble(p: Byte, o: Byte, k: Byte): Byte {
    Shift(p, o) ^ k
  }

  /** One byte of the real decoder: XOR with the key byte `k`, then subtract the offset `o`. */
  function Unscramble(e: Byte, o: Byte, k: Byte): Byte {
    Unshift(e ^ k, o)
  }
  /** Adding to a value or to its remainder modulo 256 gives the same remainder. */
  lemma AddMod(x: int, r: int, y: int)
    requires r == x % 256
    ensures (r + y) % 256 == (x + y) % 256
  {
    var q := x / 256;
    assert x + y == 256 * q + (r + y);
  }

  /** The shift at the next position is the shift at this one plus three. */
  lemma ShiftOffsetSucc(p: Byte, i: nat)
    ensures Shift(p, Offset(i + 1)) == Shift(p, Offset(i)) + 3
  {
    OffsetSucc(i);
    var o := Offset(i);
    assert p + (o + 3) == (p + o) + 3;
  }

  /** Adding three to a byte that holds `x` modulo 256 gives `x + 3` modulo 256. */
  lemma AddThreeMod(b: Byte, x: int)
    requires b as int == x % 256
    ensures (b + 3) as int == (x + 3) % 256
  {
    AddThree(b);
    AddMod(x, b as int, 3);
  }

  /** Shifting a byte by the offset of position `i` adds `3 * i` modulo 256. */
  lemma {:induction false} ShiftByOffset(p: Byte, i: nat)
    ensures Shift(p, Offset(i)) as int == (p as int + 3 * i) % 256
  {
    if i == 0 {
      assert Shift(p, Offset(0)) == p;
      var n := p as int;
      assert 0 <= n < 256;
      assert n % 256 == n;
    } else {
      ShiftByOffset(p, i - 1);
      ShiftOffsetSucc(p, i - 1);
      AddThreeMod(Shift(p, Offset(i - 1)), p as int + 3 * (i - 1));
    }
  }

  /**
   * The encoder's `(ord(ch) + i * 3) & 0xFF` on Python ints is the 8-bit sum
   * of the character's low byte and the offset of position `i`.
   */
  lemma MaskedSum(c: char, i: nat)
    ensures Shift(LowByte(c), Offset(i)) as int == (c as int + i * 3) % 256
  {
    ShiftByOffset(LowByte(c), i);
    ByteOfInt(c as int % 256);
    AddMod(c as int, LowByte(c) as int, 3 * i);
  }
  /** Subtracting 3 from a byte is subtracting 3 from its value modulo 256. */
  lemma SubThree(b: Byte)
    ensures (b - 3) as int == (b as int - 3) % 256
  {
  }

  /** The unshift at the next position is the unshift at this one minus three. */
  lemma UnshiftOffsetSucc(x: Byte, i: nat)
    ensures Unshift(x, Offset(i + 1)) == Unshift(x, Offset(i)) - 3
  {
    OffsetSucc(i);
    var o := Offset(i);
    assert x - (o + 3) == (x - o) - 3;
  }

  /** Subtracting three from a byte that holds `x` modulo 256 gives `x - 3` modulo 256. */
  lemma SubThreeMod(b: Byte, x: int)
    requires b as int == x % 256
    ensures (b - 3) as int == (x - 3) % 256
  {
    SubThree(b);
    AddMod(x, b as int, -3);
  }

  /** Unshifting a byte by the offset of position `i` subtracts `3 * i` modulo 256. */
  lemma {:induction false} UnshiftByOffset(x: Byte, i: nat)
    ensures Unshift(x, Offset(i)) as int == (x as int - 3 * i) % 256
  {
    if i == 0 {
      assert Unshift(x, Offset(0)) == x;
      var n := x as int;
      assert 0 <= n < 256;
      assert n % 256 == n;
    } else {
      UnshiftByOffset(x, i - 1);
      UnshiftOffsetSucc(x, i - 1);
      SubThreeMod(Unshift(x, Offset(i - 1)), x as int - 3 * (i - 1));
    }
  }

  /**
   * The decoders' `((enc[i] ^ k) - (i * 3)) & 0xFF`, on Python ints and on C
   * ints alike, is one byte of the real decoder: `& 0xFF` of a negative
   * difference is its remainder modulo 256.
   */
  lemma MaskedDifference(e: Byte, k: Byte, i: nat)
    ensures Unscramble(e, Offset(i), k) as int == ((e ^ k) as int - i * 3) % 256
  {
    UnshiftByOffset(e ^ k, i);
  }



  /** Unscramble undoes Scramble. */
  lemma UnscrambleScramble(p: Byte, o: Byte, k: Byte)
    ensures Unscramble(Scramble(p, o, k), o, k) == p
  {
    assert Scramble(p, o, k) ^ k == Shift(p, o);
    UnshiftShift(p, o);
  }

  /** Scramble undoes Unscramble. */
  lemma ScrambleUnscramble(e: Byte, o: Byte, k: Byte)
    ensures Scramble(Unscramble(e, o, k), o, k) == e
  {
    ShiftUnshift(e ^ k, o);
  }

  /** The real cipher of a byte sequence: key byte `i % 16` at position `i`. */
  function EncodeReal(plain: seq<Byte>, key: seq<Byte>): (enc: seq<Byte>)
    requires Covers(key, |plain|)
    ensures |enc| == |plain|
  {
    seq(|plain|, i requires 0 <= i < |plain| => Scramble(plain[i], Offset(i), key[i % KeyLen]))
  }

  /** The decoded real flag, as bytes. */
  function DecodeReal(enc: seq<Byte>, key: seq<Byte>): (plain: seq<Byte>)
    requires Covers(key, |enc|)
    ensures |plain| == |enc|
  {
    seq(|enc|, i requires 0 <= i < |enc| => Unscramble(enc[i], Offset(i), key[i % KeyLen]))
  }

  /** Position `i` of the decoded encoding is byte `i` of the data. */
  lemma DecodeEncodeRealAt(data: seq<Byte>, key: seq<Byte>, i: nat)
    requires Covers(key, |data|) && i < |data|
    ensures DecodeReal(EncodeReal(data, key), key)[i] == data[i]
  {
    var enc := EncodeReal(data, key);
    var k := key[i % KeyLen];
    assert enc[i] == Scramble(data[i], Offset(i), k);
    assert DecodeReal(enc, key)[i] == Unscramble(enc[i], Offset(i), k);
    UnscrambleScramble(data[i], Offset(i), k);
  }

  /** Under one key, DecodeReal inverts EncodeReal. */
  lemma DecodeEncodeReal(data: seq<Byte>, key: seq<Byte>)
    requires Covers(key, |data|)
    ensures DecodeReal(EncodeReal(data, key), key) == data
  {
    var dec := DecodeReal(EncodeReal(data, key), key);
    assert |dec| == |data|;
    forall i | 0 <= i < |data|
      ensures dec[i] == data[i]
    {
      DecodeEncodeRealAt(data, key, i);
    }
  }

  /** Position `i` of the re-encoded decoding is byte `i` of the ciphertext. */
  lemma EncodeDecodeRealAt(enc: seq<Byte>, key: seq<Byte>, i: nat)
    requires Covers(key, |enc|) && i < |enc|
    ensures EncodeReal(DecodeReal(enc, key), key)[i] == enc[i]
  {
    var plain := DecodeReal(enc, key);
    var k := key[i % KeyLen];
    assert plain[i] == Unscramble(enc[i], Offset(i), k);
    assert EncodeReal(plain, key)[i] == Scramble(plain[i], Offset(i), k);
    ScrambleUnscramble(enc[i], Offset(i), k);
  }

  /** Under one key, EncodeReal inverts DecodeReal: every ciphertext is the encoding of its decoding. */
  lemma EncodeDecodeReal(enc: seq<Byte>, key: seq<Byte>)
    requires Covers(key, |enc|)
    ensures EncodeReal(DecodeReal(enc, key), key) == enc
  {
    var reenc := EncodeReal(DecodeReal(enc, key), key);
    assert |reenc| == |enc|;
    forall i | 0 <= i < |enc|
      ensures reenc[i] == enc[i]
    {
      EncodeDecodeRealAt(enc, key, i);
    }
  }

  /**
   * For a flag string: decoding its encoding gives the flag back exactly when
   * every character has a code below 256; a wider character loses its high bits.
   */
  lemma FlagRoundTrip(flag: string, key: seq<Byte>)
    requires Covers(key, |flag|)
    ensures Text(DecodeReal(EncodeReal(Lows(flag), key), key)) == flag <==> IsLatin1(flag)
  {
    DecodeEncodeReal(Lows(flag), key);
    TextOfLows(flag);
  }

  /**
   * The key index wraps modulo 16: two keys that differ only in byte `j`
   * produce the same ciphertext byte at position `i` exactly when `i % 16 != j`,
   * so position 16 depends on `key[0]` and nothing else of the key.
   */
  lemma KeyByteReuse(plain: seq<Byte>, k1: seq<Byte>, k2: seq<Byte>, j: nat, i: nat)
    requires |k1| == |k2| == KeyLen && j < KeyLen && i < |plain|
    requires k1[j] != k2[j]
    requires forall m :: 0 <= m < KeyLen && m != j ==> k1[m] == k2[m]
    ensures EncodeReal(plain, k1)[i] == EncodeReal(plain, k2)[i] <==> i % KeyLen != j
  {
    var p := plain[i] + Offset(i);
    if i % KeyLen == j {
      assert (p ^ k1[j]) ^ p == k1[j];
    }
  }

  /** XOR of an int in 0..255 with a byte, as an int. */
  function XorByte(x: int, k: Byte): (r: int)
    requires 0 <= x < 256
    ensures 0 <= r < 256
  {
    ((x as Byte) ^ k) as int
  }

  /** XorByte with the same byte twice is the identity. */
  lemma XorByteTwice(x: int, k: Byte)
    requires 0 <= x < 256
    ensures XorByte(XorByte(x, k), k) == x
  {
    IntOfByte((x as Byte) ^ k);
    assert ((x as Byte) ^ k) ^ k == x as Byte;
    ByteOfInt(x);
  }

  /**
   * The decoy: `ord(c) ^ k` on a Python int.  XOR with a byte leaves every bit
   * above the low eight unchanged, so the code is split into its high part and
   * its low byte.
   */
  function XorLow(code: nat, k: Byte): (r: nat)
    ensures r / 256 == code / 256
    ensures code < 256 ==> r < 256
  {
    SplitCode(code / 256, XorByte(code % 256, k));
    code / 256 * 256 + XorByte(code % 256, k)
  }

  /** On a code below 256 the decoy XOR is the plain byte XOR. */
  lemma XorLowOfByte(code: nat, k: Byte)
    requires code < 256
    ensures XorLow(code, k) == ((code as Byte) ^ k) as int
  {
    assert code / 256 == 0 && code % 256 == code;
  }

  /** A code is determined by its high part and its low byte. */
  lemma SplitCode(high: nat, low: int)
    requires 0 <= low < 256
    ensures (high * 256 + low) / 256 == high && (high * 256 + low) % 256 == low
  {
  }

  /** XORing twice with the same byte gives the original code back. */
  lemma XorLowInvolution(code: nat, k: Byte)
    ensures XorLow(XorLow(code, k), k) == code
  {
    SplitCode(code / 256, XorByte(code % 256, k));
    XorByteTwice(code % 256, k);
  }

  /** The binary's decoy decoder: `data[i] ^ key` for every byte. */
  function DecodeDecoy(data: seq<Byte>, key: Byte): (plain: seq<Byte>)
    ensures |plain| == |data|
  {
    seq(|data|, i requires 0 <= i < |data| => data[i] ^ key)
  }

  /** The decoy decoder is its own inverse. */
  lemma DecodeDecoyInvolution(data: seq<Byte>, key: Byte)
    ensures DecodeDecoy(DecodeDecoy(data, key), key) == data
  {
    forall i | 0 <= i < |data|
      ensures DecodeDecoy(DecodeDecoy(data, key), key)[i] == data[i]
    {
      assert (data[i] ^ key) ^ key == data[i];
    }
  }
}
