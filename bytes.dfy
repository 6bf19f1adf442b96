/** Bytes and the Latin-1 view of strings shared by the build script and the binary. */
module Bytes {

  /** An 8-bit value: `unsigned char` in C, an int masked with `& 0xFF` in Python. */
  type Byte = bv8

  /** True when every character has a code below 256. */
  predicate IsLatin1(s: string) {
    forall i :: 0 <= i < |s| ==> s[i] as int < 256
  }

  /** Python's `chr(b)` for a byte. */
  function Chr(b: Byte): char {
    (b as int) as char
  }

  /** Python's `ord(c) & 0xFF`: the low eight bits of a character code. */
  function LowByte(c: char): Byte {
    (c as int % 256) as Byte
  }

  /** A value in 0..255 survives the round trip through a byte. */
  lemma ByteOfInt(m: int)
    requires 0 <= m < 256
    ensures (m as Byte) as int == m
  {
    assert m % 256 == m;
  }

  /** The low byte of a Latin-1 character is its code. */
  lemma LowByteOfLatin1(c: char)
    requires c as int < 256
    ensures LowByte(c) == (c as int) as Byte
  {
    assert c as int % 256 == c as int;
  }

  /** A byte survives the round trip through an int. */
  lemma IntOfByte(b: Byte)
    ensures (b as int) as Byte == b
  {
  }

  /** The low byte of `chr(b)` is `b`. */
  lemma LowByteOfChr(b: Byte)
    ensures LowByte(Chr(b)) == b
  {
    IntOfByte(b);
  }

  /** `chr(ord(c) & 0xFF)` is `c` exactly when `c` has a code below 256. */
  lemma ChrOfLowByte(c: char)
    ensures Chr(LowByte(c)) == c <==> c as int < 256
  {
    ByteOfInt(c as int % 256);
  }

  /** Python's `''.join(chr(b) for b in bs)`: the Latin-1 text of a byte sequence. */
  function Text(bs: seq<Byte>): (s: string)
    ensures |s| == |bs|
  {
    seq(|bs|, i requires 0 <= i < |bs| => Chr(bs[i]))
  }

  /** The low bytes of the characters of a string. */
  function Lows(s: string): (bs: seq<Byte>)
    ensures |bs| == |s|
  {
    seq(|s|, i requires 0 <= i < |s| => LowByte(s[i]))
  }

  /** A string is the text of its low bytes exactly when it is Latin-1. */
  lemma TextOfLows(s: string)
    ensures Text(Lows(s)) == s <==> IsLatin1(s)
  {
    forall i | 0 <= i < |s|
      ensures Text(Lows(s))[i] == s[i] <==> s[i] as int < 256
    {
      ChrOfLowByte(s[i]);
    }
    if !IsLatin1(s) {
      var j :| 0 <= j < |s| && s[j] as int >= 256;
      assert Text(Lows(s))[j] != s[j];
    }
  }

  /** The low bytes of a text are the bytes it was made from. */
  lemma LowsOfText(bs: seq<Byte>)
    ensures Lows(Text(bs)) == bs
  {
    forall i | 0 <= i < |bs|
      ensures Lows(Text(bs))[i] == bs[i]
    {
      LowByteOfChr(bs[i]);
    }
  }

  /** Every text of bytes is Latin-1. */
  lemma TextIsLatin1(bs: seq<Byte>)
    ensures IsLatin1(Text(bs))
  {
    forall i | 0 <= i < |bs|
      ensures Text(bs)[i] as int < 256
    {
      assert Text(bs)[i] as int == bs[i] as int;
    }
  }
}
