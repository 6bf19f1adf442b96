/**
 * The text of a C array initializer as the build script writes it: every value
 * as a `0xHH` token (upper-case hex, at least two digits), twelve tokens to a
 * line joined by ", ", every line indented by eight spaces, and the lines
 * joined by ",\n".
 */
module CArray {

  /** The indentation in front of every line. */
  const Indent: string := "        "

  /** Tokens per line. */
  const PerLine: nat := 12

  /** One upper-case hexadecimal digit, as `{:X}` prints it. */
  function HexDigit(d: nat): (c: char)
    requires d < 16
    ensures IsHexDigit(c)
  {
    if d < 10 then ('0' as int + d) as char else ('A' as int + d - 10) as char
  }

  predicate IsHexDigit(c: char) {
    '0' <= c <= '9' || 'A' <= c <= 'F'
  }

  /** The value of a hexadecimal digit. */
  function DigitValue(c: char): (d: nat)
    ensures d < 16
  {
    if '0' <= c <= '9' then c as int - '0' as int
    else if 'A' <= c <= 'F' then c as int - 'A' as int + 10
    else 0
  }

  /** The hexadecimal digits of `n`, most significant first, without leading zeros. */
  function HexDigits(n: nat): (s: string)
    ensures 1 <= |s|
    ensures forall i :: 0 <= i < |s| ==> IsHexDigit(s[i])
    decreases n
  {
    if n < 16 then [HexDigit(n)] else HexDigits(n / 16) + [HexDigit(n % 16)]
  }

  /** The value of a string of hexadecimal digits, most significant first. */
  function HexValue(s: string): nat
    decreases |s|
  {
    if s == [] then 0 else HexValue(s[..|s| - 1]) * 16 + DigitValue(s[|s| - 1])
  }

  /** Reading the digits back gives the number. */
  lemma {:induction false} HexValueOfDigits(n: nat)
    ensures HexValue(HexDigits(n)) == n
    decreases n
  {
    if n < 16 {
      assert HexDigits(n)[..0] == [];
    } else {
      var s := HexDigits(n);
      assert s[..|s| - 1] == HexDigits(n / 16);
      HexValueOfDigits(n / 16);
    }
  }

  /** `f"0x{b:02X}"`: the hexadecimal digits, padded with a zero to at least two. */
  function HexToken(b: nat): (t: string)
    ensures |t| >= 4 && t[0] == '0' && t[1] == 'x'
    ensures forall i :: 2 <= i < |t| ==> IsHexDigit(t[i])
    ensures b < 256 <==> |t| == 4
  {
    if b < 16 then
      "0x0" + [HexDigit(b)]
    else
      DigitsLength(b);
      "0x" + HexDigits(b)
  }

  /** Numbers from 16 to 255 have two digits; larger numbers have more. */
  lemma DigitsLength(n: nat)
    requires 16 <= n
    ensures |HexDigits(n)| == 2 <==> n < 256
  {
    if n >= 256 {
      assert |HexDigits(n / 16)| >= 2;
    }
  }

  /** Reading a token back: the value of the digits after `0x`. */
  function ParseToken(t: string): nat
    requires |t| >= 2
  {
    HexValue(t[2..])
  }

  /** Every value is recovered from its token. */
  lemma TokenRoundTrip(b: nat)
    ensures ParseToken(HexToken(b)) == b
  {
    var t := HexToken(b);
    if b < 16 {
      var d := t[2..];
      assert d[..|d| - 1][..0] == [];
      assert HexValue(d) == HexValue(d[..1]) * 16 + DigitValue(d[1]);
    } else {
      assert t[2..] == HexDigits(b);
      HexValueOfDigits(b);
    }
  }

  /** `[f"0x{b:02X}" for b in data]`. */
  function Tokens(data: seq<nat>): (ts: seq<string>)
    ensures |ts| == |data|
  {
    seq(|data|, i requires 0 <= i < |data| => HexToken(data[i]))
  }

  /** `sep.join(parts)`. */
  function JoinWith(sep: string, parts: seq<string>): string
    decreases |parts|
  {
    if |parts| == 0 then ""
    else if |parts| == 1 then parts[0]
    else parts[0] + sep + JoinWith(sep, parts[1..])
  }

  function Min(a: nat, b: nat): nat {
    if a < b then a else b
  }

  /** The data cut into consecutive pieces of twelve, the last one possibly shorter. */
  function Chunks(data: seq<nat>): (cs: seq<seq<nat>>)
    decreases |data|
  {
    if data == [] then [] else [data[..Min(PerLine, |data|)]] + Chunks(data[Min(PerLine, |data|)..])
  }

  /** The concatenation of a sequence of sequences. */
  function Flatten(cs: seq<seq<nat>>): seq<nat>
    decreases |cs|
  {
    if cs == [] then [] else cs[0] + Flatten(cs[1..])
  }

  /**
   * Chunks splits the data into ceil(n / 12) pieces, all of twelve values but
   * the last, which holds between one and twelve, and puts them back together
   * in order.
   */
  lemma {:induction false} ChunksShape(data: seq<nat>)
    ensures |Chunks(data)| == (|data| + PerLine - 1) / PerLine
    ensures Flatten(Chunks(data)) == data
    ensures forall j :: 0 <= j < |Chunks(data)| ==> 1 <= |Chunks(data)[j]| <= PerLine
    ensures forall j :: 0 <= j < |Chunks(data)| - 1 ==> |Chunks(data)[j]| == PerLine
    decreases |data|
  {
    if data != [] {
      var m := Min(PerLine, |data|);
      ChunksShape(data[m..]);
      assert data[..m] + data[m..] == data;
    }
  }

  /** The `j`-th chunk is the slice `data[12 * j : 12 * j + 12]`, clamped at the end. */
  lemma {:induction false} ChunkAt(data: seq<nat>, j: nat)
    requires j < |Chunks(data)|
    ensures PerLine * j < |data|
    ensures Chunks(data)[j] == data[PerLine * j .. Min(PerLine * j + PerLine, |data|)]
    decreases j
  {
    assert data != [];
    var m := Min(PerLine, |data|);
    var rest := data[m..];
    assert Chunks(data) == [data[..m]] + Chunks(rest);
    if j > 0 {
      assert Chunks(data)[j] == Chunks(rest)[j - 1];
      assert rest != [] && m == PerLine;
      ChunkAt(rest, j - 1);
      var lo := PerLine * (j - 1);
      var hi := Min(lo + PerLine, |rest|);
      assert rest[lo..hi] == data[PerLine * j .. Min(PerLine * j + PerLine, |data|)];
    }
  }

  /** One line of the initializer: the indentation, then the chunk's tokens joined by ", ". */
  function Line(chunk: seq<nat>): string {
    Indent + JoinWith(", ", Tokens(chunk))
  }

  /** The lines of the initializer, one per chunk. */
  function Lines(data: seq<nat>): (ls: seq<string>)
    ensures |ls| == |Chunks(data)|
  {
    var cs := Chunks(data);
    seq(|cs|, j requires 0 <= j < |cs| => Line(cs[j]))
  }

  /** The whole initializer text. */
  function Initializer(data: seq<nat>): string {
    JoinWith(",\n", Lines(data))
  }

  /** Every token of a sequence of values reads back as its value. */
  lemma TokensReadBack(data: seq<nat>)
    ensures forall i :: 0 <= i < |data| ==> ParseToken(Tokens(data)[i]) == data[i]
  {
    forall i | 0 <= i < |data|
      ensures ParseToken(Tokens(data)[i]) == data[i]
    {
      TokenRoundTrip(data[i]);
    }
  }

  /**
   * Line `j` of the initializer is the eight-space indentation followed by the
   * tokens of values `12 * j` up to `12 * j + 11` (fewer on the last line),
   * in order, joined by ", ".
   */
  lemma LineContents(data: seq<nat>, j: nat)
    requires j < |Lines(data)|
    ensures PerLine * j < |data|
    ensures Lines(data)[j] == Indent + JoinWith(", ", Tokens(data[PerLine * j .. Min(PerLine * j + PerLine, |data|)]))
    ensures Lines(data)[j][..|Indent|] == Indent
  {
    ChunkAt(data, j);
  }
}
