/**
 * The flag pipeline of the build script: calibrate the seed key, encode the
 * decoy and the real flag, and check before anything is written that both
 * decode back to the flags.  Generating the C text around the arrays,
 * compiling and running the binary are not part of this model.
 */
module BuildChallenge {
  import opened Bytes
  import opened Calibration
  import opened Cipher
  import opened CArray
  import opened Wrappers

  /** The flag the real cipher hides. */
  const RealFlag: string := "MYTHIX{c0r3_unl0ck3d_7}"

  /** The flag the decoy cipher hides. */
  const FalseFlag: string := "MYTHIX{j4rv1s_0nlin3}"

  /** The decoy's single XOR byte. */
  const DecoyXorKey: Byte := 0x4A

  /** The seed key the binary's constructor loads. */
  const InitKey: seq<Byte> := [0x13, 0x37, 0x42, 0x58, 0x6B, 0x7A, 0x21, 0x0F,
                               0x5C, 0x3E, 0x29, 0x44, 0x61, 0x78, 0x1D, 0x33]

  /**
   * Calibrates a copy of the key in a loop over its first 16 positions.  The
   * argument is a value, so the caller's key is left as it was.
   */
  method ComputeCalibratedKey(initKey: seq<Byte>) returns (cal: seq<Byte>)
    requires |initKey| >= KeyLen
    ensures cal == Calibrated(initKey)
    ensures Uncalibrated(cal) == initKey
    ensures |initKey| == KeyLen ==> |cal| == KeyLen
  {
    cal := initKey;
    for i := 0 to KeyLen
      invariant |cal| == |initKey|
      invariant forall j :: 0 <= j < i ==> cal[j] == Calibrate1(initKey[j], j)
      invariant forall j :: i <= j < |cal| ==> cal[j] == initKey[j]
    {
      var val := cal[i];
      // PyCalibrateByte's result is below 256, so the Python int fits the byte.
      cal := cal[i := PyCalibrateByte(val, i) as Byte];
    }
    CalibratedRoundTrip(initKey);
  }

  /** Python's `[ord(c) for c in s]`: the character codes of a string. */
  function Codes(s: string): (codes: seq<nat>)
    ensures |codes| == |s|
  {
    seq(|s|, i requires 0 <= i < |s| => s[i] as nat)
  }

  /** Every code of an encoded decoy XORs back to the character it came from. */
  lemma DecoyCodesReadBack(flag: string, xorKey: Byte)
    ensures forall i :: 0 <= i < |flag| ==> XorLow(XorLow(flag[i] as int, xorKey), xorKey) == flag[i] as int
  {
    forall i | 0 <= i < |flag| {
      XorLowInvolution(flag[i] as int, xorKey);
    }
  }

  /**
   * `[ord(c) ^ xor_key for c in flag]`: one code per character, which XORs
   * back to the character, and which is a byte when the character is one.
   */
  function EncodeFalseFlag(flag: string, xorKey: Byte): (enc: seq<nat>)
    ensures |enc| == |flag|
    ensures forall i :: 0 <= i < |flag| ==> XorLow(enc[i], xorKey) == flag[i] as int
    ensures forall i :: 0 <= i < |flag| && flag[i] as int < 256 ==> enc[i] < 256
  {
    DecoyCodesReadBack(flag, xorKey);
    seq(|flag|, i requires 0 <= i < |flag| => XorLow(flag[i] as int, xorKey))
  }

  /**
   * Encodes the real flag one character at a time, appending to a list:
   * `(ord(ch) + i * 3) & 0xFF` is the low byte of the character shifted by the
   * offset of its position, then XORed with key byte `i % 16`.  The result
   * decodes back to the flag whenever every character is a byte.
   */
  method EncodeRealFlag(flag: string, calibratedKey: seq<Byte>) returns (enc: seq<Byte>)
    requires Covers(calibratedKey, |flag|)
    ensures enc == EncodeReal(Lows(flag), calibratedKey)
    ensures IsLatin1(flag) ==> Text(DecodeReal(enc, calibratedKey)) == flag
  {
    enc := [];
    for i := 0 to |flag|
      invariant |enc| == i
      invariant forall j :: 0 <= j < i ==> enc[j] == EncodeReal(Lows(flag), calibratedKey)[j]
    {
      enc := enc + [Scramble(LowByte(flag[i]), Offset(i), calibratedKey[i % KeyLen])];
    }
    FlagRoundTrip(flag, calibratedKey);
  }

  /** The assertion error of verify_decryption, with the decoded and the expected text. */
  datatype BuildError = VerificationFailed(got: string, expected: string)

  /**
   * Decodes the ciphertext one byte at a time and asserts that the text equals
   * the expected flag; a mismatch is the assertion error, carrying both texts.
   * On success the ciphertext is exactly the encoding of the expected flag.
   */
  method VerifyDecryption(enc: seq<Byte>, calibratedKey: seq<Byte>, expectedFlag: string)
    returns (r: Result<string, BuildError>)
    requires Covers(calibratedKey, |enc|)
    ensures r.Success? <==> Text(DecodeReal(enc, calibratedKey)) == expectedFlag
    ensures r.Success? ==> r.value == expectedFlag && EncodeReal(Lows(expectedFlag), calibratedKey) == enc
    ensures r.Failure? ==> r.error == VerificationFailed(Text(DecodeReal(enc, calibratedKey)), expectedFlag)
  {
    var result: string := [];
    for i := 0 to |enc|
      invariant |result| == i
      invariant forall j :: 0 <= j < i ==> result[j] == Text(DecodeReal(enc, calibratedKey))[j]
    {
      result := result + [Chr(Unscramble(enc[i], Offset(i), calibratedKey[i % KeyLen]))];
    }
    var decoded := result;
    assert decoded == Text(DecodeReal(enc, calibratedKey));
    if decoded == expectedFlag {
      LowsOfText(DecodeReal(enc, calibratedKey));
      EncodeDecodeReal(enc, calibratedKey);
      r := Success(decoded);
    } else {
      r := Failure(VerificationFailed(decoded, expectedFlag));
    }
  }

  /** Python's slice `ts[lo:hi]`, which stops at the end of the list. */
  function Slice(ts: seq<string>, lo: nat, hi: nat): seq<string>
    requires lo <= |ts| && lo <= hi
  {
    ts[lo..Min(hi, |ts|)]
  }

  /** The values from index `i` on; none once `i` has passed the end. */
  function Rest(data: seq<nat>, i: nat): seq<nat> {
    if i <= |data| then data[i..] else []
  }

  /** One step of the line loop: the line for the twelve values from `i`, then the rest. */
  lemma LinesStep(data: seq<nat>, i: nat)
    requires i < |data|
    ensures Lines(data[i..]) == [Indent + JoinWith(", ", Slice(Tokens(data), i, i + PerLine))] + Lines(Rest(data, i + PerLine))
  {
    var rest := data[i..];
    var m := Min(PerLine, |rest|);
    assert Chunks(rest) == [rest[..m]] + Chunks(rest[m..]);
    assert Lines(rest) == [Line(rest[..m])] + Lines(rest[m..]);
    assert Slice(Tokens(data), i, i + PerLine) == Tokens(rest[..m]);
    assert Rest(data, i + PerLine) == rest[m..];
  }

  /**
   * Writes the tokens of the values twelve to a line, each line indented by
   * eight spaces, and joins the lines with ",\n".  (The `name` argument of the
   * source is never used.)
   */
  method FormatCArray(data: seq<nat>) returns (text: string)
    ensures text == Initializer(data)
  {
    var hexStrs := Tokens(data);
    var lines: seq<string> := [];
    var i := 0;
    while i < |hexStrs|
      invariant lines + Lines(Rest(data, i)) == Lines(data)
      decreases |data| - i
    {
      LinesStep(data, i);
      lines := lines + [Indent + JoinWith(", ", Slice(hexStrs, i, i + PerLine))];
      i := i + PerLine;
    }
    assert Rest(data, i) == [] && Lines([]) == [];
    assert lines == Lines(data);
    text := JoinWith(",\n", lines);
  }

  /** What the build computes before it writes the C source. */
  datatype Artifacts = Artifacts(calibrated: seq<Byte>, falseEnc: seq<nat>, realEnc: seq<Byte>, decoded: string)

  /**
   * Steps 1 to 3 of the build: calibrate, encode and check the decoy, encode
   * and check the real flag.  Both of the build's assertions are proved here
   * for its constants, so the build always goes on to write the arrays.
   */
  method BuildArtifacts() returns (a: Artifacts)
    ensures a.calibrated == Calibrated(InitKey)
    ensures a.falseEnc == EncodeFalseFlag(FalseFlag, DecoyXorKey)
    ensures a.realEnc == EncodeReal(Lows(RealFlag), Calibrated(InitKey))
    ensures a.decoded == RealFlag
  {
    var calibrated := ComputeCalibratedKey(InitKey);
    var falseEnc := EncodeFalseFlag(FalseFlag, DecoyXorKey);
    var falseVerify := seq(|falseEnc|, i requires 0 <= i < |falseEnc| => XorLow(falseEnc[i], DecoyXorKey));
    assert falseVerify == Codes(FalseFlag);
    var realEnc := EncodeRealFlag(RealFlag, calibrated);
    assert IsLatin1(RealFlag);
    var verified := VerifyDecryption(realEnc, calibrated, RealFlag);
    assert verified.Success?;
    a := Artifacts(calibrated, falseEnc, realEnc, verified.value);
  }
}
