/**
 * Key calibration: every one of the 16 key bytes is rotated left by one bit
 * and then XORed with its 1-based position.  The build script computes it on
 * Python ints with an explicit mask; the binary computes it on C ints and
 * truncates on the store back into `unsigned char`.  Both are proved equal to
 * one reference definition built on 8-bit rotation.
 */
module Calibration {
  import opened Bytes

  /** Number of key bytes. */
  const KeyLen: nat := 16

  /** `i + 1`, the value XORed into key byte `i`. */
  function Position(i: nat): Byte
    requires i < KeyLen
  {
    (i + 1) as Byte
  }

  /** Reference definition of the calibration of the byte at position `i`. */
  function Calibrate1(v: Byte, i: nat): Byte
    requires i < KeyLen
  {
    v.RotateLeft(1) ^ Position(i)
  }

  /** Undo Calibrate1: XOR the position back out, then rotate right. */
  function Uncalibrate1(b: Byte, i: nat): Byte
    requires i < KeyLen
  {
    (b ^ Position(i)).RotateRight(1)
  }

  /** At every position, calibration is a bijection on byte values. */
  lemma Calibrate1Bijective(v: Byte, i: nat)
    requires i < KeyLen
    ensures Uncalibrate1(Calibrate1(v, i), i) == v
    ensures Calibrate1(Uncalibrate1(v, i), i) == v
  {
  }

  /**
   * The build script's arithmetic, `((val << 1) & 0xFF) | (val >> 7)` and then
   * `^ (i + 1)`, on Python ints; 16 bits hold every intermediate value.  The
   * result is a byte.
   */
  function PyCalibrateByte(v: Byte, i: nat): (r: bv16)
    requires i < KeyLen
    ensures r < 256
    ensures r as Byte == Calibrate1(v, i)
  {
    var val := v as bv16;
    var rotated := ((val << 1) & 0xFF) | (val >> 7);
    rotated ^ (Position(i) as bv16)
  }

  /**
   * The binary's arithmetic: `val` is promoted to int, so `val << 1` keeps its
   * ninth bit; `((val << 1) | (val >> 7)) ^ (i + 1)` is computed in int and
   * truncated to its low 8 bits by the store into `unsigned char`.
   */
  function CCalibrateByte(v: Byte, i: nat): (r: Byte)
    requires i < KeyLen
    ensures r == Calibrate1(v, i)
  {
    var val := v as bv32;
    ((((val << 1) | (val >> 7)) ^ (Position(i) as bv32)) & 0xFF) as Byte
  }

  /** The C calibration and the masked Python calibration agree byte for byte. */
  lemma CAndPythonCalibrationAgree(v: Byte, i: nat)
    requires i < KeyLen
    ensures CCalibrateByte(v, i) as bv16 == PyCalibrateByte(v, i)
  {
  }

  /**
   * The calibrated key: the first 16 bytes calibrated, any later byte copied
   * unchanged (the build script loops over `range(16)` on a copy of its input).
   */
  function Calibrated(key: seq<Byte>): (cal: seq<Byte>)
    requires |key| >= KeyLen
    ensures |cal| == |key|
  {
    seq(|key|, i requires 0 <= i < |key| => if i < KeyLen then Calibrate1(key[i], i) else key[i])
  }

  /** The inverse of Calibrated. */
  function Uncalibrated(cal: seq<Byte>): (key: seq<Byte>)
    requires |cal| >= KeyLen
    ensures |key| == |cal|
  {
    seq(|cal|, i requires 0 <= i < |cal| => if i < KeyLen then Uncalibrate1(cal[i], i) else cal[i])
  }

  /** Calibration of a whole key is a bijection: Uncalibrated inverts it on both sides. */
  lemma CalibratedRoundTrip(key: seq<Byte>)
    requires |key| >= KeyLen
    ensures Uncalibrated(Calibrated(key)) == key
    ensures Calibrated(Uncalibrated(key)) == key
  {
    forall i | 0 <= i < KeyLen {
      Calibrate1Bijective(key[i], i);
    }
  }

  /** Distinct seeds give distinct calibrated keys. */
  lemma CalibratedInjective(a: seq<Byte>, b: seq<Byte>)
    requires |a| >= KeyLen && |b| >= KeyLen
    ensures Calibrated(a) == Calibrated(b) <==> a == b
  {
    if Calibrated(a) == Calibrated(b) {
      CalibratedRoundTrip(a);
      CalibratedRoundTrip(b);
    }
  }

  /**
   * Calibrating twice is not calibrating once: on the all-zero key one pass
   * gives byte 0 the value 0x01 and a second pass gives it 0x03.  The number
   * of passes is therefore part of what the solver must recover.
   */
  lemma CalibrationNotIdempotent()
    ensures exists key: seq<Byte> :: |key| == KeyLen && Calibrated(Calibrated(key)) != Calibrated(key)
  {
    var zero: seq<Byte> := seq(KeyLen, _ => 0);
    assert Position(0) == 1;
    assert Calibrated(zero)[0] == 0x01;
    assert Calibrated(Calibrated(zero))[0] == 0x03;
  }
}
