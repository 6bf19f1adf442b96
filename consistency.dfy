/**
 * How the checked-in binary source relates to the build script: both load the
 * same seed key and decoy byte, and the arrays in the C file are what the
 * script's encoders make of an earlier pair of flags, not of the flags the
 * script holds now.
 */
module Consistency {
  import opened Bytes
  import opened Calibration
  import opened Cipher
  import BuildChallenge
  import JarvisCore

  /** The script and the binary start from the same seed key and decoy byte. */
  lemma SameKeys()
    ensures BuildChallenge.InitKey == JarvisCore.InitKey
    ensures BuildChallenge.DecoyXorKey == JarvisCore.DebugXorKey
  {
  }

  /** At a Latin-1 character, the script's decoy code is the code of the binary's decoded byte. */
  lemma DecoyEncodersAgreeAt(flag: string, k: Byte, i: nat)
    requires IsLatin1(flag) && i < |flag|
    ensures BuildChallenge.EncodeFalseFlag(flag, k)[i] == BuildChallenge.Codes(Text(DecodeDecoy(Lows(flag), k)))[i]
  {
    assert flag[i] as int < 256;
    LowByteOfLatin1(flag[i]);
    XorLowOfByte(flag[i] as int, k);
  }

  /**
   * For a Latin-1 flag the script's decoy codes are the character codes of
   * what the binary's XOR loop makes of the flag's bytes: the two decoy
   * ciphers are the same map.
   */
  lemma DecoyEncodersAgree(flag: string, k: Byte)
    requires IsLatin1(flag)
    ensures BuildChallenge.EncodeFalseFlag(flag, k) == BuildChallenge.Codes(Text(DecodeDecoy(Lows(flag), k)))
  {
    var script := BuildChallenge.EncodeFalseFlag(flag, k);
    var binary := BuildChallenge.Codes(Text(DecodeDecoy(Lows(flag), k)));
    assert |script| == |binary| == |flag|;
    forall i | 0 <= i < |flag|
      ensures script[i] == binary[i]
    {
      DecoyEncodersAgreeAt(flag, k, i);
    }
  }

  /** The binary's credentials array is the real encoding of "MYTHX{c0r3_unl0ck3d_7}" under the once-calibrated seed. */
  lemma CredentialsEncodeEarlierFlag()
    ensures EncodeReal(Lows("MYTHX{c0r3_unl0ck3d_7}"), Calibrated(BuildChallenge.InitKey)) == JarvisCore.CredentialsEnc
  {
    var key := Calibrated(JarvisCore.InitKey);
    JarvisCore.CredentialsDecode();
    LowsOfText(DecodeReal(JarvisCore.CredentialsEnc, key));
    EncodeDecodeReal(JarvisCore.CredentialsEnc, key);
  }

  /** The binary's decoy array is the decoy encoding of "MYTHX{jarvis_online}". */
  lemma DebugDataEncodesEarlierFlag()
    ensures DecodeDecoy(Lows("MYTHX{jarvis_online}"), BuildChallenge.DecoyXorKey) == JarvisCore.DebugData
  {
    JarvisCore.DebugDataDecodes();
    LowsOfText(DecodeDecoy(JarvisCore.DebugData, JarvisCore.DebugXorKey));
    DecodeDecoyInvolution(JarvisCore.DebugData, JarvisCore.DebugXorKey);
  }

  /**
   * Neither array is what the script builds from its current flags: both
   * decode to texts other than the script's flags, and the script's encodings
   * are one byte longer than the arrays.
   */
  lemma CheckedInArraysAreStale()
    ensures Text(DecodeReal(JarvisCore.CredentialsEnc, Calibrated(JarvisCore.InitKey))) != BuildChallenge.RealFlag
    ensures Text(DecodeDecoy(JarvisCore.DebugData, JarvisCore.DebugXorKey)) != BuildChallenge.FalseFlag
    ensures EncodeReal(Lows(BuildChallenge.RealFlag), Calibrated(BuildChallenge.InitKey)) != JarvisCore.CredentialsEnc
    ensures |BuildChallenge.EncodeFalseFlag(BuildChallenge.FalseFlag, BuildChallenge.DecoyXorKey)| != |JarvisCore.DebugData|
  {
    JarvisCore.CredentialsDecode();
    JarvisCore.DebugDataDecodes();
  }
}
