/**
 * The challenge binary: a global core state that a load-time constructor
 * initialises, a boot sequence that calibrates the heuristic key in place,
 * and two branches, each of which would decode a flag, guarded by field
 * values that the program never sets.  Console output is left out; a decoded
 * buffer is returned as the bytes in front of its terminating NUL.
 */
module JarvisCore {
  import opened Bytes
  import opened Calibration
  import opened Cipher
  import opened Wrappers

  /** `init[]` of the constructor: the seed of the heuristic key. */
  const InitKey: seq<Byte> := [0x13, 0x37, 0x42, 0x58, 0x6B, 0x7A, 0x21, 0x0F,
                               0x5C, 0x3E, 0x29, 0x44, 0x61, 0x78, 0x1D, 0x33]

  /** `data[]` of debug_dump. */
  const DebugData: seq<Byte> := [0x07, 0x13, 0x1E, 0x02, 0x12, 0x31, 0x20, 0x2B, 0x38, 0x3C, 0x23, 0x39,
                                 0x15, 0x25, 0x24, 0x26, 0x23, 0x24, 0x2F, 0x37]

  /** The XOR byte of debug_dump. */
  const DebugXorKey: Byte := 0x4A

  /** `enc[]` of decrypt_credentials. */
  const CredentialsEnc: seq<Byte> := [0x6A, 0x30, 0xDD, 0xE5, 0xB7, 0x78, 0x30, 0x53, 0x3B, 0x38, 0x24, 0x12,
                                      0x5D, 0x6D, 0x6F, 0xE6, 0xBC, 0x0A, 0x1D, 0x2C, 0xA0, 0x4E]

  /** Size of the local `char buf[64]` both decoders fill. */
  const BufSize: nat := 64

  /** `boot_stage` value that would run debug_dump. */
  const DiagnosticStage: int := 99

  /** `auth_level` value that would run decrypt_credentials. */
  const AuthorizedLevel: int := 1

  /** The outcome of check_authorization. */
  datatype Authorization = Confirmed(credentials: seq<Byte>) | Failed

  /**
   * debug_dump: XORs each of the 20 data bytes with 0x4A into the buffer and
   * terminates the string right after them, inside the 64-byte buffer.  No
   * decoded byte is NUL, so `%s` would print all 20 of them.
   */
  method DebugDump() returns (text: seq<Byte>)
    ensures text == DecodeDecoy(DebugData, DebugXorKey)
    ensures DecodeDecoy(text, DebugXorKey) == DebugData
    ensures forall i :: 0 <= i < |text| ==> text[i] != 0
  {
    var data := DebugData;
    var len := |data|;
    var buf := new Byte[BufSize];
    for i := 0 to len
      invariant forall j :: 0 <= j < i ==> buf[j] == data[j] ^ DebugXorKey
    {
      buf[i] := data[i] ^ DebugXorKey;
    }
    buf[len] := 0;
    text := buf[..len];
    assert text == DecodeDecoy(DebugData, DebugXorKey);
    DecodeDecoyInvolution(DebugData, DebugXorKey);
    DebugTextHasNoNul();
  }

  /** The decoded debug text holds no NUL byte. */
  lemma DebugTextHasNoNul()
    ensures forall i :: 0 <= i < |DebugData| ==> DecodeDecoy(DebugData, DebugXorKey)[i] != 0
  {
    DebugDataDecodes();
  }

  /** The checked-in decoy array decodes to "MYTHX{jarvis_online}". */
  lemma DebugDataDecodes()
    ensures Text(DecodeDecoy(DebugData, DebugXorKey)) == "MYTHX{jarvis_online}"
  {
    // One assertion per byte keeps the solver's work small; the whole conjunction at once costs it far more.
    var t := Text(DecodeDecoy(DebugData, DebugXorKey));
    assert t[0] == 'M';
    assert t[1] == 'Y';
    assert t[2] == 'T';
    assert t[3] == 'H';
    assert t[4] == 'X';
    assert t[5] == '{';
    assert t[6] == 'j';
    assert t[7] == 'a';
    assert t[8] == 'r';
    assert t[9] == 'v';
    assert t[10] == 'i';
    assert t[11] == 's';
    assert t[12] == '_';
    assert t[13] == 'o';
    assert t[14] == 'n';
    assert t[15] == 'l';
    assert t[16] == 'i';
    assert t[17] == 'n';
    assert t[18] == 'e';
    assert t[19] == '}';
  }

  /** The global `CoreState jarvis`. */
  class CoreState {
    var authLevel: int
    var bootStage: int
    const heuristicKey: array<Byte>

    ghost predicate Valid()
      reads this
    {
      heuristicKey.Length == KeyLen
    }

    /** `static CoreState jarvis = {0}`: every field starts at zero. */
    constructor ()
      ensures Valid() && fresh(heuristicKey)
      ensures authLevel == 0 && bootStage == 0
      ensures heuristicKey[..] == seq(KeyLen, _ => 0)
    {
      authLevel, bootStage := 0, 0;
      heuristicKey := new Byte[KeyLen](_ => 0);
    }

    /** __core_preinit: not authorised, boot stage 0, the seed copied into the key. */
    method PreInit()
      requires Valid()
      modifies this, heuristicKey
      ensures Valid()
      ensures authLevel == 0 && bootStage == 0
      ensures heuristicKey[..] == InitKey
    {
      authLevel := 0;
      bootStage := 0;
      var init := InitKey;
      for i := 0 to KeyLen
        modifies heuristicKey
        invariant forall j :: 0 <= j < i ==> heuristicKey[j] == init[j]
      {
        heuristicKey[i] := init[i];
      }
    }

    /**
     * calibrate_heuristics: rewrites every key byte in place with its
     * calibration; the other fields keep their values.
     */
    method CalibrateHeuristics()
      requires Valid()
      modifies heuristicKey
      ensures heuristicKey[..] == Calibrated(old(heuristicKey[..]))
      ensures Uncalibrated(heuristicKey[..]) == old(heuristicKey[..])
      ensures authLevel == old(authLevel) && bootStage == old(bootStage)
    {
      for i := 0 to KeyLen
        invariant forall j :: 0 <= j < i ==> heuristicKey[j] == Calibrate1(old(heuristicKey[j]), j)
        invariant forall j :: i <= j < KeyLen ==> heuristicKey[j] == old(heuristicKey[j])
      {
        var val := heuristicKey[i];
        heuristicKey[i] := CCalibrateByte(val, i);
      }
      CalibratedRoundTrip(old(heuristicKey[..]));
    }

    /**
     * decrypt_credentials: decodes the 22 bytes of `enc` with the current
     * heuristic key into the buffer and terminates the string inside it.
     * Encoding the result again under the same key gives `enc` back.
     */
    method DecryptCredentials() returns (text: seq<Byte>)
      requires Valid()
      ensures text == DecodeReal(CredentialsEnc, heuristicKey[..])
      ensures EncodeReal(text, heuristicKey[..]) == CredentialsEnc
    {
      var enc := CredentialsEnc;
      var len := |enc|;
      var buf := new Byte[BufSize];
      for i := 0 to len
        invariant forall j :: 0 <= j < i ==> buf[j] == DecodeReal(enc, heuristicKey[..])[j]
      {
        buf[i] := Unscramble(enc[i], Offset(i), heuristicKey[i % KeyLen]);
      }
      buf[len] := 0;
      text := buf[..len];
      EncodeDecodeReal(CredentialsEnc, heuristicKey[..]);
    }

    /** run_diagnostics: the debug dump runs only at boot stage 99. */
    method RunDiagnostics() returns (dump: Option<seq<Byte>>)
      ensures dump.Some? <==> bootStage == DiagnosticStage
      ensures dump.Some? ==> Text(dump.value) == "MYTHX{jarvis_online}"
    {
      if bootStage == DiagnosticStage {
        var text := DebugDump();
        DebugDataDecodes();
        dump := Some(text);
      } else {
        dump := None;
      }
    }

    /**
     * boot_sequence: calibrates the key exactly once, then sets boot stage 2,
     * so the diagnostics that follow never reach the debug dump.
     */
    method BootSequence() returns (dump: Option<seq<Byte>>)
      requires Valid()
      modifies this, heuristicKey
      ensures Valid()
      ensures heuristicKey[..] == Calibrated(old(heuristicKey[..]))
      ensures bootStage == 2 && authLevel == old(authLevel)
      ensures dump == None
    {
      CalibrateHeuristics();
      bootStage := 2;
      dump := RunDiagnostics();
    }

    /** check_authorization: credentials are decrypted only at auth level 1. */
    method CheckAuthorization() returns (result: Authorization)
      requires Valid()
      ensures result.Confirmed? <==> authLevel == AuthorizedLevel
      ensures result.Confirmed? ==> result.credentials == DecodeReal(CredentialsEnc, heuristicKey[..])
    {
      if authLevel == AuthorizedLevel {
        var text := DecryptCredentials();
        result := Confirmed(text);
      } else {
        result := Failed;
      }
    }

    /**
     * main: boot, then check authorization; the exit status is 0.  Neither
     * function changes the auth level, so authorization is confirmed only if
     * the level was already 1 before main.
     */
    method RunMain() returns (dump: Option<seq<Byte>>, result: Authorization, status: int)
      requires Valid()
      modifies this, heuristicKey
      ensures Valid()
      ensures heuristicKey[..] == Calibrated(old(heuristicKey[..]))
      ensures bootStage == 2 && authLevel == old(authLevel)
      ensures dump == None
      ensures result.Confirmed? <==> old(authLevel) == AuthorizedLevel
      ensures status == 0
    {
      dump := BootSequence();
      result := CheckAuthorization();
      status := 0;
    }
  }

  /**
   * A run of the binary: the zero-initialised global, the constructor, then
   * main.  Both branches that would decode a flag stay unreached, and the key
   * ends calibrated exactly once.
   */
  method RunBinary() returns (dump: Option<seq<Byte>>, result: Authorization, key: seq<Byte>)
    ensures dump == None && result == Failed
    ensures key == Calibrated(InitKey)
  {
    var jarvis := new CoreState();
    jarvis.PreInit();
    var status;
    dump, result, status := jarvis.RunMain();
    key := jarvis.heuristicKey[..];
  }

  /** The first half of the calibrated seed, byte by byte. */
  lemma CalibratedSeedLow()
    ensures Calibrated(InitKey)[0] == 0x27 &&
            Calibrated(InitKey)[1] == 0x6C &&
            Calibrated(InitKey)[2] == 0x87 &&
            Calibrated(InitKey)[3] == 0xB4 &&
            Calibrated(InitKey)[4] == 0xD3 &&
            Calibrated(InitKey)[5] == 0xF2 &&
            Calibrated(InitKey)[6] == 0x45 &&
            Calibrated(InitKey)[7] == 0x16
  {
    // One assertion per byte keeps the solver's work small; the whole conjunction at once costs it far more.
    assert Calibrated(InitKey)[0] == 0x27;
    assert Calibrated(InitKey)[1] == 0x6C;
    assert Calibrated(InitKey)[2] == 0x87;
    assert Calibrated(InitKey)[3] == 0xB4;
    assert Calibrated(InitKey)[4] == 0xD3;
    assert Calibrated(InitKey)[5] == 0xF2;
    assert Calibrated(InitKey)[6] == 0x45;
    assert Calibrated(InitKey)[7] == 0x16;
  }

  /** The second half of the calibrated seed, byte by byte. */
  lemma CalibratedSeedHigh()
    ensures Calibrated(InitKey)[8] == 0xB1 &&
            Calibrated(InitKey)[9] == 0x76 &&
            Calibrated(InitKey)[10] == 0x59 &&
            Calibrated(InitKey)[11] == 0x84 &&
            Calibrated(InitKey)[12] == 0xCF &&
            Calibrated(InitKey)[13] == 0xFE &&
            Calibrated(InitKey)[14] == 0x35 &&
            Calibrated(InitKey)[15] == 0x76
  {
    // One assertion per byte keeps the solver's work small; the whole conjunction at once costs it far more.
    assert Calibrated(InitKey)[8] == 0xB1;
    assert Calibrated(InitKey)[9] == 0x76;
    assert Calibrated(InitKey)[10] == 0x59;
    assert Calibrated(InitKey)[11] == 0x84;
    assert Calibrated(InitKey)[12] == 0xCF;
    assert Calibrated(InitKey)[13] == 0xFE;
    assert Calibrated(InitKey)[14] == 0x35;
    assert Calibrated(InitKey)[15] == 0x76;
  }

  /** The keystream offsets of the first 22 positions. */
  lemma OffsetTable()
    ensures Offset(0) == 0 &&
            Offset(1) == 3 &&
            Offset(2) == 6 &&
            Offset(3) == 9 &&
            Offset(4) == 12 &&
            Offset(5) == 15 &&
            Offset(6) == 18 &&
            Offset(7) == 21 &&
            Offset(8) == 24 &&
            Offset(9) == 27 &&
            Offset(10) == 30 &&
            Offset(11) == 33 &&
            Offset(12) == 36 &&
            Offset(13) == 39 &&
            Offset(14) == 42 &&
            Offset(15) == 45 &&
            Offset(16) == 48 &&
            Offset(17) == 51 &&
            Offset(18) == 54 &&
            Offset(19) == 57 &&
            Offset(20) == 60 &&
            Offset(21) == 63
  {
    OffsetSucc(0);
    OffsetSucc(1);
    OffsetSucc(2);
    OffsetSucc(3);
    OffsetSucc(4);
    OffsetSucc(5);
    OffsetSucc(6);
    OffsetSucc(7);
    OffsetSucc(8);
    OffsetSucc(9);
    OffsetSucc(10);
    OffsetSucc(11);
    OffsetSucc(12);
    OffsetSucc(13);
    OffsetSucc(14);
    OffsetSucc(15);
    OffsetSucc(16);
    OffsetSucc(17);
    OffsetSucc(18);
    OffsetSucc(19);
    OffsetSucc(20);
  }

  /** Characters 0 to 7 of the credentials under the calibrated key. */
  lemma CredentialsHead()
    ensures Text(DecodeReal(CredentialsEnc, Calibrated(InitKey)))[0] == 'M' &&
            Text(DecodeReal(CredentialsEnc, Calibrated(InitKey)))[1] == 'Y' &&
            Text(DecodeReal(CredentialsEnc, Calibrated(InitKey)))[2] == 'T' &&
            Text(DecodeReal(CredentialsEnc, Calibrated(InitKey)))[3] == 'H' &&
            Text(DecodeReal(CredentialsEnc, Calibrated(InitKey)))[4] == 'X' &&
            Text(DecodeReal(CredentialsEnc, Calibrated(InitKey)))[5] == '{' &&
            Text(DecodeReal(CredentialsEnc, Calibrated(InitKey)))[6] == 'c' &&
            Text(DecodeReal(CredentialsEnc, Calibrated(InitKey)))[7] == '0'
  {
    CalibratedSeedLow();
    CalibratedSeedHigh();
    OffsetTable();
  }

  /** Characters 8 to 15 of the credentials under the calibrated key. */
  lemma CredentialsMiddle()
    ensures Text(DecodeReal(CredentialsEnc, Calibrated(InitKey)))[8] == 'r' &&
            Text(DecodeReal(CredentialsEnc, Calibrated(InitKey)))[9] == '3' &&
            Text(DecodeReal(CredentialsEnc, Calibrated(InitKey)))[10] == '_' &&
            Text(DecodeReal(CredentialsEnc, Calibrated(InitKey)))[11] == 'u' &&
            Text(DecodeReal(CredentialsEnc, Calibrated(InitKey)))[12] == 'n' &&
            Text(DecodeReal(CredentialsEnc, Calibrated(InitKey)))[13] == 'l' &&
            Text(DecodeReal(CredentialsEnc, Calibrated(InitKey)))[14] == '0' &&
            Text(DecodeReal(CredentialsEnc, Calibrated(InitKey)))[15] == 'c'
  {
    CalibratedSeedLow();
    CalibratedSeedHigh();
    OffsetTable();
  }

  /** Characters 16 to 21 of the credentials under the calibrated key. */
  lemma CredentialsTail()
    ensures Text(DecodeReal(CredentialsEnc, Calibrated(InitKey)))[16] == 'k' &&
            Text(DecodeReal(CredentialsEnc, Calibrated(InitKey)))[17] == '3' &&
            Text(DecodeReal(CredentialsEnc, Calibrated(InitKey)))[18] == 'd' &&
            Text(DecodeReal(CredentialsEnc, Calibrated(InitKey)))[19] == '_' &&
            Text(DecodeReal(CredentialsEnc, Calibrated(InitKey)))[20] == '7' &&
            Text(DecodeReal(CredentialsEnc, Calibrated(InitKey)))[21] == '}'
  {
    CalibratedSeedLow();
    CalibratedSeedHigh();
    OffsetTable();
  }

  /** Under the calibrated key the checked-in credentials decode to "MYTHX{c0r3_unl0ck3d_7}". */
  lemma CredentialsDecode()
    ensures Text(DecodeReal(CredentialsEnc, Calibrated(InitKey))) == "MYTHX{c0r3_unl0ck3d_7}"
  {
    var t := Text(DecodeReal(CredentialsEnc, Calibrated(InitKey)));
    assert |t| == 22;
    CredentialsHead();
    CredentialsMiddle();
    CredentialsTail();
  }

  /**
   * The two wrong solve paths: under the raw seed key the first byte decodes to
   * 'y', and under a key calibrated twice it does not decode to 'M' either.
   */
  lemma WrongKeysFail()
    ensures Chr(DecodeReal(CredentialsEnc, InitKey)[0]) == 'y'
    ensures Chr(DecodeReal(CredentialsEnc, Calibrated(Calibrated(InitKey)))[0]) != 'M'
  {
    CalibratedSeedLow();
    assert Calibrated(Calibrated(InitKey))[0] == 0x4F;
  }
}
