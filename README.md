# JARVIS Core: key calibration, flag ciphers and the boot state machine

This project models the "JARVIS Core" reverse-engineering challenge in Dafny. It has two sides.

**The build script** (`build_challenge.py`) does three things:
- It calibrates a 16-byte seed key. Each byte is rotated left by one bit and then XORed with its 1-based position.
- It encodes a decoy flag by XORing every character with `0x4A`.
- It encodes the real flag. It adds `3 * i` (mod 256) to character `i` and XORs the result with calibrated key byte `i % 16`.

Before writing anything, the script asserts that both encodings decode back to their flags. It formats the arrays as C initializers: `0xHH` tokens, twelve to a line.

**The challenge binary** (`jarvis_core.c`) holds a global `CoreState`:
- A load-time constructor copies the seed into the state's key.
- `boot_sequence` calibrates the key in place once and sets the boot stage to 2.
- The decoy dump runs only at boot stage 99. The real decryption runs only at auth level 1.
- Neither value is ever set, so neither flag is decoded at run time.

The model is split into modules:
- `Bytes` has the Latin-1 view of strings: `chr`, and `ord(c) & 0xFF`.
- `Calibration` has a reference 8-bit definition of calibration. It also holds the Python arithmetic and the C arithmetic, both proved equal to the reference.
- `Cipher` has the real and the decoy cipher. They are shared by the encoder in the script and the decoder in the binary.
- `CArray` has the initializer text.
- `BuildChallenge` is the script's pipeline. Loops become methods proved against the functions above.
- `JarvisCore` is the binary. `CoreState` is a class whose key is a 16-byte `array`, updated in place. The module also proves what the checked-in arrays decode to.
- `Consistency` relates the two files:
  - They share the seed and the decoy key.
  - The C file's arrays are the encodings of `MYTHX{c0r3_unl0ck3d_7}` and `MYTHX{jarvis_online}`.
  - The script's current flags are `MYTHIX{…}`, so the checked-in binary source is output of an earlier run. The model keeps each file's literals apart and proves they differ.

## Model

| member | source | states |
|---|---|---|
| Bytes.TextOfLows | jarvis_core/build_challenge.py:66-81 | taking `ord(c) & 0xFF` of every character and then `chr` of every byte gives the string back exactly when every code is below 256 |
| Bytes.LowsOfText | jarvis_core/build_challenge.py:79-81 | the low bytes of the text `chr` makes of a byte list are those bytes |
| Bytes.ChrOfLowByte | jarvis_core/build_challenge.py:68 | `chr(ord(c) & 0xFF) == c` exactly when `ord(c) < 256` |
| Bytes.TextIsLatin1 | jarvis_core/build_challenge.py:80-81 | every character that `chr` makes of a byte has a code below 256 |
| Calibration.Calibrate1Bijective | jarvis_core/build_challenge.py:49-51 | at every position, rotate-left-then-XOR has an inverse on both sides (XOR the position out, rotate right) |
| Calibration.PyCalibrateByte | jarvis_core/build_challenge.py:49-51 | the masked Python arithmetic yields a value below 256 that equals the 8-bit reference calibration |
| Calibration.CCalibrateByte | jarvis_core/jarvis_core.c:47-48 | int promotion keeps bit 8 of `val << 1`, and the store truncates it; the stored byte equals the reference calibration |
| Calibration.CAndPythonCalibrationAgree | jarvis_core/jarvis_core.c:48 | the C and the Python calibration give the same value for every byte and position |
| Calibration.CalibratedRoundTrip | jarvis_core/build_challenge.py:45-52 | calibrating the first 16 bytes of a key can be undone, and undoing can be redone: both compositions are the identity |
| Calibration.CalibratedInjective | jarvis_core/build_challenge.py:45-52 | two seeds give the same calibrated key exactly when they are equal |
| Calibration.CalibrationNotIdempotent | jarvis_core/jarvis_core.c:110-113 | there is a key for which calibrating twice differs from calibrating once, so the number of passes matters |
| Cipher.OffsetValue | jarvis_core/build_challenge.py:68 | the 8-bit offset added at position `i` is `3 * i mod 256`, the `(i * 3)` of the source after `& 0xFF` |
| Cipher.OffsetSucc | jarvis_core/build_challenge.py:68 | the offset of position `i + 1` is the offset of position `i` plus 3 |
| Cipher.ShiftByOffset | jarvis_core/build_challenge.py:68 | shifting a byte by the offset of position `i` adds `3 * i` to its value modulo 256 |
| Cipher.MaskedSum | jarvis_core/build_challenge.py:68 | the encoder's `(ord(ch) + i * 3) & 0xFF` on unbounded ints equals the model's 8-bit sum of the low byte and the offset, for every character and position |
| Cipher.UnshiftByOffset | jarvis_core/jarvis_core.c:91 | unshifting a byte by the offset of position `i` subtracts `3 * i` from its value modulo 256 |
| Cipher.MaskedDifference | jarvis_core/jarvis_core.c:91 | `((enc[i] ^ k) - (i * 3)) & 0xFF` equals the model's decoded byte, also when the difference is negative (Python line 79 computes the same expression) |
| Cipher.UnscrambleScramble | jarvis_core/build_challenge.py:79 | subtracting the offset after XORing the key back undoes add-offset-then-XOR for every byte, offset and key byte |
| Cipher.ScrambleUnscramble | jarvis_core/jarvis_core.c:91 | every ciphertext byte is the encoding of its decoding under the same offset and key byte |
| Cipher.DecodeEncodeReal | jarvis_core/build_challenge.py:66-81 | decoding the real encoding of any byte sequence under the same key gives it back |
| Cipher.EncodeDecodeReal | jarvis_core/jarvis_core.c:89-92 | encoding what the binary's loop decodes gives the ciphertext back, so decoding loses nothing |
| Cipher.FlagRoundTrip | jarvis_core/build_challenge.py:74-83 | verify_decryption of encode_real_flag's output returns the flag exactly when every character has a code below 256 |
| Cipher.KeyByteReuse | jarvis_core/build_challenge.py:69 | changing only key byte `j` changes ciphertext byte `i` exactly when `i % 16 == j`, so position 16 reuses `key[0]` |
| Cipher.XorByteTwice | jarvis_core/build_challenge.py:299 | XORing a value in 0..255 twice with the same byte gives it back |
| Cipher.XorLow | jarvis_core/build_challenge.py:57 | `ord(c) ^ key` with a byte key keeps every bit above the low eight, so a code below 256 stays below 256 |
| Cipher.XorLowOfByte | jarvis_core/build_challenge.py:57 | on a code below 256 the decoy XOR is the plain byte XOR |
| Cipher.XorLowInvolution | jarvis_core/build_challenge.py:299-300 | `chr(b ^ key)` of `ord(c) ^ key` is `c` for every character, wide ones too |
| Cipher.DecodeDecoyInvolution | jarvis_core/jarvis_core.c:67-69 | the decoy XOR loop is its own inverse |
| CArray.HexValueOfDigits | jarvis_core/build_challenge.py:88 | reading the upper-case hex digits back gives the number |
| CArray.HexToken | jarvis_core/build_challenge.py:88 | `f"0x{b:02X}"` starts with `0x` and is followed only by hex digits; the token has four characters exactly when `b < 256` |
| CArray.TokenRoundTrip | jarvis_core/build_challenge.py:88 | every value is recovered from its `0xHH` token |
| CArray.TokensReadBack | jarvis_core/build_challenge.py:88 | the token list has one token per value, in order, and each reads back as its value |
| CArray.ChunksShape | jarvis_core/build_challenge.py:90-91 | the lines hold ceil(n/12) chunks, all of twelve values except a last one of 1 to 12, which concatenate back to the data |
| CArray.ChunkAt | jarvis_core/build_challenge.py:90-91 | chunk `j` is the slice `data[12j : 12j + 12]`, clamped at the end |
| CArray.LineContents | jarvis_core/build_challenge.py:91 | line `j` is eight spaces followed by the tokens of values `12j`..`12j+11`, joined by ", " |
| BuildChallenge.ComputeCalibratedKey | jarvis_core/build_challenge.py:45-52 | the loop over a copy returns the calibrated key, which uncalibrates to the unchanged input, and has 16 bytes for a 16-byte seed; each stored value is PyCalibrateByte's, which is below 256 |
| BuildChallenge.DecoyCodesReadBack | jarvis_core/build_challenge.py:55-57 | every code of an encoded decoy XORs back to the character it came from |
| BuildChallenge.EncodeFalseFlag | jarvis_core/build_challenge.py:55-57 | one code per character, each XORing back to its character and a byte when its character is one |
| BuildChallenge.EncodeRealFlag | jarvis_core/build_challenge.py:60-71 | the append loop builds the real encoding of the flag's low bytes, which decodes to the flag whenever the flag is Latin-1 |
| BuildChallenge.VerifyDecryption | jarvis_core/build_challenge.py:74-83 | succeeds exactly when the decoded text equals the expected flag, and then the ciphertext is the encoding of that flag; otherwise fails with both texts |
| BuildChallenge.LinesStep | jarvis_core/build_challenge.py:90-92 | one loop step appends the line for the next twelve tokens to the lines for the rest |
| BuildChallenge.FormatCArray | jarvis_core/build_challenge.py:86-93 | the loop's text is the initializer, whose lines the CArray lemmas describe |
| BuildChallenge.BuildArtifacts | jarvis_core/build_challenge.py:288-310 | for the script's constants both assertions hold; the arrays are the calibration of the seed and the two encodings of the current flags |
| JarvisCore.DebugDump | jarvis_core/jarvis_core.c:60-72 | the buffer holds the 20 data bytes XOR 0x4A, terminated inside the 64-byte buffer, with no NUL among them; XORing again gives the data back |
| JarvisCore.DebugTextHasNoNul | jarvis_core/jarvis_core.c:67-71 | no decoded decoy byte is NUL, so `%s` reaches all 20 |
| JarvisCore.DebugDataDecodes | jarvis_core/jarvis_core.c:61-69 | the checked-in decoy array decodes to "MYTHX{jarvis_online}" |
| JarvisCore.CoreState.constructor | jarvis_core/jarvis_core.c:14-20 | the zero-initialised global: both levels 0, a fresh all-zero 16-byte key |
| JarvisCore.CoreState.PreInit | jarvis_core/jarvis_core.c:27-38 | afterwards the auth level and boot stage are 0 and the key holds the 16 seed bytes |
| JarvisCore.CoreState.CalibrateHeuristics | jarvis_core/jarvis_core.c:45-50 | rewrites the key in place as the calibration of its old value, which can be undone, and keeps the other fields |
| JarvisCore.CoreState.DecryptCredentials | jarvis_core/jarvis_core.c:82-95 | the buffer's 22 bytes are the real decoding of `enc` under the current key, terminated inside the buffer; re-encoding gives `enc` |
| JarvisCore.CoreState.RunDiagnostics | jarvis_core/jarvis_core.c:101-105 | the dump runs exactly at boot stage 99, and then yields "MYTHX{jarvis_online}" |
| JarvisCore.CoreState.BootSequence | jarvis_core/jarvis_core.c:110-115 | calibrates exactly once, sets boot stage 2, keeps the auth level, and never dumps |
| JarvisCore.CoreState.CheckAuthorization | jarvis_core/jarvis_core.c:120-127 | confirms exactly at auth level 1, and then returns the decoding of `enc` under the current key |
| JarvisCore.CoreState.RunMain | jarvis_core/jarvis_core.c:132-138 | the key ends calibrated once, the boot stage is 2, no dump happens, authorization is confirmed exactly when the level was already 1, and the status is 0 |
| JarvisCore.RunBinary | jarvis_core/jarvis_core.c:20-38 | from the zeroed global through the constructor and main: no dump, authorization fails, and the key is the once-calibrated seed |
| JarvisCore.CalibratedSeedLow | jarvis_core/jarvis_core.c:45-50 | the first eight bytes of the calibrated seed |
| JarvisCore.CalibratedSeedHigh | jarvis_core/jarvis_core.c:45-50 | the last eight bytes of the calibrated seed |
| JarvisCore.OffsetTable | jarvis_core/jarvis_core.c:91 | the offsets `3 * i` of the 22 credential positions |
| JarvisCore.CredentialsHead | jarvis_core/jarvis_core.c:83-91 | characters 0 to 7 of the credentials under the calibrated key |
| JarvisCore.CredentialsMiddle | jarvis_core/jarvis_core.c:83-91 | characters 8 to 15 of the credentials under the calibrated key |
| JarvisCore.CredentialsTail | jarvis_core/jarvis_core.c:83-91 | characters 16 to 21 of the credentials under the calibrated key |
| JarvisCore.CredentialsDecode | jarvis_core/jarvis_core.c:82-94 | under the once-calibrated seed the credentials decode to "MYTHX{c0r3_unl0ck3d_7}" |
| JarvisCore.WrongKeysFail | jarvis_core/jarvis_core.c:89-91 | under the raw seed byte 0 decodes to 'y', and under a twice-calibrated key it is not 'M' either |
| Consistency.SameKeys | jarvis_core/build_challenge.py:36-41 | the script and the binary use the same seed key and the same decoy byte |
| Consistency.DecoyEncodersAgree | jarvis_core/build_challenge.py:55-57 | for a Latin-1 flag the script's decoy codes are the codes of what the binary's XOR loop makes of the flag's bytes |
| Consistency.CredentialsEncodeEarlierFlag | jarvis_core/build_challenge.py:60-71 | the binary's `enc[]` is the script's real encoding of "MYTHX{c0r3_unl0ck3d_7}" under the calibrated seed |
| Consistency.DebugDataEncodesEarlierFlag | jarvis_core/build_challenge.py:55-57 | the binary's `data[]` is the decoy encoding of "MYTHX{jarvis_online}" |
| Consistency.CheckedInArraysAreStale | jarvis_core/build_challenge.py:34-35 | the checked-in arrays decode to neither of the script's current flags, and the script's encodings of its flags differ from them |

## Left out

- `compile_binary`, running the binary, `strings` and the other subprocess steps of `main`: these call external tools.
- Creating directories and writing the C source: this is file I/O.
- `generate_c_source`: it is a text template around `format_c_array`, and `format_c_array` is modelled.
- All `print` and `printf` output. A decoded buffer is returned as the bytes in front of its terminating NUL. The "Authorization confirmed/failed" messages become the `Authorization` result.
- The GCC `constructor` attribute: the load-time call is modelled as `PreInit` running after the zero-initialising constructor and before `RunMain`.
- The C `char buf[64]` is modelled as bytes. Whether `char` is signed plays no part, because the bytes are only printed.
- The steganography and media generator elsewhere in the repository: it is not part of this model.
- FormatCArray: the unused `name` parameter is dropped.
- ComputeCalibratedKey: a seed shorter than 16 entries is excluded by `requires |initKey| >= KeyLen`. Python raises `IndexError` at `cal[i]` for it, and that error is not modelled. Seed entries are bytes: Python would also take a larger int and return 256 or more for it (`0x8000` gives `0x101`). The only caller passes the 16-byte `INIT_KEY`.
- EncodeFalseFlag, EncodeRealFlag: the decoy XOR byte and the key entries are bytes, though Python accepts any int there. The callers pass `0x4A` and the calibrated key.
- EncodeRealFlag, VerifyDecryption: the requirement `Covers(key, n)` (a 16-byte key, or a text no longer than the key) excludes the `IndexError` Python would raise. The error itself is not modelled.
- VerifyDecryption: ciphertext values are bytes. The Python function would also accept larger ints, but its only caller passes encode_real_flag's bytes.
- EncodeFalseFlag: the encoding is modelled on character codes (`nat`). For Latin-1 flags it coincides with the binary's byte XOR (`DecoyEncodersAgree`).
