# Z-Wave command-class codecs, modelled in Dafny

This project models the message codecs of twelve Z-Wave command classes:
AV Tagging MD v1, Firmware Update MD v1, HRV Status v1, Lock v1, Multi Channel v2,
Powerlevel v1, Thermostat Mode v1, Thermostat Operating State v1 and v2, Wake Up v1,
Z/IP ND v1 and Z-Wave Plus Info v2. It also proves properties of them.

Each command class is a set of static `get*`/`handle*` pairs:

- A `get*` method builds a frame. The frame is the command-class key, then the command key, then the encoded fields.
- A `handle*` method parses a frame into a string-keyed map.

## How the model is organised

- `wire.dfy` (module `Wire`) holds Java's byte-level behaviour:
  - bytes, `ByteArrayOutputStream.write` keeping the low 8 bits, and signed byte reads;
  - big-endian 16-bit fields, and the `a << 8 + b` reading the code actually performs;
  - 7-bit-plus-flag packing, bitmask flags and the bit-scanning decoder;
  - the `UNKNOWN_xx` fallback names;
  - the value type of response maps (`Value`), and the result type `Result` with `Ok`, `Null` (Java `return null`) and `Fail` (a thrown exception).
- `streams.dfy` (module `Streams`) has two classes with the state the Java methods mutate:
  - `OutputStream`, a byte buffer standing for `ByteArrayOutputStream`;
  - `Response`, a map standing for the `HashMap` response.
- Every other file is one command class, one module each. Inside a module, every command has:
  - a pure specification function (`EncodeX`/`DecodeX`, or a shared frame function). Its `ensures` state what the frame or map means: lengths, field positions, bit fields, and when it throws, returns null or reads past the end;
  - a `Get…`/`Handle…` method that follows the Java statement by statement: writes to an `OutputStream`, puts into a `Response`, with the original loops and their invariants. Each method is proved equal to its specification function;
  - lemmas relating encoder and decoder: round trips where the code round-trips, and concrete counterexamples where it does not.
- Enum tables (Java `switch` statements and static `HashMap` tables) are pairs of functions, name to code and code to name, with a lemma that they are inverse. Where the Java iterates a table's key set, the model iterates a constant sequence of its keys.

Where the code and its intended wire format disagree, the model follows the code as written. Lemmas state the consequences:

- Powerlevel and Z-Wave Plus Info read 16-bit fields as `payload[i] << 8 + payload[i+1]`. Java parses this as `payload[i] << (8 + payload[i+1])`, so a frame count of 0x0102 reads back as 1024. `PowerlevelV1.FrameCountExample`, `PowerlevelV1.SmallFrameCountLost` and `ZwaveplusInfoV2.IconTypeNoRoundTrip` show this.
- HRV Status reads its properties byte with `b & 0x18 >> 3` and `b & 0xE0 >> 5`, which Java parses as `b & (0x18 >> 3)` and `b & (0xE0 >> 5)`. SCALE and PRECISION are therefore the low bits of the byte (`HrvStatusV1.StatusReportScaleLost`).
- HRV Status's supported-report decoder never advances its bit counter. It loops forever on any payload longer than 2 bytes (`HrvStatusV1.SupportedReportNoRoundTrip`).
- The variant-group loops of Multi Channel's end-point-find report and of Thermostat Operating State v2's logging report:
  - read every variant from fixed indices;
  - advance by a length byte, so a zero byte there never moves the offset on. Each pass still allocates a new map and appends it to the variant list, so the Java ends in an `OutOfMemoryError`.

  Both kinds of failure are modelled as `Fail(NoTermination)`.
- The logging bitmask encoders add each table code instead of setting its bit (`ThermostatOperatingStateV2.LoggingMaskNoRoundTrip`).
- Wake Up's interval decoders read the node id from index 5 of a 3-byte frame (`WakeUpV1.IntervalNoRoundTrip`).
- A decoder that indexes past the end of a short frame yields `Fail(IndexOutOfBounds)`, as the Java does. The model does not report a separate truncated-frame error.

## Model

| member | source | states |
|---|---|---|
| Wire.Low8 | com.zsmartsystems.zwave/src/main/java/com/zsmartsystems/zwave/commandclass/impl/CommandClassPowerlevelV1.java:116 | a value written to the output stream keeps only its low 8 bits: equal to the value when it is already a byte, congruent to it modulo 256 otherwise |
| Wire.Signed | com.zsmartsystems.zwave/src/main/java/com/zsmartsystems/zwave/commandclass/impl/CommandClassPowerlevelV1.java:180 | `Integer.valueOf(payload[i])` sees a signed Java byte: the result lies in -128..127, equals the byte below 128, is the byte minus 256 above, and writing it back gives the same byte |
| Wire.High8 | com.zsmartsystems.zwave/src/main/java/com/zsmartsystems/zwave/commandclass/impl/CommandClassFirmwareUpdateMdV1.java:140 | `(v >> 8) & 0xff` is the high byte of any 16-bit value |
| Wire.Be16 | com.zsmartsystems.zwave/src/main/java/com/zsmartsystems/zwave/commandclass/impl/CommandClassFirmwareUpdateMdV1.java:175 | `((hi & 0xff) << 8) + (lo & 0xff)` is a 16-bit value whose high and low bytes are exactly hi and lo |
| Wire.Be16RoundTrip | com.zsmartsystems.zwave/src/main/java/com/zsmartsystems/zwave/commandclass/impl/CommandClassFirmwareUpdateMdV1.java:175-181 | reading back the two bytes written for any value in 0..65535 gives that value |
| Wire.Be16Wrap | com.zsmartsystems.zwave/src/main/java/com/zsmartsystems/zwave/commandclass/impl/CommandClassFirmwareUpdateMdV1.java:140-149 | for any int the two bytes written big-endian read back as the value modulo 65536 |
| Wire.Pack7 | com.zsmartsystems.zwave/src/main/java/com/zsmartsystems/zwave/commandclass/impl/CommandClassMultiChannelV2.java:150-153 | `(v & 0x7F) | (flag ? 0x80 : 0)` keeps v modulo 128 in bits 0-6 and sets bit 7 exactly when the flag is set |
| Wire.Wrap32 | com.zsmartsystems.zwave/src/main/java/com/zsmartsystems/zwave/commandclass/impl/CommandClassPowerlevelV1.java:477 | Java `int` arithmetic: the result is congruent to the exact value modulo 2^32 and equal to it inside the 32-bit range |
| Wire.ShiftLeft | com.zsmartsystems.zwave/src/main/java/com/zsmartsystems/zwave/commandclass/impl/CommandClassPowerlevelV1.java:477 | Java `int` shift `a << d` (distance taken modulo 32, result wrapped to 32 bits): a zero operand shifts to zero |
| Wire.Be16AsRead | com.zsmartsystems.zwave/src/main/java/com/zsmartsystems/zwave/commandclass/impl/CommandClassPowerlevelV1.java:477 | `payload[i] << 8 + payload[i+1]` parses as `hi << (8 + lo)` on signed bytes; whenever the high byte is zero the field reads as 0 |
| Wire.Flags | com.zsmartsystems.zwave/src/main/java/com/zsmartsystems/zwave/commandclass/impl/CommandClassThermostatModeV1.java:421-435 | the mask built from a list of per-bit conditions (`valBitMask |= cond ? 2^i : 0`) is below 2^n |
| Wire.FlagsBit | com.zsmartsystems.zwave/src/main/java/com/zsmartsystems/zwave/commandclass/impl/CommandClassThermostatModeV1.java:421-435 | bit i of the accumulated mask is set if and only if i is one of the n bits and its condition held; the mask fits in a byte |
| Wire.Pow2Byte | com.zsmartsystems.zwave/src/main/java/com/zsmartsystems/zwave/commandclass/impl/CommandClassThermostatModeV1.java:421-435 | the bit constants 0x01..0x80 used by the mask encoders are the powers 2^0..2^7 (and 2^8 = 256) |
| Wire.Pow2 | com.zsmartsystems.zwave/src/main/java/com/zsmartsystems/zwave/commandclass/impl/CommandClassThermostatModeV1.java:461 | the value of `1 << k` for a bit position k is positive; its values for k in 0..8 are pinned by Pow2Byte |
| Wire.BitSet | com.zsmartsystems.zwave/src/main/java/com/zsmartsystems/zwave/commandclass/impl/CommandClassThermostatModeV1.java:461 | the bit test `(b & (1 << k)) != 0` for k below 8, as bit k of the byte; FlagsBit and BitSetAtLeast state what it means |
| Wire.BitSetAtLeast | com.zsmartsystems.zwave/src/main/java/com/zsmartsystems/zwave/commandclass/impl/CommandClassThermostatModeV1.java:461 | when the test `(b & (1 << k)) != 0` succeeds, the byte is at least 2^k |
| Wire.MaskList | com.zsmartsystems.zwave/src/main/java/com/zsmartsystems/zwave/commandclass/impl/CommandClassThermostatModeV1.java:459-465 | the list built by the bitmask decoders has at most one entry per bit scanned |
| Wire.MaskListEmpty | com.zsmartsystems.zwave/src/main/java/com/zsmartsystems/zwave/commandclass/impl/CommandClassThermostatModeV1.java:459-465 | the decoded list is empty if and only if none of the scanned bits is set |
| Wire.NamesIn | com.zsmartsystems.zwave/src/main/java/com/zsmartsystems/zwave/commandclass/impl/CommandClassThermostatModeV1.java:421-435 | the known names of a list, in code order, one per code: at most one entry per code |
| Wire.MaskListOfNames | com.zsmartsystems.zwave/src/main/java/com/zsmartsystems/zwave/commandclass/impl/CommandClassThermostatModeV1.java:459-465 | when bit k is set exactly for the codes whose table name is in the list, decoding the mask gives the list's known names in ascending code order, each once |
| Wire.ReadBitMask | com.zsmartsystems.zwave/src/main/java/com/zsmartsystems/zwave/commandclass/impl/CommandClassThermostatModeV1.java:459-466 | the `for (cntBitMask ...)` loop over every bit of payload[2..] appends, in bit order, the table entry of each set bit: the result is MaskList of the trailing bytes, or empty for a payload of at most 2 bytes |
| Wire.NameOrNil | com.zsmartsystems.zwave/src/main/java/com/zsmartsystems/zwave/commandclass/impl/CommandClassThermostatOperatingStateV2.java:455-460 | a table lookup that misses stores Java null, modelled as Nil; a hit stores the name |
| Wire.HexDigit | com.zsmartsystems.zwave/src/main/java/com/zsmartsystems/zwave/commandclass/impl/CommandClassPowerlevelV1.java:173-176 | `String.format("%02X", b)` uses upper-case hexadecimal digits 0-9 and A-F |
| Wire.Hex2 | com.zsmartsystems.zwave/src/main/java/com/zsmartsystems/zwave/commandclass/impl/CommandClassPowerlevelV1.java:173-176 | the formatted byte is always two characters |
| Wire.Unknown | com.zsmartsystems.zwave/src/main/java/com/zsmartsystems/zwave/commandclass/impl/CommandClassPowerlevelV1.java:173-176 | an unmapped byte decodes to a ten-character name starting with "UNKNOWN_" |
| Wire.UnknownInjective | com.zsmartsystems.zwave/src/main/java/com/zsmartsystems/zwave/commandclass/impl/CommandClassPowerlevelV1.java:173-176 | two different unmapped bytes never give the same UNKNOWN_xx name |
| Wire.UnknownExample | com.zsmartsystems.zwave/src/main/java/com/zsmartsystems/zwave/commandclass/impl/CommandClassPowerlevelV1.java:173-176 | 0xFF decodes to "UNKNOWN_FF" and 0x0A to "UNKNOWN_0A" |
| AvTaggingMdV1.GetAvTaggingMdGet | com.zsmartsystems.zwave/src/main/java/com/zsmartsystems/zwave/commandclass/impl/CommandClassAvTaggingMdV1.java:56-64 | the get frame is exactly [0x99, 0x01] |
| AvTaggingMdV1.HandleAvTaggingMdGet | com.zsmartsystems.zwave/src/main/java/com/zsmartsystems/zwave/commandclass/impl/CommandClassAvTaggingMdV1.java:74-80 | any payload, including an empty one, decodes to the empty map |
| AvTaggingMdV1.GetAvTaggingMdReport | com.zsmartsystems.zwave/src/main/java/com/zsmartsystems/zwave/commandclass/impl/CommandClassAvTaggingMdV1.java:90-98 | the report frame is exactly [0x99, 0x02]: same class byte as the get, different command byte |
| AvTaggingMdV1.HandleAvTaggingMdReport | com.zsmartsystems.zwave/src/main/java/com/zsmartsystems/zwave/commandclass/impl/CommandClassAvTaggingMdV1.java:108-114 | any payload, including an empty one, decodes to the empty map |
| LockV1.LockStateName | com.zsmartsystems.zwave/src/main/java/com/zsmartsystems/zwave/commandclass/impl/CommandClassLockV1.java:55-60 | the lock-state table maps exactly the codes 0x00 and 0x01 to names |
| LockV1.LockStateCode | com.zsmartsystems.zwave/src/main/java/com/zsmartsystems/zwave/commandclass/impl/CommandClassLockV1.java:82-93 | the code found for a name is a table key whose entry is that name; no code is found only when no table entry has that name |
| LockV1.LockStateTableUnique | com.zsmartsystems.zwave/src/main/java/com/zsmartsystems/zwave/commandclass/impl/CommandClassLockV1.java:55-60 | no two codes of the table share a name |
| LockV1.LockFrame | com.zsmartsystems.zwave/src/main/java/com/zsmartsystems/zwave/commandclass/impl/CommandClassLockV1.java:75-96 | encoding succeeds exactly for UNLOCKED and LOCKED and throws IllegalArgumentException otherwise; the frame is 3 bytes: class key, command, the table code of the name |
| LockV1.DecodeLockState | com.zsmartsystems.zwave/src/main/java/com/zsmartsystems/zwave/commandclass/impl/CommandClassLockV1.java:112-121 | fails with an index error exactly when the payload has fewer than 3 bytes; otherwise LOCK_STATE is the table name of payload[2] when the code is in the table, and null otherwise |
| LockV1.WriteLockState | com.zsmartsystems.zwave/src/main/java/com/zsmartsystems/zwave/commandclass/impl/CommandClassLockV1.java:75-96 | the loop over the table keys with the `foundLockState` flag returns the same result as LockFrame |
| LockV1.ReadLockState | com.zsmartsystems.zwave/src/main/java/com/zsmartsystems/zwave/commandclass/impl/CommandClassLockV1.java:112-121 | the handler body returns DecodeLockState of the payload |
| LockV1.GetLockSet | com.zsmartsystems.zwave/src/main/java/com/zsmartsystems/zwave/commandclass/impl/CommandClassLockV1.java:75-96 | the set frame is LockFrame for command 0x01 |
| LockV1.HandleLockSet | com.zsmartsystems.zwave/src/main/java/com/zsmartsystems/zwave/commandclass/impl/CommandClassLockV1.java:112-121 | returns DecodeLockState of the payload |
| LockV1.GetLockGet | com.zsmartsystems.zwave/src/main/java/com/zsmartsystems/zwave/commandclass/impl/CommandClassLockV1.java:131-139 | the get frame is exactly [0x76, 0x02] |
| LockV1.HandleLockGet | com.zsmartsystems.zwave/src/main/java/com/zsmartsystems/zwave/commandclass/impl/CommandClassLockV1.java:149-155 | any payload decodes to the empty map |
| LockV1.GetLockReport | com.zsmartsystems.zwave/src/main/java/com/zsmartsystems/zwave/commandclass/impl/CommandClassLockV1.java:171-192 | the report frame is LockFrame for command 0x03 |
| LockV1.HandleLockReport | com.zsmartsystems.zwave/src/main/java/com/zsmartsystems/zwave/commandclass/impl/CommandClassLockV1.java:208-217 | returns DecodeLockState of the payload |
| LockV1.LockStateRoundTrip | com.zsmartsystems.zwave/src/main/java/com/zsmartsystems/zwave/commandclass/impl/CommandClassLockV1.java:171-217 | every frame the encoder accepts decodes back to the same lock-state name |
| LockV1.LockStateUnknownCode | com.zsmartsystems.zwave/src/main/java/com/zsmartsystems/zwave/commandclass/impl/CommandClassLockV1.java:213 | any code other than 0x00 and 0x01 decodes to LOCK_STATE = null |
| LockV1.LockReportExample | com.zsmartsystems.zwave/src/main/java/com/zsmartsystems/zwave/commandclass/impl/CommandClassLockV1.java:171-192 | getLockReport("LOCKED") is [0x76, 0x03, 0x01] |
| ThermostatOperatingStateV1.OperatingStateCode | com.zsmartsystems.zwave/src/main/java/com/zsmartsystems/zwave/commandclass/impl/CommandClassThermostatOperatingStateV1.java:99-125 | the seven known names map to codes in 0..6 |
| ThermostatOperatingStateV1.OperatingStateName | com.zsmartsystems.zwave/src/main/java/com/zsmartsystems/zwave/commandclass/impl/CommandClassThermostatOperatingStateV1.java:149-173 | exactly the codes 0..6 have a name |
| ThermostatOperatingStateV1.OperatingStateSwitchesInverse | com.zsmartsystems.zwave/src/main/java/com/zsmartsystems/zwave/commandclass/impl/CommandClassThermostatOperatingStateV1.java:99-173 | the encoder switch and the decoder switch are inverse to each other on every name and code they know |
| ThermostatOperatingStateV1.EncodeOperatingStateReport | com.zsmartsystems.zwave/src/main/java/com/zsmartsystems/zwave/commandclass/impl/CommandClassThermostatOperatingStateV1.java:91-128 | encoding succeeds exactly for the seven known names and throws IllegalArgumentException otherwise; the frame is 3 bytes and its state byte is a code below 7 that names the input |
| ThermostatOperatingStateV1.DecodeOperatingStateReport | com.zsmartsystems.zwave/src/main/java/com/zsmartsystems/zwave/commandclass/impl/CommandClassThermostatOperatingStateV1.java:144-177 | fails exactly on payloads shorter than 3 bytes; OPERATING_STATE is present exactly when the low nibble of payload[2] is below 7, and is then that code's name (the high nibble is ignored) |
| ThermostatOperatingStateV1.GetThermostatOperatingStateGet | com.zsmartsystems.zwave/src/main/java/com/zsmartsystems/zwave/commandclass/impl/CommandClassThermostatOperatingStateV1.java:56-64 | the get frame is exactly [0x42, 0x02] |
| ThermostatOperatingStateV1.HandleThermostatOperatingStateGet | com.zsmartsystems.zwave/src/main/java/com/zsmartsystems/zwave/commandclass/impl/CommandClassThermostatOperatingStateV1.java:74-80 | any payload decodes to the empty map |
| ThermostatOperatingStateV1.GetThermostatOperatingStateReport | com.zsmartsystems.zwave/src/main/java/com/zsmartsystems/zwave/commandclass/impl/CommandClassThermostatOperatingStateV1.java:91-128 | the switch-and-write body equals EncodeOperatingStateReport |
| ThermostatOperatingStateV1.HandleThermostatOperatingStateReport | com.zsmartsystems.zwave/src/main/java/com/zsmartsystems/zwave/commandclass/impl/CommandClassThermostatOperatingStateV1.java:144-177 | the switch-and-put body equals DecodeOperatingStateReport |
| ThermostatOperatingStateV1.OperatingStateReportRoundTrip | com.zsmartsystems.zwave/src/main/java/com/zsmartsystems/zwave/commandclass/impl/CommandClassThermostatOperatingStateV1.java:91-177 | every accepted operating state decodes back to itself |
| ThermostatOperatingStateV1.OperatingStateUnknownCode | com.zsmartsystems.zwave/src/main/java/com/zsmartsystems/zwave/commandclass/impl/CommandClassThermostatOperatingStateV1.java:149-173 | a low nibble of 7..15 leaves OPERATING_STATE absent: the map is empty |
| WakeUpV1.IntervalFrame | com.zsmartsystems.zwave/src/main/java/com/zsmartsystems/zwave/commandclass/impl/CommandClassWakeUpV1.java:67-85 | returns null exactly when nodeid is outside 1..232; otherwise the frame is exactly [0x84, command, nodeid], the Seconds field writing nothing |
| WakeUpV1.DecodeInterval | com.zsmartsystems.zwave/src/main/java/com/zsmartsystems/zwave/commandclass/impl/CommandClassWakeUpV1.java:102-113 | fails with an index error exactly when the payload is shorter than 6 bytes; otherwise NODEID is the signed value of payload[5] |
| WakeUpV1.WriteInterval | com.zsmartsystems.zwave/src/main/java/com/zsmartsystems/zwave/commandclass/impl/CommandClassWakeUpV1.java:67-85 | the check-then-write body equals IntervalFrame |
| WakeUpV1.ReadInterval | com.zsmartsystems.zwave/src/main/java/com/zsmartsystems/zwave/commandclass/impl/CommandClassWakeUpV1.java:102-113 | the handler body equals DecodeInterval |
| WakeUpV1.GetWakeUpIntervalSet | com.zsmartsystems.zwave/src/main/java/com/zsmartsystems/zwave/commandclass/impl/CommandClassWakeUpV1.java:67-85 | the set frame is IntervalFrame for command 0x04 |
| WakeUpV1.HandleWakeUpIntervalSet | com.zsmartsystems.zwave/src/main/java/com/zsmartsystems/zwave/commandclass/impl/CommandClassWakeUpV1.java:102-113 | returns DecodeInterval of the payload |
| WakeUpV1.GetWakeUpIntervalGet | com.zsmartsystems.zwave/src/main/java/com/zsmartsystems/zwave/commandclass/impl/CommandClassWakeUpV1.java:123-131 | the get frame is exactly [0x84, 0x05] |
| WakeUpV1.HandleWakeUpIntervalGet | com.zsmartsystems.zwave/src/main/java/com/zsmartsystems/zwave/commandclass/impl/CommandClassWakeUpV1.java:142-148 | any payload decodes to the empty map |
| WakeUpV1.GetWakeUpIntervalReport | com.zsmartsystems.zwave/src/main/java/com/zsmartsystems/zwave/commandclass/impl/CommandClassWakeUpV1.java:159-177 | the report frame is IntervalFrame for command 0x06 |
| WakeUpV1.HandleWakeUpIntervalReport | com.zsmartsystems.zwave/src/main/java/com/zsmartsystems/zwave/commandclass/impl/CommandClassWakeUpV1.java:194-205 | returns DecodeInterval of the payload |
| WakeUpV1.GetWakeUpNotification | com.zsmartsystems.zwave/src/main/java/com/zsmartsystems/zwave/commandclass/impl/CommandClassWakeUpV1.java:215-223 | the notification frame is exactly [0x84, 0x07] |
| WakeUpV1.HandleWakeUpNotification | com.zsmartsystems.zwave/src/main/java/com/zsmartsystems/zwave/commandclass/impl/CommandClassWakeUpV1.java:234-240 | any payload decodes to the empty map |
| WakeUpV1.GetWakeUpNoMoreInformation | com.zsmartsystems.zwave/src/main/java/com/zsmartsystems/zwave/commandclass/impl/CommandClassWakeUpV1.java:250-258 | the no-more-information frame is exactly [0x84, 0x08] |
| WakeUpV1.HandleWakeUpNoMoreInformation | com.zsmartsystems.zwave/src/main/java/com/zsmartsystems/zwave/commandclass/impl/CommandClassWakeUpV1.java:269-275 | any payload decodes to the empty map |
| WakeUpV1.IntervalNoRoundTrip | com.zsmartsystems.zwave/src/main/java/com/zsmartsystems/zwave/commandclass/impl/CommandClassWakeUpV1.java:109 | decoding any frame the interval encoders produce reads past its end: there is no round trip |
| WakeUpV1.IntervalNodeIdSigned | com.zsmartsystems.zwave/src/main/java/com/zsmartsystems/zwave/commandclass/impl/CommandClassWakeUpV1.java:109 | a node id byte of 128..232 decodes negative (byte - 256) |
| PowerlevelV1.PowerLevelCode | com.zsmartsystems.zwave/src/main/java/com/zsmartsystems/zwave/commandclass/impl/CommandClassPowerlevelV1.java:80-113 | NORMALPOWER and MINUS1DBM..MINUS9DBM map to codes below 10 |
| PowerlevelV1.PowerLevelName | com.zsmartsystems.zwave/src/main/java/com/zsmartsystems/zwave/commandclass/impl/CommandClassPowerlevelV1.java:142-177 | bytes 0..9 get a power-level name; every other byte gets its UNKNOWN_xx name |
| PowerlevelV1.PowerLevelSwitchesInverse | com.zsmartsystems.zwave/src/main/java/com/zsmartsystems/zwave/commandclass/impl/CommandClassPowerlevelV1.java:80-177 | the encoder and decoder switches are inverse on every name and on every byte 0..9 |
| PowerlevelV1.TestNodeIdCode | com.zsmartsystems.zwave/src/main/java/com/zsmartsystems/zwave/commandclass/impl/CommandClassPowerlevelV1.java:537-545 | only ZW_TEST_NOT_A_NODEID is accepted, as code 0x00 |
| PowerlevelV1.TestNodeIdName | com.zsmartsystems.zwave/src/main/java/com/zsmartsystems/zwave/commandclass/impl/CommandClassPowerlevelV1.java:589-597 | byte 0 decodes to ZW_TEST_NOT_A_NODEID, every other byte to its UNKNOWN_xx name |
| PowerlevelV1.StatusCode | com.zsmartsystems.zwave/src/main/java/com/zsmartsystems/zwave/commandclass/impl/CommandClassPowerlevelV1.java:546-558 | FAILED, SUCCES and INPROGRESS map to codes below 3 |
| PowerlevelV1.StatusName | com.zsmartsystems.zwave/src/main/java/com/zsmartsystems/zwave/commandclass/impl/CommandClassPowerlevelV1.java:598-614 | bytes 0..2 get a status name, every other byte its UNKNOWN_xx name |
| PowerlevelV1.StatusSwitchesInverse | com.zsmartsystems.zwave/src/main/java/com/zsmartsystems/zwave/commandclass/impl/CommandClassPowerlevelV1.java:546-614 | the status encoder and decoder switches are inverse on every name and on bytes 0..2 |
| PowerlevelV1.PowerlevelFrame | com.zsmartsystems.zwave/src/main/java/com/zsmartsystems/zwave/commandclass/impl/CommandClassPowerlevelV1.java:72-119 | succeeds exactly for a known power level (IllegalArgumentException otherwise); the frame is 4 bytes: class, command, a code that names the level, the low byte of timeout |
| PowerlevelV1.DecodePowerlevel | com.zsmartsystems.zwave/src/main/java/com/zsmartsystems/zwave/commandclass/impl/CommandClassPowerlevelV1.java:137-184 | fails exactly on payloads shorter than 4 bytes; POWER_LEVEL is the name (or UNKNOWN_xx) of payload[2] and TIMEOUT the signed read of payload[3], in -128..127, whose low byte is payload[3] |
| PowerlevelV1.EncodeTestNodeSet | com.zsmartsystems.zwave/src/main/java/com/zsmartsystems/zwave/commandclass/impl/CommandClassPowerlevelV1.java:356-412 | null exactly for a node id outside 1..232; otherwise IllegalArgumentException exactly for an unknown power level; the frame is 6 bytes whose last two hold the frame count modulo 65536 big-endian |
| PowerlevelV1.DecodeTestNodeSet | com.zsmartsystems.zwave/src/main/java/com/zsmartsystems/zwave/commandclass/impl/CommandClassPowerlevelV1.java:431-481 | fails exactly on payloads shorter than 6 bytes; TEST_NODEID is the signed read of payload[2], POWER_LEVEL names payload[3] and TEST_FRAME_COUNT is the value the shift-precedence expression computes |
| PowerlevelV1.EncodeTestNodeReport | com.zsmartsystems.zwave/src/main/java/com/zsmartsystems/zwave/commandclass/impl/CommandClassPowerlevelV1.java:529-565 | succeeds exactly when both the test node id and the status are known names (IllegalArgumentException otherwise); the frame is 6 bytes whose codes name the inputs and whose last two hold the frame count modulo 65536 |
| PowerlevelV1.DecodeTestNodeReport | com.zsmartsystems.zwave/src/main/java/com/zsmartsystems/zwave/commandclass/impl/CommandClassPowerlevelV1.java:584-621 | fails exactly on payloads shorter than 6 bytes; TEST_NODEID and STATUS_OF_OPERATION are the names (or UNKNOWN_xx) of bytes 2 and 3 |
| PowerlevelV1.WritePowerlevel | com.zsmartsystems.zwave/src/main/java/com/zsmartsystems/zwave/commandclass/impl/CommandClassPowerlevelV1.java:72-119 | the switch-then-write body equals PowerlevelFrame |
| PowerlevelV1.ReadPowerlevel | com.zsmartsystems.zwave/src/main/java/com/zsmartsystems/zwave/commandclass/impl/CommandClassPowerlevelV1.java:137-184 | the switch-then-put body equals DecodePowerlevel |
| PowerlevelV1.GetPowerlevelSet | com.zsmartsystems.zwave/src/main/java/com/zsmartsystems/zwave/commandclass/impl/CommandClassPowerlevelV1.java:72-119 | the set frame is PowerlevelFrame for command 0x01 |
| PowerlevelV1.HandlePowerlevelSet | com.zsmartsystems.zwave/src/main/java/com/zsmartsystems/zwave/commandclass/impl/CommandClassPowerlevelV1.java:137-184 | returns DecodePowerlevel of the payload |
| PowerlevelV1.GetPowerlevelGet | com.zsmartsystems.zwave/src/main/java/com/zsmartsystems/zwave/commandclass/impl/CommandClassPowerlevelV1.java:194-202 | the get frame is exactly [0x73, 0x02] |
| PowerlevelV1.HandlePowerlevelGet | com.zsmartsystems.zwave/src/main/java/com/zsmartsystems/zwave/commandclass/impl/CommandClassPowerlevelV1.java:213-219 | any payload decodes to the empty map |
| PowerlevelV1.GetPowerlevelReport | com.zsmartsystems.zwave/src/main/java/com/zsmartsystems/zwave/commandclass/impl/CommandClassPowerlevelV1.java:231-278 | the report frame is PowerlevelFrame for command 0x03 |
| PowerlevelV1.HandlePowerlevelReport | com.zsmartsystems.zwave/src/main/java/com/zsmartsystems/zwave/commandclass/impl/CommandClassPowerlevelV1.java:296-343 | returns DecodePowerlevel of the payload |
| PowerlevelV1.GetPowerlevelTestNodeSet | com.zsmartsystems.zwave/src/main/java/com/zsmartsystems/zwave/commandclass/impl/CommandClassPowerlevelV1.java:356-412 | the check, switch and writes equal EncodeTestNodeSet |
| PowerlevelV1.HandlePowerlevelTestNodeSet | com.zsmartsystems.zwave/src/main/java/com/zsmartsystems/zwave/commandclass/impl/CommandClassPowerlevelV1.java:431-481 | returns DecodeTestNodeSet of the payload |
| PowerlevelV1.GetPowerlevelTestNodeGet | com.zsmartsystems.zwave/src/main/java/com/zsmartsystems/zwave/commandclass/impl/CommandClassPowerlevelV1.java:491-499 | the get frame is exactly [0x73, 0x05] |
| PowerlevelV1.HandlePowerlevelTestNodeGet | com.zsmartsystems.zwave/src/main/java/com/zsmartsystems/zwave/commandclass/impl/CommandClassPowerlevelV1.java:510-516 | any payload decodes to the empty map |
| PowerlevelV1.GetPowerlevelTestNodeReport | com.zsmartsystems.zwave/src/main/java/com/zsmartsystems/zwave/commandclass/impl/CommandClassPowerlevelV1.java:529-565 | the switches and writes equal EncodeTestNodeReport |
| PowerlevelV1.HandlePowerlevelTestNodeReport | com.zsmartsystems.zwave/src/main/java/com/zsmartsystems/zwave/commandclass/impl/CommandClassPowerlevelV1.java:584-621 | returns DecodeTestNodeReport of the payload |
| PowerlevelV1.PowerlevelRoundTrip | com.zsmartsystems.zwave/src/main/java/com/zsmartsystems/zwave/commandclass/impl/CommandClassPowerlevelV1.java:72-184 | POWER_LEVEL round-trips for every accepted level; TIMEOUT comes back as the signed reading of its low byte, equal to it in -128..127 and 256 less in 128..255 |
| PowerlevelV1.PowerLevelUnknownByte | com.zsmartsystems.zwave/src/main/java/com/zsmartsystems/zwave/commandclass/impl/CommandClassPowerlevelV1.java:173-176 | a power-level byte of 10 or more decodes to "UNKNOWN_" plus its two upper-case hex digits, not an error |
| PowerlevelV1.FrameCountExample | com.zsmartsystems.zwave/src/main/java/com/zsmartsystems/zwave/commandclass/impl/CommandClassPowerlevelV1.java:477 | frame count 0x0102 is written as 0x01, 0x02 and read back as 1024 |
| PowerlevelV1.TestNodeSetFrameCountExample | com.zsmartsystems.zwave/src/main/java/com/zsmartsystems/zwave/commandclass/impl/CommandClassPowerlevelV1.java:356-481 | the whole test-node-set frame for node 5, MINUS3DBM and count 0x0102 is [0x73, 0x04, 5, 3, 1, 2] and decodes with TEST_FRAME_COUNT = 1024 |
| PowerlevelV1.SmallFrameCountLost | com.zsmartsystems.zwave/src/main/java/com/zsmartsystems/zwave/commandclass/impl/CommandClassPowerlevelV1.java:477 | every frame count in 1..255 reads back as 0 |
| PowerlevelV1.TestNodeSetRoundTrip | com.zsmartsystems.zwave/src/main/java/com/zsmartsystems/zwave/commandclass/impl/CommandClassPowerlevelV1.java:356-481 | node id (below 128) and power level round-trip; TEST_FRAME_COUNT comes back as the precedence-bug reading of the written bytes |
| PowerlevelV1.TestNodeReportRoundTrip | com.zsmartsystems.zwave/src/main/java/com/zsmartsystems/zwave/commandclass/impl/CommandClassPowerlevelV1.java:529-621 | test node id and status round-trip; TEST_FRAME_COUNT comes back as the precedence-bug reading of the written bytes |
| FirmwareUpdateMdV1.StatusName | com.zsmartsystems.zwave/src/main/java/com/zsmartsystems/zwave/commandclass/impl/CommandClassFirmwareUpdateMdV1.java:83-85 | the status table maps exactly 0x00, 0xFF and 0x01 |
| FirmwareUpdateMdV1.StatusCode | com.zsmartsystems.zwave/src/main/java/com/zsmartsystems/zwave/commandclass/impl/CommandClassFirmwareUpdateMdV1.java:276-286 | the code found for a status is a table key naming it; none is found only when no entry has that name |
| FirmwareUpdateMdV1.StatusTableUnique | com.zsmartsystems.zwave/src/main/java/com/zsmartsystems/zwave/commandclass/impl/CommandClassFirmwareUpdateMdV1.java:83-85 | no two status codes share a name |
| FirmwareUpdateMdV1.IdsFrame | com.zsmartsystems.zwave/src/main/java/com/zsmartsystems/zwave/commandclass/impl/CommandClassFirmwareUpdateMdV1.java:132-152 | the frame is 8 bytes: class, command, then manufacturer id, firmware id and checksum each big-endian modulo 65536 |
| FirmwareUpdateMdV1.DecodeIds | com.zsmartsystems.zwave/src/main/java/com/zsmartsystems/zwave/commandclass/impl/CommandClassFirmwareUpdateMdV1.java:170-185 | fails exactly on payloads shorter than 8 bytes; MANUFACTURER_ID, FIRMWARE_ID and CHECKSUM are the unsigned big-endian pairs at 2, 4 and 6, each in 0..65535 |
| FirmwareUpdateMdV1.StatusFrame | com.zsmartsystems.zwave/src/main/java/com/zsmartsystems/zwave/commandclass/impl/CommandClassFirmwareUpdateMdV1.java:268-289 | succeeds exactly for the three status names (IllegalArgumentException otherwise); the 3-byte frame's code names the status |
| FirmwareUpdateMdV1.DecodeStatus | com.zsmartsystems.zwave/src/main/java/com/zsmartsystems/zwave/commandclass/impl/CommandClassFirmwareUpdateMdV1.java:305-314 | fails exactly on payloads shorter than 3 bytes; STATUS is the table name of the unsigned payload[2], and null exactly when that code is not in the table |
| FirmwareUpdateMdV1.EncodeUpdateMdGet | com.zsmartsystems.zwave/src/main/java/com/zsmartsystems/zwave/commandclass/impl/CommandClassFirmwareUpdateMdV1.java:328-349 | 5 bytes: number of reports, report number modulo 128 with the zero flag in bit 7, second report number |
| FirmwareUpdateMdV1.DecodeUpdateMdGet | com.zsmartsystems.zwave/src/main/java/com/zsmartsystems/zwave/commandclass/impl/CommandClassFirmwareUpdateMdV1.java:368-384 | fails exactly on payloads shorter than 5 bytes; NUMBER_OF_REPORTS and REPORT_NUMBER_2 are signed reads of payload[2] and payload[4]; REPORT_NUMBER_1 is bits 0-6 and ZERO bit 7 of payload[3] |
| FirmwareUpdateMdV1.EncodeUpdateMdReport | com.zsmartsystems.zwave/src/main/java/com/zsmartsystems/zwave/commandclass/impl/CommandClassFirmwareUpdateMdV1.java:398-424 | report number modulo 128 with the last flag in bit 7, then the second report number, then DATA verbatim or nothing when it is null |
| FirmwareUpdateMdV1.DecodeUpdateMdReport | com.zsmartsystems.zwave/src/main/java/com/zsmartsystems/zwave/commandclass/impl/CommandClassFirmwareUpdateMdV1.java:443-469 | fails exactly on payloads shorter than 4 bytes; REPORT_NUMBER_1 is bits 0-6 and LAST bit 7 of payload[2], REPORT_NUMBER_2 the signed read of payload[3], DATA every byte from index 4 on |
| FirmwareUpdateMdV1.GetFirmwareMdGet | com.zsmartsystems.zwave/src/main/java/com/zsmartsystems/zwave/commandclass/impl/CommandClassFirmwareUpdateMdV1.java:95-103 | the get frame is exactly [0x7A, 0x01] |
| FirmwareUpdateMdV1.HandleFirmwareMdGet | com.zsmartsystems.zwave/src/main/java/com/zsmartsystems/zwave/commandclass/impl/CommandClassFirmwareUpdateMdV1.java:113-119 | any payload decodes to the empty map |
| FirmwareUpdateMdV1.WriteIds | com.zsmartsystems.zwave/src/main/java/com/zsmartsystems/zwave/commandclass/impl/CommandClassFirmwareUpdateMdV1.java:132-152 | the six shift-and-mask writes equal IdsFrame |
| FirmwareUpdateMdV1.ReadIds | com.zsmartsystems.zwave/src/main/java/com/zsmartsystems/zwave/commandclass/impl/CommandClassFirmwareUpdateMdV1.java:170-185 | the three big-endian puts equal DecodeIds |
| FirmwareUpdateMdV1.GetFirmwareMdReport | com.zsmartsystems.zwave/src/main/java/com/zsmartsystems/zwave/commandclass/impl/CommandClassFirmwareUpdateMdV1.java:132-152 | the MD report frame is IdsFrame for command 0x02 |
| FirmwareUpdateMdV1.HandleFirmwareMdReport | com.zsmartsystems.zwave/src/main/java/com/zsmartsystems/zwave/commandclass/impl/CommandClassFirmwareUpdateMdV1.java:170-185 | returns DecodeIds of the payload |
| FirmwareUpdateMdV1.GetFirmwareUpdateMdRequestGet | com.zsmartsystems.zwave/src/main/java/com/zsmartsystems/zwave/commandclass/impl/CommandClassFirmwareUpdateMdV1.java:198-218 | the request-get frame is IdsFrame for command 0x03 |
| FirmwareUpdateMdV1.HandleFirmwareUpdateMdRequestGet | com.zsmartsystems.zwave/src/main/java/com/zsmartsystems/zwave/commandclass/impl/CommandClassFirmwareUpdateMdV1.java:236-251 | returns DecodeIds of the payload |
| FirmwareUpdateMdV1.WriteStatus | com.zsmartsystems.zwave/src/main/java/com/zsmartsystems/zwave/commandclass/impl/CommandClassFirmwareUpdateMdV1.java:268-289 | the key-set loop with the `foundStatus` flag returns the same result as StatusFrame |
| FirmwareUpdateMdV1.ReadStatus | com.zsmartsystems.zwave/src/main/java/com/zsmartsystems/zwave/commandclass/impl/CommandClassFirmwareUpdateMdV1.java:305-314 | the handler body equals DecodeStatus |
| FirmwareUpdateMdV1.GetFirmwareUpdateMdRequestReport | com.zsmartsystems.zwave/src/main/java/com/zsmartsystems/zwave/commandclass/impl/CommandClassFirmwareUpdateMdV1.java:268-289 | the request-report frame is StatusFrame for command 0x04 |
| FirmwareUpdateMdV1.HandleFirmwareUpdateMdRequestReport | com.zsmartsystems.zwave/src/main/java/com/zsmartsystems/zwave/commandclass/impl/CommandClassFirmwareUpdateMdV1.java:305-314 | returns DecodeStatus of the payload |
| FirmwareUpdateMdV1.GetFirmwareUpdateMdGet | com.zsmartsystems.zwave/src/main/java/com/zsmartsystems/zwave/commandclass/impl/CommandClassFirmwareUpdateMdV1.java:328-349 | the writes equal EncodeUpdateMdGet |
| FirmwareUpdateMdV1.HandleFirmwareUpdateMdGet | com.zsmartsystems.zwave/src/main/java/com/zsmartsystems/zwave/commandclass/impl/CommandClassFirmwareUpdateMdV1.java:368-384 | returns DecodeUpdateMdGet of the payload |
| FirmwareUpdateMdV1.GetFirmwareUpdateMdReport | com.zsmartsystems.zwave/src/main/java/com/zsmartsystems/zwave/commandclass/impl/CommandClassFirmwareUpdateMdV1.java:398-424 | the writes and the DATA append equal EncodeUpdateMdReport |
| FirmwareUpdateMdV1.HandleFirmwareUpdateMdReport | com.zsmartsystems.zwave/src/main/java/com/zsmartsystems/zwave/commandclass/impl/CommandClassFirmwareUpdateMdV1.java:443-469 | the puts and the DATA copy loop equal DecodeUpdateMdReport |
| FirmwareUpdateMdV1.GetFirmwareUpdateMdStatusReport | com.zsmartsystems.zwave/src/main/java/com/zsmartsystems/zwave/commandclass/impl/CommandClassFirmwareUpdateMdV1.java:486-507 | the status-report frame is StatusFrame for command 0x07 |
| FirmwareUpdateMdV1.HandleFirmwareUpdateMdStatusReport | com.zsmartsystems.zwave/src/main/java/com/zsmartsystems/zwave/commandclass/impl/CommandClassFirmwareUpdateMdV1.java:523-532 | returns DecodeStatus of the payload |
| FirmwareUpdateMdV1.IdsRoundTrip | com.zsmartsystems.zwave/src/main/java/com/zsmartsystems/zwave/commandclass/impl/CommandClassFirmwareUpdateMdV1.java:132-251 | every manufacturer id, firmware id and checksum in 0..65535 round-trips |
| FirmwareUpdateMdV1.MdReportExample | com.zsmartsystems.zwave/src/main/java/com/zsmartsystems/zwave/commandclass/impl/CommandClassFirmwareUpdateMdV1.java:132-152 | 0x1234/0x5678/0x9ABC encode as 7A 02 12 34 56 78 9A BC |
| FirmwareUpdateMdV1.StatusRoundTrip | com.zsmartsystems.zwave/src/main/java/com/zsmartsystems/zwave/commandclass/impl/CommandClassFirmwareUpdateMdV1.java:268-314 | every accepted status decodes back to itself, including VALID_COMBINATION at 0xFF |
| FirmwareUpdateMdV1.StatusUnknownCode | com.zsmartsystems.zwave/src/main/java/com/zsmartsystems/zwave/commandclass/impl/CommandClassFirmwareUpdateMdV1.java:310 | an unmapped status code decodes to STATUS = null |
| FirmwareUpdateMdV1.UpdateMdGetRoundTrip | com.zsmartsystems.zwave/src/main/java/com/zsmartsystems/zwave/commandclass/impl/CommandClassFirmwareUpdateMdV1.java:328-384 | all four fields round-trip for report number 1 in 0..127 and the other counts in -128..127 |
| FirmwareUpdateMdV1.UpdateMdReportRoundTrip | com.zsmartsystems.zwave/src/main/java/com/zsmartsystems/zwave/commandclass/impl/CommandClassFirmwareUpdateMdV1.java:398-469 | report numbers, LAST and DATA round-trip; a null DATA comes back empty |
| ThermostatModeV1.ModeCode | com.zsmartsystems.zwave/src/main/java/com/zsmartsystems/zwave/commandclass/impl/CommandClassThermostatModeV1.java:97-135 | the eleven mode names map to codes 0..10 |
| ThermostatModeV1.ModeName | com.zsmartsystems.zwave/src/main/java/com/zsmartsystems/zwave/commandclass/impl/CommandClassThermostatModeV1.java:159-195 | exactly the codes 0..10 have a mode name |
| ThermostatModeV1.ModeSwitchesInverse | com.zsmartsystems.zwave/src/main/java/com/zsmartsystems/zwave/commandclass/impl/CommandClassThermostatModeV1.java:97-195 | the encoder and decoder switches are inverse on every name and code they know |
| ThermostatModeV1.ModeBitName | com.zsmartsystems.zwave/src/main/java/com/zsmartsystems/zwave/commandclass/impl/CommandClassThermostatModeV1.java:65-79 | the supported-mode bitmask table names exactly the codes 0..10 |
| ThermostatModeV1.AuxiliaryHeatNamesDiffer | com.zsmartsystems.zwave/src/main/java/com/zsmartsystems/zwave/commandclass/impl/CommandClassThermostatModeV1.java:72 | code 4 is AUXILIARY_HEAT in set/report but AUXILIARY_EMERGENCY_HEAT in the bitmask table, which set/report reject; all other codes agree |
| ThermostatModeV1.ModeFrame | com.zsmartsystems.zwave/src/main/java/com/zsmartsystems/zwave/commandclass/impl/CommandClassThermostatModeV1.java:89-138 | succeeds exactly for a known mode (IllegalArgumentException otherwise); the 3-byte frame's mode byte is a code below 11 naming the mode |
| ThermostatModeV1.DecodeMode | com.zsmartsystems.zwave/src/main/java/com/zsmartsystems/zwave/commandclass/impl/CommandClassThermostatModeV1.java:154-199 | fails exactly on payloads shorter than 3 bytes; MODE is present exactly when the low 5 bits of payload[2] are below 11, and then names that code |
| ThermostatModeV1.LowModeFlags | com.zsmartsystems.zwave/src/main/java/com/zsmartsystems/zwave/commandclass/impl/CommandClassThermostatModeV1.java:422-429 | one condition per bit of the first mask byte |
| ThermostatModeV1.HighModeFlags | com.zsmartsystems.zwave/src/main/java/com/zsmartsystems/zwave/commandclass/impl/CommandClassThermostatModeV1.java:432-434 | one condition per bit of the second mask byte |
| ThermostatModeV1.EncodeSupportedReport | com.zsmartsystems.zwave/src/main/java/com/zsmartsystems/zwave/commandclass/impl/CommandClassThermostatModeV1.java:413-438 | always exactly 4 bytes; the second mask byte never has bits 3-7 set |
| ThermostatModeV1.DecodeSupportedReport | com.zsmartsystems.zwave/src/main/java/com/zsmartsystems/zwave/commandclass/impl/CommandClassThermostatModeV1.java:454-470 | the single key BIT_MASK: empty for payloads of at most 2 bytes, otherwise the table entry (or null) of every set bit of the bytes from index 2, in bit order |
| ThermostatModeV1.WriteMode | com.zsmartsystems.zwave/src/main/java/com/zsmartsystems/zwave/commandclass/impl/CommandClassThermostatModeV1.java:89-138 | the switch-then-write body equals ModeFrame |
| ThermostatModeV1.ReadMode | com.zsmartsystems.zwave/src/main/java/com/zsmartsystems/zwave/commandclass/impl/CommandClassThermostatModeV1.java:154-199 | the switch-then-put body equals DecodeMode |
| ThermostatModeV1.GetThermostatModeSet | com.zsmartsystems.zwave/src/main/java/com/zsmartsystems/zwave/commandclass/impl/CommandClassThermostatModeV1.java:89-138 | the set frame is ModeFrame for command 0x01 |
| ThermostatModeV1.HandleThermostatModeSet | com.zsmartsystems.zwave/src/main/java/com/zsmartsystems/zwave/commandclass/impl/CommandClassThermostatModeV1.java:154-199 | returns DecodeMode of the payload |
| ThermostatModeV1.GetThermostatModeGet | com.zsmartsystems.zwave/src/main/java/com/zsmartsystems/zwave/commandclass/impl/CommandClassThermostatModeV1.java:209-217 | the get frame is exactly [0x40, 0x02] |
| ThermostatModeV1.HandleThermostatModeGet | com.zsmartsystems.zwave/src/main/java/com/zsmartsystems/zwave/commandclass/impl/CommandClassThermostatModeV1.java:227-233 | any payload decodes to the empty map |
| ThermostatModeV1.GetThermostatModeReport | com.zsmartsystems.zwave/src/main/java/com/zsmartsystems/zwave/commandclass/impl/CommandClassThermostatModeV1.java:244-293 | the report frame is ModeFrame for command 0x03 |
| ThermostatModeV1.HandleThermostatModeReport | com.zsmartsystems.zwave/src/main/java/com/zsmartsystems/zwave/commandclass/impl/CommandClassThermostatModeV1.java:309-354 | returns DecodeMode of the payload |
| ThermostatModeV1.GetThermostatModeSupportedGet | com.zsmartsystems.zwave/src/main/java/com/zsmartsystems/zwave/commandclass/impl/CommandClassThermostatModeV1.java:364-372 | the supported-get frame is exactly [0x40, 0x04] |
| ThermostatModeV1.HandleThermostatModeSupportedGet | com.zsmartsystems.zwave/src/main/java/com/zsmartsystems/zwave/commandclass/impl/CommandClassThermostatModeV1.java:382-388 | any payload decodes to the empty map |
| ThermostatModeV1.LowModeMask | com.zsmartsystems.zwave/src/main/java/com/zsmartsystems/zwave/commandclass/impl/CommandClassThermostatModeV1.java:421-430 | the eight `valBitMask |=` steps compute the flag value of the first mask byte |
| ThermostatModeV1.HighModeMask | com.zsmartsystems.zwave/src/main/java/com/zsmartsystems/zwave/commandclass/impl/CommandClassThermostatModeV1.java:431-435 | the three `valBitMask |=` steps compute the flag value of the second mask byte |
| ThermostatModeV1.GetThermostatModeSupportedReport | com.zsmartsystems.zwave/src/main/java/com/zsmartsystems/zwave/commandclass/impl/CommandClassThermostatModeV1.java:413-438 | the body equals EncodeSupportedReport |
| ThermostatModeV1.HandleThermostatModeSupportedReport | com.zsmartsystems.zwave/src/main/java/com/zsmartsystems/zwave/commandclass/impl/CommandClassThermostatModeV1.java:454-470 | the bit-scanning loop equals DecodeSupportedReport |
| ThermostatModeV1.ModeFlagsMatchTable | com.zsmartsystems.zwave/src/main/java/com/zsmartsystems/zwave/commandclass/impl/CommandClassThermostatModeV1.java:422-434 | each flag is set exactly when the list contains the bitmask-table name of its code; codes 11-15 have no name |
| ThermostatModeV1.SupportedReportBits | com.zsmartsystems.zwave/src/main/java/com/zsmartsystems/zwave/commandclass/impl/CommandClassThermostatModeV1.java:413-438 | bit i of the mask is set if and only if the list contains the bitmask-table name of code i; unknown names and duplicates change nothing, bits 11-15 are never set |
| ThermostatModeV1.SupportedReportRoundTrip | com.zsmartsystems.zwave/src/main/java/com/zsmartsystems/zwave/commandclass/impl/CommandClassThermostatModeV1.java:413-470 | decode(encode(L)) is the distinct known names of L in ascending code order |
| ThermostatModeV1.ModeRoundTrip | com.zsmartsystems.zwave/src/main/java/com/zsmartsystems/zwave/commandclass/impl/CommandClassThermostatModeV1.java:89-199 | every accepted mode decodes back to itself |
| ThermostatModeV1.ModeDecodeExamples | com.zsmartsystems.zwave/src/main/java/com/zsmartsystems/zwave/commandclass/impl/CommandClassThermostatModeV1.java:159-195 | 0x05 decodes to RESUME; 0x1C leaves MODE absent |
| HrvStatusV1.StatusParameterCode | com.zsmartsystems.zwave/src/main/java/com/zsmartsystems/zwave/commandclass/impl/CommandClassHrvStatusV1.java:74-98 | the seven status-parameter names map to codes 0..6 |
| HrvStatusV1.StatusParameterName | com.zsmartsystems.zwave/src/main/java/com/zsmartsystems/zwave/commandclass/impl/CommandClassHrvStatusV1.java:123-149 | bytes 0..6 get their names, every other byte its UNKNOWN_xx name |
| HrvStatusV1.StatusParameterSwitchesInverse | com.zsmartsystems.zwave/src/main/java/com/zsmartsystems/zwave/commandclass/impl/CommandClassHrvStatusV1.java:74-149 | the encoder and decoder switches are inverse on every name and on bytes 0..6 |
| HrvStatusV1.Properties | com.zsmartsystems.zwave/src/main/java/com/zsmartsystems/zwave/commandclass/impl/CommandClassHrvStatusV1.java:204-208 | size sits in bits 0-2, scale in bits 3-4 and precision in bits 5-7 (each modulo its field width) |
| HrvStatusV1.EncodeStatusGet | com.zsmartsystems.zwave/src/main/java/com/zsmartsystems/zwave/commandclass/impl/CommandClassHrvStatusV1.java:66-101 | succeeds exactly for a known parameter (IllegalArgumentException otherwise); the 3-byte frame's code names it |
| HrvStatusV1.DecodeStatusGet | com.zsmartsystems.zwave/src/main/java/com/zsmartsystems/zwave/commandclass/impl/CommandClassHrvStatusV1.java:118-153 | fails exactly on payloads shorter than 3 bytes; STATUS_PARAMETER is the name of payload[2], or its UNKNOWN_xx placeholder |
| HrvStatusV1.EncodeStatusReport | com.zsmartsystems.zwave/src/main/java/com/zsmartsystems/zwave/commandclass/impl/CommandClassHrvStatusV1.java:168-217 | succeeds exactly for a known parameter; the properties byte holds size, scale and precision in their bit fields and VALUE follows verbatim |
| HrvStatusV1.DecodeStatusReport | com.zsmartsystems.zwave/src/main/java/com/zsmartsystems/zwave/commandclass/impl/CommandClassHrvStatusV1.java:238-291 | fails exactly on payloads shorter than 4 bytes; STATUS_PARAMETER names payload[2]; VALUE is every byte from 4 on; SIZE and PRECISION both read bits 0-2 and SCALE bits 0-1, as the shift-precedence expressions compute |
| HrvStatusV1.SupportedFlags | com.zsmartsystems.zwave/src/main/java/com/zsmartsystems/zwave/commandclass/impl/CommandClassHrvStatusV1.java:346-352 | one condition per parameter code 0..6 |
| HrvStatusV1.SupportedFlagsNamed | com.zsmartsystems.zwave/src/main/java/com/zsmartsystems/zwave/commandclass/impl/CommandClassHrvStatusV1.java:346-352 | condition i holds exactly when the list contains the name of parameter i |
| HrvStatusV1.FlagsOfSeven | com.zsmartsystems.zwave/src/main/java/com/zsmartsystems/zwave/commandclass/impl/CommandClassHrvStatusV1.java:346-352 | the flag value of seven conditions is the sum of the constants 0x01..0x40 of those that hold |
| HrvStatusV1.EncodeSupportedReport | com.zsmartsystems.zwave/src/main/java/com/zsmartsystems/zwave/commandclass/impl/CommandClassHrvStatusV1.java:337-356 | exactly 3 bytes, and bit 7 of the mask is never set |
| HrvStatusV1.DecodeSupportedReport | com.zsmartsystems.zwave/src/main/java/com/zsmartsystems/zwave/commandclass/impl/CommandClassHrvStatusV1.java:373-415 | an empty BIT_MASK for payloads of at most 2 bytes, non-termination for every longer payload |
| HrvStatusV1.GetHrvStatusGet | com.zsmartsystems.zwave/src/main/java/com/zsmartsystems/zwave/commandclass/impl/CommandClassHrvStatusV1.java:66-101 | the switch-then-write body equals EncodeStatusGet |
| HrvStatusV1.HandleHrvStatusGet | com.zsmartsystems.zwave/src/main/java/com/zsmartsystems/zwave/commandclass/impl/CommandClassHrvStatusV1.java:118-153 | returns DecodeStatusGet of the payload |
| HrvStatusV1.GetHrvStatusReport | com.zsmartsystems.zwave/src/main/java/com/zsmartsystems/zwave/commandclass/impl/CommandClassHrvStatusV1.java:168-217 | the switch, the properties packing and the VALUE append equal EncodeStatusReport |
| HrvStatusV1.HandleHrvStatusReport | com.zsmartsystems.zwave/src/main/java/com/zsmartsystems/zwave/commandclass/impl/CommandClassHrvStatusV1.java:238-291 | the puts and the VALUE copy loop equal DecodeStatusReport |
| HrvStatusV1.GetHrvStatusSupportedGet | com.zsmartsystems.zwave/src/main/java/com/zsmartsystems/zwave/commandclass/impl/CommandClassHrvStatusV1.java:301-309 | the supported-get frame is exactly [0x37, 0x03] |
| HrvStatusV1.HandleHrvStatusSupportedGet | com.zsmartsystems.zwave/src/main/java/com/zsmartsystems/zwave/commandclass/impl/CommandClassHrvStatusV1.java:320-326 | any payload decodes to the empty map |
| HrvStatusV1.GetHrvStatusSupportedReport | com.zsmartsystems.zwave/src/main/java/com/zsmartsystems/zwave/commandclass/impl/CommandClassHrvStatusV1.java:337-356 | the seven `valBitMask |=` steps equal EncodeSupportedReport |
| HrvStatusV1.HandleHrvStatusSupportedReport | com.zsmartsystems.zwave/src/main/java/com/zsmartsystems/zwave/commandclass/impl/CommandClassHrvStatusV1.java:373-415 | the non-advancing `cntBitMask` loop equals DecodeSupportedReport |
| HrvStatusV1.StatusGetRoundTrip | com.zsmartsystems.zwave/src/main/java/com/zsmartsystems/zwave/commandclass/impl/CommandClassHrvStatusV1.java:66-153 | every accepted status parameter decodes back to itself |
| HrvStatusV1.StatusParameterUnknownByte | com.zsmartsystems.zwave/src/main/java/com/zsmartsystems/zwave/commandclass/impl/CommandClassHrvStatusV1.java:145-149 | a parameter byte of 7 or more decodes to "UNKNOWN_" plus its hex digits |
| HrvStatusV1.StatusReportRoundTrip | com.zsmartsystems.zwave/src/main/java/com/zsmartsystems/zwave/commandclass/impl/CommandClassHrvStatusV1.java:168-291 | parameter, VALUE and a size in 0..7 round-trip; SCALE comes back as size modulo 4 and PRECISION as size, whatever was encoded |
| HrvStatusV1.StatusReportScaleLost | com.zsmartsystems.zwave/src/main/java/com/zsmartsystems/zwave/commandclass/impl/CommandClassHrvStatusV1.java:276-278 | a report with size 2, scale 1, precision 0 decodes with SCALE 2 and PRECISION 2 |
| HrvStatusV1.SupportedReportBits | com.zsmartsystems.zwave/src/main/java/com/zsmartsystems/zwave/commandclass/impl/CommandClassHrvStatusV1.java:346-352 | bit i of the supported mask is set exactly when i < 7 and the list contains parameter i's name |
| HrvStatusV1.SupportedReportNoRoundTrip | com.zsmartsystems.zwave/src/main/java/com/zsmartsystems/zwave/commandclass/impl/CommandClassHrvStatusV1.java:379-410 | decoding any supported report the encoder produces never terminates |
| ThermostatOperatingStateV2.OperatingStateCode | com.zsmartsystems.zwave/src/main/java/com/zsmartsystems/zwave/commandclass/impl/CommandClassThermostatOperatingStateV2.java:191-232 | the twelve names map to codes 0..11 |
| ThermostatOperatingStateV2.OperatingStateName | com.zsmartsystems.zwave/src/main/java/com/zsmartsystems/zwave/commandclass/impl/CommandClassThermostatOperatingStateV2.java:256-295 | exactly the codes 0..11 have a name |
| ThermostatOperatingStateV2.OperatingStateSwitchesInverse | com.zsmartsystems.zwave/src/main/java/com/zsmartsystems/zwave/commandclass/impl/CommandClassThermostatOperatingStateV2.java:191-295 | the encoder and decoder switches are inverse on every name and code they know |
| ThermostatOperatingStateV2.LoggingGetBitName | com.zsmartsystems.zwave/src/main/java/com/zsmartsystems/zwave/commandclass/impl/CommandClassThermostatOperatingStateV2.java:79-90 | the logging-get bitmask table names exactly codes 0..11 |
| ThermostatOperatingStateV2.LoggingSupportedBitName | com.zsmartsystems.zwave/src/main/java/com/zsmartsystems/zwave/commandclass/impl/CommandClassThermostatOperatingStateV2.java:93-104 | the logging-supported bitmask table names exactly codes 0..11 |
| ThermostatOperatingStateV2.LoggingTablesAgree | com.zsmartsystems.zwave/src/main/java/com/zsmartsystems/zwave/commandclass/impl/CommandClassThermostatOperatingStateV2.java:78-104 | both bitmask tables are identical to the operating-state names, so their 12 names are distinct |
| ThermostatOperatingStateV2.LoggingTablesAreOperatingStates | com.zsmartsystems.zwave/src/main/java/com/zsmartsystems/zwave/commandclass/impl/CommandClassThermostatOperatingStateV2.java:78-104 | every entry of both bitmask tables equals the operating-state name of its code |
| ThermostatOperatingStateV2.CodeSum | com.zsmartsystems.zwave/src/main/java/com/zsmartsystems/zwave/commandclass/impl/CommandClassThermostatOperatingStateV2.java:333-347 | the sum of the codes of a name list is undefined exactly when some name is not in the table, and otherwise at most 11 per name |
| ThermostatOperatingStateV2.CodeSumAppend | com.zsmartsystems.zwave/src/main/java/com/zsmartsystems/zwave/commandclass/impl/CommandClassThermostatOperatingStateV2.java:333-347 | the code sum of two concatenated lists is defined exactly when both are, and is then their sum |
| ThermostatOperatingStateV2.EncodeLoggingMask | com.zsmartsystems.zwave/src/main/java/com/zsmartsystems/zwave/commandclass/impl/CommandClassThermostatOperatingStateV2.java:325-350 | IllegalArgumentException exactly when some name is not in the table; otherwise a 3-byte frame whose value byte is the low byte of the sum of the listed names' codes |
| ThermostatOperatingStateV2.DecodeLoggingMask | com.zsmartsystems.zwave/src/main/java/com/zsmartsystems/zwave/commandclass/impl/CommandClassThermostatOperatingStateV2.java:366-382 | the single key BIT_MASK: empty for payloads of at most 2 bytes, otherwise the table entry (or null) of every set bit from byte 2 on, in bit order, at most one entry per bit scanned |
| ThermostatOperatingStateV2.EncodeOperatingStateReport | com.zsmartsystems.zwave/src/main/java/com/zsmartsystems/zwave/commandclass/impl/CommandClassThermostatOperatingStateV2.java:183-235 | succeeds exactly for the twelve known names (IllegalArgumentException otherwise); the 3-byte frame's state byte is a code below 12 naming the input |
| ThermostatOperatingStateV2.DecodeOperatingStateReport | com.zsmartsystems.zwave/src/main/java/com/zsmartsystems/zwave/commandclass/impl/CommandClassThermostatOperatingStateV2.java:251-299 | fails exactly on payloads shorter than 3 bytes; OPERATING_STATE is present exactly when the low nibble of payload[2] is below 12, and names that code |
| ThermostatOperatingStateV2.EncodeLoggingReport | com.zsmartsystems.zwave/src/main/java/com/zsmartsystems/zwave/commandclass/impl/CommandClassThermostatOperatingStateV2.java:476-489 | the frame is exactly [0x42, 0x06, reportsToFollow modulo 256] |
| ThermostatOperatingStateV2.LogVariant | com.zsmartsystems.zwave/src/main/java/com/zsmartsystems/zwave/commandclass/impl/CommandClassThermostatOperatingStateV2.java:517-541 | each variant holds OPERATING_STATE_LOG_TYPE = bits 0-3 of payload[3], USAGE_TODAY = signed payload[5] and USAGE_YESTERDAY = signed payload[7], read from the fixed indices, the minutes overwriting the hours |
| ThermostatOperatingStateV2.LoggingVariants | com.zsmartsystems.zwave/src/main/java/com/zsmartsystems/zwave/commandclass/impl/CommandClassThermostatOperatingStateV2.java:517-545 | the loop only appends; every appended variant is the same fixed-index record; it never returns null; failure is NoTermination (a zero length byte) or a read past a payload shorter than 8 bytes; from a start inside the payload it appends at least one variant and at most one per remaining byte, from the end none |
| ThermostatOperatingStateV2.DecodeLoggingReport | com.zsmartsystems.zwave/src/main/java/com/zsmartsystems/zwave/commandclass/impl/CommandClassThermostatOperatingStateV2.java:505-549 | fails on payloads shorter than 3 bytes and on those of 4..7 bytes; REPORTS_TO_FOLLOW is the signed payload[2] and VG1 a list of fixed-index variants: empty for a 3-byte payload, otherwise between 1 and |payload| - 3 of them |
| ThermostatOperatingStateV2.GetThermostatOperatingStateLoggingSupportedGet | com.zsmartsystems.zwave/src/main/java/com/zsmartsystems/zwave/commandclass/impl/CommandClassThermostatOperatingStateV2.java:114-122 | the frame is exactly [0x42, 0x01] |
| ThermostatOperatingStateV2.HandleThermostatOperatingStateLoggingSupportedGet | com.zsmartsystems.zwave/src/main/java/com/zsmartsystems/zwave/commandclass/impl/CommandClassThermostatOperatingStateV2.java:132-138 | any payload decodes to the empty map |
| ThermostatOperatingStateV2.GetThermostatOperatingStateGet | com.zsmartsystems.zwave/src/main/java/com/zsmartsystems/zwave/commandclass/impl/CommandClassThermostatOperatingStateV2.java:148-156 | the frame is exactly [0x42, 0x02] |
| ThermostatOperatingStateV2.HandleThermostatOperatingStateGet | com.zsmartsystems.zwave/src/main/java/com/zsmartsystems/zwave/commandclass/impl/CommandClassThermostatOperatingStateV2.java:166-172 | any payload decodes to the empty map |
| ThermostatOperatingStateV2.GetThermostatOperatingStateReport | com.zsmartsystems.zwave/src/main/java/com/zsmartsystems/zwave/commandclass/impl/CommandClassThermostatOperatingStateV2.java:183-235 | the switch-then-write body equals EncodeOperatingStateReport |
| ThermostatOperatingStateV2.HandleThermostatOperatingStateReport | com.zsmartsystems.zwave/src/main/java/com/zsmartsystems/zwave/commandclass/impl/CommandClassThermostatOperatingStateV2.java:251-299 | the switch-then-put body equals DecodeOperatingStateReport |
| ThermostatOperatingStateV2.FindLoggingCode | com.zsmartsystems.zwave/src/main/java/com/zsmartsystems/zwave/commandclass/impl/CommandClassThermostatOperatingStateV2.java:333-346 | the inner loop over the table's key set finds a code for a name exactly when the name is in the table, and that code is the name's code |
| ThermostatOperatingStateV2.WriteLoggingMask | com.zsmartsystems.zwave/src/main/java/com/zsmartsystems/zwave/commandclass/impl/CommandClassThermostatOperatingStateV2.java:325-350 | the outer loop adding each name's table key to `valBitMask` equals EncodeLoggingMask |
| ThermostatOperatingStateV2.GetThermostatOperatingLoggingSupportedReport | com.zsmartsystems.zwave/src/main/java/com/zsmartsystems/zwave/commandclass/impl/CommandClassThermostatOperatingStateV2.java:325-350 | the logging-supported report is EncodeLoggingMask for command 0x04 |
| ThermostatOperatingStateV2.HandleThermostatOperatingLoggingSupportedReport | com.zsmartsystems.zwave/src/main/java/com/zsmartsystems/zwave/commandclass/impl/CommandClassThermostatOperatingStateV2.java:366-382 | the bit loop over the supported table equals DecodeLoggingMask |
| ThermostatOperatingStateV2.GetThermostatOperatingStateLoggingGet | com.zsmartsystems.zwave/src/main/java/com/zsmartsystems/zwave/commandclass/impl/CommandClassThermostatOperatingStateV2.java:408-433 | the logging get is EncodeLoggingMask for command 0x05 |
| ThermostatOperatingStateV2.HandleThermostatOperatingStateLoggingGet | com.zsmartsystems.zwave/src/main/java/com/zsmartsystems/zwave/commandclass/impl/CommandClassThermostatOperatingStateV2.java:449-465 | the bit loop over the get table equals DecodeLoggingMask |
| ThermostatOperatingStateV2.GetThermostatOperatingStateLoggingReport | com.zsmartsystems.zwave/src/main/java/com/zsmartsystems/zwave/commandclass/impl/CommandClassThermostatOperatingStateV2.java:476-489 | the body equals EncodeLoggingReport |
| ThermostatOperatingStateV2.HandleThermostatOperatingStateLoggingReport | com.zsmartsystems.zwave/src/main/java/com/zsmartsystems/zwave/commandclass/impl/CommandClassThermostatOperatingStateV2.java:505-549 | the offset loop equals DecodeLoggingReport |
| ThermostatOperatingStateV2.OperatingStateReportRoundTrip | com.zsmartsystems.zwave/src/main/java/com/zsmartsystems/zwave/commandclass/impl/CommandClassThermostatOperatingStateV2.java:183-299 | every accepted operating state decodes back to itself |
| ThermostatOperatingStateV2.OperatingStateUnknownCode | com.zsmartsystems.zwave/src/main/java/com/zsmartsystems/zwave/commandclass/impl/CommandClassThermostatOperatingStateV2.java:256-295 | a low nibble of 12..15 leaves OPERATING_STATE absent |
| ThermostatOperatingStateV2.LoggingMaskOrderInsensitive | com.zsmartsystems.zwave/src/main/java/com/zsmartsystems/zwave/commandclass/impl/CommandClassThermostatOperatingStateV2.java:333-347 | the additive mask does not depend on the order of the names |
| ThermostatOperatingStateV2.LoggingMaskIdleIgnored | com.zsmartsystems.zwave/src/main/java/com/zsmartsystems/zwave/commandclass/impl/CommandClassThermostatOperatingStateV2.java:333-347 | adding IDLE (code 0) to the list changes nothing |
| ThermostatOperatingStateV2.LoggingMaskDuplicatesAdd | com.zsmartsystems.zwave/src/main/java/com/zsmartsystems/zwave/commandclass/impl/CommandClassThermostatOperatingStateV2.java:333-347 | [HEATING, HEATING] encodes like [COOLING]: duplicates accumulate |
| ThermostatOperatingStateV2.LoggingMaskNoRoundTrip | com.zsmartsystems.zwave/src/main/java/com/zsmartsystems/zwave/commandclass/impl/CommandClassThermostatOperatingStateV2.java:333-377 | [HEATING] encodes as 0x01, which decodes as [IDLE] |
| ThermostatOperatingStateV2.MaskListTail | com.zsmartsystems.zwave/src/main/java/com/zsmartsystems/zwave/commandclass/impl/CommandClassThermostatOperatingStateV2.java:455-460 | for mask 0x01 the bits above 0 add nothing to the decoded list |
| ThermostatOperatingStateV2.LoggingReportRoundTrip | com.zsmartsystems.zwave/src/main/java/com/zsmartsystems/zwave/commandclass/impl/CommandClassThermostatOperatingStateV2.java:476-549 | the encoder's own 3-byte frame decodes to REPORTS_TO_FOLLOW and an empty VG1 for values in -128..127 |
| ThermostatOperatingStateV2.LoggingReportZeroLength | com.zsmartsystems.zwave/src/main/java/com/zsmartsystems/zwave/commandclass/impl/CommandClassThermostatOperatingStateV2.java:541 | a zero at payload[3] of a long enough frame never moves the offset on: NoTermination, the source's OutOfMemoryError |
| ThermostatOperatingStateV2.LoggingReportHoursIgnored | com.zsmartsystems.zwave/src/main/java/com/zsmartsystems/zwave/commandclass/impl/CommandClassThermostatOperatingStateV2.java:523-535 | in a frame with a single variant (payload[3] covers the rest of the frame), the hours bytes 4 and 6 never affect the decoded report: minutes overwrite them |
| ThermostatOperatingStateV2.LoggingReportHoursAsLength | com.zsmartsystems.zwave/src/main/java/com/zsmartsystems/zwave/commandclass/impl/CommandClassThermostatOperatingStateV2.java:517-545 | when payload[3] is 1 the offset lands on byte 4, so an hours byte does decide the outcome: 0 there never moves the offset on (NoTermination), 4 there decodes |
| MultiChannelV2.Low8All | com.zsmartsystems.zwave/src/main/java/com/zsmartsystems/zwave/commandclass/impl/CommandClassMultiChannelV2.java:224-226 | writing a parameter array keeps the low byte of every element, in order |
| MultiChannelV2.SignedAll | com.zsmartsystems.zwave/src/main/java/com/zsmartsystems/zwave/commandclass/impl/CommandClassMultiChannelV2.java:271-276 | a consume-to-end array read with `Integer.valueOf` is the signed value of every byte, in order |
| MultiChannelV2.UnsignedAll | com.zsmartsystems.zwave/src/main/java/com/zsmartsystems/zwave/commandclass/impl/CommandClassMultiChannelV2.java:525-530 | an array read with `& 0xFF` is every byte unchanged, in order |
| MultiChannelV2.SignedLow8All | com.zsmartsystems.zwave/src/main/java/com/zsmartsystems/zwave/commandclass/impl/CommandClassMultiChannelV2.java:224-276 | signed parameters in -128..127 survive writing and reading back |
| MultiChannelV2.UnsignedLow8All | com.zsmartsystems.zwave/src/main/java/com/zsmartsystems/zwave/commandclass/impl/CommandClassMultiChannelV2.java:478-530 | command classes in 0..255 survive writing and reading back |
| MultiChannelV2.Pack6 | com.zsmartsystems.zwave/src/main/java/com/zsmartsystems/zwave/commandclass/impl/CommandClassMultiChannelV2.java:339-344 | res1 modulo 64 in bits 0-5, identical in bit 6, dynamic in bit 7 |
| MultiChannelV2.EncodeInstanceGet | com.zsmartsystems.zwave/src/main/java/com/zsmartsystems/zwave/commandclass/impl/CommandClassMultiChannelV2.java:89-100 | 3 bytes: class 0x60, command 0x04, low byte of the command class |
| MultiChannelV2.DecodeInstanceGet | com.zsmartsystems.zwave/src/main/java/com/zsmartsystems/zwave/commandclass/impl/CommandClassMultiChannelV2.java:117-126 | fails exactly on payloads shorter than 3 bytes; COMMAND_CLASS is the signed payload[2] |
| MultiChannelV2.EncodeInstanceReport | com.zsmartsystems.zwave/src/main/java/com/zsmartsystems/zwave/commandclass/impl/CommandClassMultiChannelV2.java:139-156 | 4 bytes; the command class's low byte, then instances modulo 128 in bits 0-6 of the last byte and res in bit 7 |
| MultiChannelV2.DecodeInstanceReport | com.zsmartsystems.zwave/src/main/java/com/zsmartsystems/zwave/commandclass/impl/CommandClassMultiChannelV2.java:175-188 | fails exactly on payloads shorter than 4 bytes; COMMAND_CLASS is the signed read of payload[2], INSTANCES bits 0-6 of payload[3] (so in 0..127) and RES its bit 7 |
| MultiChannelV2.EncodeInstanceCmdEncap | com.zsmartsystems.zwave/src/main/java/com/zsmartsystems/zwave/commandclass/impl/CommandClassMultiChannelV2.java:203-229 | 5 header bytes: instance modulo 128 with res in bit 7, the command class's and command's low bytes; then every parameter's low byte in order |
| MultiChannelV2.DecodeInstanceCmdEncap | com.zsmartsystems.zwave/src/main/java/com/zsmartsystems/zwave/commandclass/impl/CommandClassMultiChannelV2.java:250-280 | fails exactly on payloads shorter than 5 bytes; INSTANCE is bits 0-6 and RES bit 7 of payload[2], COMMAND_CLASS and COMMAND signed reads of payload[3] and payload[4], PARAMETER the signed value of every byte from 5 on |
| MultiChannelV2.EncodeEndPointReport | com.zsmartsystems.zwave/src/main/java/com/zsmartsystems/zwave/commandclass/impl/CommandClassMultiChannelV2.java:330-352 | 4 bytes: res1/identical/dynamic packed in byte 2, end points modulo 128 and res2 in byte 3 |
| MultiChannelV2.DecodeEndPointReport | com.zsmartsystems.zwave/src/main/java/com/zsmartsystems/zwave/commandclass/impl/CommandClassMultiChannelV2.java:373-388 | fails exactly on payloads shorter than 4 bytes; RES1 is bits 0-5 and END_POINTS bits 0-6 of bytes 2 and 3; IDENTICAL, DYNAMIC and RES2 are true exactly when bit 6 of byte 2, bit 7 of byte 2 and bit 7 of byte 3 are set |
| MultiChannelV2.EncodeCapabilityGet | com.zsmartsystems.zwave/src/main/java/com/zsmartsystems/zwave/commandclass/impl/CommandClassMultiChannelV2.java:400-414 | 3 bytes; end point modulo 128 and res in bit 7 |
| MultiChannelV2.DecodeCapabilityGet | com.zsmartsystems.zwave/src/main/java/com/zsmartsystems/zwave/commandclass/impl/CommandClassMultiChannelV2.java:432-442 | fails exactly on payloads shorter than 3 bytes; END_POINT is bits 0-6 of payload[2] and RES is true exactly when its bit 7 is set |
| MultiChannelV2.EncodeCapabilityReport | com.zsmartsystems.zwave/src/main/java/com/zsmartsystems/zwave/commandclass/impl/CommandClassMultiChannelV2.java:457-483 | 5 header bytes: end point modulo 128 with dynamic in bit 7, the low bytes of the two device classes; then the low byte of every command class in list order |
| MultiChannelV2.DecodeCapabilityReport | com.zsmartsystems.zwave/src/main/java/com/zsmartsystems/zwave/commandclass/impl/CommandClassMultiChannelV2.java:504-534 | fails exactly on payloads shorter than 5 bytes; END_POINT is bits 0-6 and DYNAMIC bit 7 of payload[2], the device classes are signed reads of payload[3] and payload[4], COMMAND_CLASS is every byte from 5 on, unsigned, in order |
| MultiChannelV2.EncodeEndPointFind | com.zsmartsystems.zwave/src/main/java/com/zsmartsystems/zwave/commandclass/impl/CommandClassMultiChannelV2.java:546-560 | 4 bytes: class 0x60, command 0x0B, then the low bytes of the generic and specific device classes |
| MultiChannelV2.DecodeEndPointFind | com.zsmartsystems.zwave/src/main/java/com/zsmartsystems/zwave/commandclass/impl/CommandClassMultiChannelV2.java:578-590 | fails exactly on payloads shorter than 4 bytes; GENERIC_DEVICE_CLASS and SPECIFIC_DEVICE_CLASS are the signed reads of payload[2] and payload[3], whose low bytes give those bytes back |
| MultiChannelV2.EncodeEndPointFindReport | com.zsmartsystems.zwave/src/main/java/com/zsmartsystems/zwave/commandclass/impl/CommandClassMultiChannelV2.java:603-623 | 5 bytes: the header, then the low bytes of reports-to-follow and the two device classes; no variant bytes |
| MultiChannelV2.FindVariant | com.zsmartsystems.zwave/src/main/java/com/zsmartsystems/zwave/commandclass/impl/CommandClassMultiChannelV2.java:666-667 | every variant reads END_POINT as bits 0-6 and RES as bit 7 of the fixed index 5 |
| MultiChannelV2.FindVariants | com.zsmartsystems.zwave/src/main/java/com/zsmartsystems/zwave/commandclass/impl/CommandClassMultiChannelV2.java:660-677 | the loop only appends; each appended variant is the fixed-index record; it never returns null; failure is NoTermination (a zero length byte); from a start inside the payload it appends at least one variant and at most one per remaining byte, from the end none |
| MultiChannelV2.DecodeEndPointFindReport | com.zsmartsystems.zwave/src/main/java/com/zsmartsystems/zwave/commandclass/impl/CommandClassMultiChannelV2.java:642-681 | fails with an index error on payloads shorter than 5 bytes and otherwise only by NoTermination; REPORTS_TO_FOLLOW and the device classes are signed reads of payload[2..4]; VG is a list of fixed-index variants: empty for a 5-byte payload, otherwise between 1 and |payload| - 5 of them |
| MultiChannelV2.GetMultiInstanceGet | com.zsmartsystems.zwave/src/main/java/com/zsmartsystems/zwave/commandclass/impl/CommandClassMultiChannelV2.java:89-100 | the writes equal EncodeInstanceGet |
| MultiChannelV2.HandleMultiInstanceGet | com.zsmartsystems.zwave/src/main/java/com/zsmartsystems/zwave/commandclass/impl/CommandClassMultiChannelV2.java:117-126 | returns DecodeInstanceGet of the payload |
| MultiChannelV2.GetMultiInstanceReport | com.zsmartsystems.zwave/src/main/java/com/zsmartsystems/zwave/commandclass/impl/CommandClassMultiChannelV2.java:139-156 | the writes equal EncodeInstanceReport |
| MultiChannelV2.HandleMultiInstanceReport | com.zsmartsystems.zwave/src/main/java/com/zsmartsystems/zwave/commandclass/impl/CommandClassMultiChannelV2.java:175-188 | returns DecodeInstanceReport of the payload |
| MultiChannelV2.WriteParameters | com.zsmartsystems.zwave/src/main/java/com/zsmartsystems/zwave/commandclass/impl/CommandClassMultiChannelV2.java:224-226 | the `for` loop over the parameter array appends the low byte of every element, in order, to the stream |
| MultiChannelV2.ReadParameters | com.zsmartsystems.zwave/src/main/java/com/zsmartsystems/zwave/commandclass/impl/CommandClassMultiChannelV2.java:271-276 | the `for` loop over `lenParameter = payload.length - msgOffset` filling `new int[lenParameter]` reads the signed value of every remaining byte, in order |
| MultiChannelV2.GetMultiInstanceCmdEncap | com.zsmartsystems.zwave/src/main/java/com/zsmartsystems/zwave/commandclass/impl/CommandClassMultiChannelV2.java:203-229 | the writes and the parameter loop equal EncodeInstanceCmdEncap |
| MultiChannelV2.HandleMultiInstanceCmdEncap | com.zsmartsystems.zwave/src/main/java/com/zsmartsystems/zwave/commandclass/impl/CommandClassMultiChannelV2.java:250-280 | returns DecodeInstanceCmdEncap of the payload |
| MultiChannelV2.GetMultiChannelEndPointGet | com.zsmartsystems.zwave/src/main/java/com/zsmartsystems/zwave/commandclass/impl/CommandClassMultiChannelV2.java:290-298 | the frame is exactly [0x60, 0x07] |
| MultiChannelV2.HandleMultiChannelEndPointGet | com.zsmartsystems.zwave/src/main/java/com/zsmartsystems/zwave/commandclass/impl/CommandClassMultiChannelV2.java:309-315 | any payload decodes to the empty map |
| MultiChannelV2.GetMultiChannelEndPointReport | com.zsmartsystems.zwave/src/main/java/com/zsmartsystems/zwave/commandclass/impl/CommandClassMultiChannelV2.java:330-352 | the writes equal EncodeEndPointReport |
| MultiChannelV2.HandleMultiChannelEndPointReport | com.zsmartsystems.zwave/src/main/java/com/zsmartsystems/zwave/commandclass/impl/CommandClassMultiChannelV2.java:373-388 | returns DecodeEndPointReport of the payload |
| MultiChannelV2.GetMultiChannelCapabilityGet | com.zsmartsystems.zwave/src/main/java/com/zsmartsystems/zwave/commandclass/impl/CommandClassMultiChannelV2.java:400-414 | the writes equal EncodeCapabilityGet |
| MultiChannelV2.HandleMultiChannelCapabilityGet | com.zsmartsystems.zwave/src/main/java/com/zsmartsystems/zwave/commandclass/impl/CommandClassMultiChannelV2.java:432-442 | returns DecodeCapabilityGet of the payload |
| MultiChannelV2.GetMultiChannelCapabilityReport | com.zsmartsystems.zwave/src/main/java/com/zsmartsystems/zwave/commandclass/impl/CommandClassMultiChannelV2.java:457-483 | the writes and the command-class loop equal EncodeCapabilityReport |
| MultiChannelV2.HandleMultiChannelCapabilityReport | com.zsmartsystems.zwave/src/main/java/com/zsmartsystems/zwave/commandclass/impl/CommandClassMultiChannelV2.java:504-534 | the puts and the copy loop equal DecodeCapabilityReport |
| MultiChannelV2.GetMultiChannelEndPointFind | com.zsmartsystems.zwave/src/main/java/com/zsmartsystems/zwave/commandclass/impl/CommandClassMultiChannelV2.java:546-560 | the writes equal EncodeEndPointFind |
| MultiChannelV2.HandleMultiChannelEndPointFind | com.zsmartsystems.zwave/src/main/java/com/zsmartsystems/zwave/commandclass/impl/CommandClassMultiChannelV2.java:578-590 | returns DecodeEndPointFind of the payload |
| MultiChannelV2.GetMultiChannelEndPointFindReport | com.zsmartsystems.zwave/src/main/java/com/zsmartsystems/zwave/commandclass/impl/CommandClassMultiChannelV2.java:603-623 | the writes equal EncodeEndPointFindReport |
| MultiChannelV2.HandleMultiChannelEndPointFindReport | com.zsmartsystems.zwave/src/main/java/com/zsmartsystems/zwave/commandclass/impl/CommandClassMultiChannelV2.java:642-681 | the offset loop equals DecodeEndPointFindReport |
| MultiChannelV2.GetMultiChannelCmdEncap | com.zsmartsystems.zwave/src/main/java/com/zsmartsystems/zwave/commandclass/impl/CommandClassMultiChannelV2.java:698-730 | the writes and the parameter loop equal EncodeChannelCmdEncap |
| MultiChannelV2.HandleMultiChannelCmdEncap | com.zsmartsystems.zwave/src/main/java/com/zsmartsystems/zwave/commandclass/impl/CommandClassMultiChannelV2.java:753-788 | returns DecodeChannelCmdEncap of the payload |
| MultiChannelV2.EncodeChannelCmdEncap | com.zsmartsystems.zwave/src/main/java/com/zsmartsystems/zwave/commandclass/impl/CommandClassMultiChannelV2.java:698-730 | 6 header bytes: both end points modulo 128 with their flags in bit 7, the command class's and command's low bytes; then every parameter's low byte in order |
| MultiChannelV2.DecodeChannelCmdEncap | com.zsmartsystems.zwave/src/main/java/com/zsmartsystems/zwave/commandclass/impl/CommandClassMultiChannelV2.java:753-788 | fails exactly on payloads shorter than 6 bytes; SOURCE_END_POINT/RES and DESTINATION_END_POINT/BIT_ADDRESS are bits 0-6 and bit 7 of payload[2] and payload[3], COMMAND_CLASS and COMMAND signed reads of payload[4] and payload[5], PARAMETER the signed value of every byte from 6 on |
| MultiChannelV2.InstanceGetRoundTrip | com.zsmartsystems.zwave/src/main/java/com/zsmartsystems/zwave/commandclass/impl/CommandClassMultiChannelV2.java:89-126 | a command class in -128..127 comes back unchanged, one in 128..255 comes back 256 less |
| MultiChannelV2.InstanceReportRoundTrip | com.zsmartsystems.zwave/src/main/java/com/zsmartsystems/zwave/commandclass/impl/CommandClassMultiChannelV2.java:139-188 | command class, instances in 0..127 and res round-trip |
| MultiChannelV2.InstanceCmdEncapRoundTrip | com.zsmartsystems.zwave/src/main/java/com/zsmartsystems/zwave/commandclass/impl/CommandClassMultiChannelV2.java:203-280 | all header fields and every signed parameter round-trip |
| MultiChannelV2.InstanceCmdEncapParameterSigned | com.zsmartsystems.zwave/src/main/java/com/zsmartsystems/zwave/commandclass/impl/CommandClassMultiChannelV2.java:271-276 | a parameter of 200 comes back as -56 |
| MultiChannelV2.EndPointReportRoundTrip | com.zsmartsystems.zwave/src/main/java/com/zsmartsystems/zwave/commandclass/impl/CommandClassMultiChannelV2.java:330-388 | all five fields round-trip for res1 below 64 and end points below 128 |
| MultiChannelV2.CapabilityGetRoundTrip | com.zsmartsystems.zwave/src/main/java/com/zsmartsystems/zwave/commandclass/impl/CommandClassMultiChannelV2.java:400-442 | end point below 128 and res round-trip |
| MultiChannelV2.CapabilityReportRoundTrip | com.zsmartsystems.zwave/src/main/java/com/zsmartsystems/zwave/commandclass/impl/CommandClassMultiChannelV2.java:457-534 | every header field and the whole command-class list (values 0..255) round-trip, in order |
| MultiChannelV2.EndPointFindRoundTrip | com.zsmartsystems.zwave/src/main/java/com/zsmartsystems/zwave/commandclass/impl/CommandClassMultiChannelV2.java:546-590 | both device classes in -128..127 round-trip |
| MultiChannelV2.EndPointFindReportRoundTrip | com.zsmartsystems.zwave/src/main/java/com/zsmartsystems/zwave/commandclass/impl/CommandClassMultiChannelV2.java:603-681 | the encoder's own 5-byte frame decodes to its three fields and an empty VG |
| MultiChannelV2.EndPointFindReportZeroLength | com.zsmartsystems.zwave/src/main/java/com/zsmartsystems/zwave/commandclass/impl/CommandClassMultiChannelV2.java:673 | a zero at payload[5] never moves the offset on: NoTermination, the source's OutOfMemoryError |
| MultiChannelV2.EndPointFindReportFixedIndex | com.zsmartsystems.zwave/src/main/java/com/zsmartsystems/zwave/commandclass/impl/CommandClassMultiChannelV2.java:660-677 | a frame with two variants decodes both from index 5, so they are identical |
| MultiChannelV2.ChannelCmdEncapRoundTrip | com.zsmartsystems.zwave/src/main/java/com/zsmartsystems/zwave/commandclass/impl/CommandClassMultiChannelV2.java:698-788 | all header fields and every signed parameter round-trip |
| ZipNdV1.ValidityCode | com.zsmartsystems.zwave/src/main/java/com/zsmartsystems/zwave/commandclass/impl/CommandClassZipNdV1.java:96-108 | the three validity names map to codes 0..2 |
| ZipNdV1.ValidityName | com.zsmartsystems.zwave/src/main/java/com/zsmartsystems/zwave/commandclass/impl/CommandClassZipNdV1.java:169-181 | exactly validity bits 0..2 have a name |
| ZipNdV1.ValiditySwitchesInverse | com.zsmartsystems.zwave/src/main/java/com/zsmartsystems/zwave/commandclass/impl/CommandClassZipNdV1.java:96-181 | the encoder and decoder switches are inverse on every name and code they know |
| ZipNdV1.Min | com.zsmartsystems.zwave/src/main/java/com/zsmartsystems/zwave/commandclass/impl/CommandClassZipNdV1.java:188 | the `Math.min` used for the array lengths: the smaller of the two |
| ZipNdV1.ValidNodeId | com.zsmartsystems.zwave/src/main/java/com/zsmartsystems/zwave/commandclass/impl/CommandClassZipNdV1.java:115-118 | a node id that passes the 1..232 bound check is written as one byte unchanged |
| ZipNdV1.TooLong | com.zsmartsystems.zwave/src/main/java/com/zsmartsystems/zwave/commandclass/impl/CommandClassZipNdV1.java:122-141 | the encoder throws for an array exactly when it is present and longer than its bound; a null array never does |
| ZipNdV1.BytesOrEmpty | com.zsmartsystems.zwave/src/main/java/com/zsmartsystems/zwave/commandclass/impl/CommandClassZipNdV1.java:122-141 | a null array contributes no bytes, a present one all of its bytes |
| ZipNdV1.EncodeAdvertisement | com.zsmartsystems.zwave/src/main/java/com/zsmartsystems/zwave/commandclass/impl/CommandClassZipNdV1.java:85-144 | IllegalArgumentException for an unknown validity, null for a node id outside 1..232, IllegalArgumentException for an ipv6 over 16 or home id over 4 bytes; otherwise the properties byte holds validity in bits 0-1 and local in bit 2, then node id, ipv6 and home id verbatim |
| ZipNdV1.ValidityEntry | com.zsmartsystems.zwave/src/main/java/com/zsmartsystems/zwave/commandclass/impl/CommandClassZipNdV1.java:169-181 | VALIDITY is put exactly when the validity bits are not 3, and then holds the name of those bits |
| ZipNdV1.DecodeAdvertisement | com.zsmartsystems.zwave/src/main/java/com/zsmartsystems/zwave/commandclass/impl/CommandClassZipNdV1.java:164-205 | an index error below 4 bytes and a negative array size below 20; otherwise VALIDITY names bits 0-1 of payload[2] (absent for 3), LOCAL is its bit 2, NODE_ID the signed payload[3], IPV6_ADDRESS bytes 4..19 and HOME_ID up to 4 bytes from 20 |
| ZipNdV1.EncodeSolicitation | com.zsmartsystems.zwave/src/main/java/com/zsmartsystems/zwave/commandclass/impl/CommandClassZipNdV1.java:217-247 | null for a node id outside 1..232, IllegalArgumentException for an ipv6 over 16 bytes; otherwise [0x58, 0x03, 0, nodeId] then the address |
| ZipNdV1.DecodeSolicitation | com.zsmartsystems.zwave/src/main/java/com/zsmartsystems/zwave/commandclass/impl/CommandClassZipNdV1.java:264-281 | fails exactly on payloads shorter than 4 bytes; NODE_ID is the signed read of payload[3] and IPV6_ADDRESS up to 16 bytes from index 4 |
| ZipNdV1.EncodeInvSolicitation | com.zsmartsystems.zwave/src/main/java/com/zsmartsystems/zwave/commandclass/impl/CommandClassZipNdV1.java:293-312 | null exactly for a node id outside 1..232; otherwise 4 bytes whose properties byte is 0x04 when local and 0 otherwise, then the node id |
| ZipNdV1.DecodeInvSolicitation | com.zsmartsystems.zwave/src/main/java/com/zsmartsystems/zwave/commandclass/impl/CommandClassZipNdV1.java:329-341 | fails exactly on payloads shorter than 4 bytes; LOCAL is bit 2 of payload[2] and NODE_ID the signed read of payload[3] |
| ZipNdV1.CopyBytes | com.zsmartsystems.zwave/src/main/java/com/zsmartsystems/zwave/commandclass/impl/CommandClassZipNdV1.java:188-201 | the `for` loop filling a fresh array copies exactly payload[from..from+len] |
| ZipNdV1.WriteBounded | com.zsmartsystems.zwave/src/main/java/com/zsmartsystems/zwave/commandclass/impl/CommandClassZipNdV1.java:122-141 | writes the array exactly when it is null or within the bound, and reports whether it did |
| ZipNdV1.WriteAddresses | com.zsmartsystems.zwave/src/main/java/com/zsmartsystems/zwave/commandclass/impl/CommandClassZipNdV1.java:122-141 | succeeds exactly when both arrays are within their bounds, and then appends both in order |
| ZipNdV1.GetZipNodeAdvertisement | com.zsmartsystems.zwave/src/main/java/com/zsmartsystems/zwave/commandclass/impl/CommandClassZipNdV1.java:85-144 | the switch, packing, node check and bounded writes equal EncodeAdvertisement |
| ZipNdV1.HandleZipNodeAdvertisement | com.zsmartsystems.zwave/src/main/java/com/zsmartsystems/zwave/commandclass/impl/CommandClassZipNdV1.java:164-205 | the switch, puts and array copies equal DecodeAdvertisement |
| ZipNdV1.GetZipNodeSolicitation | com.zsmartsystems.zwave/src/main/java/com/zsmartsystems/zwave/commandclass/impl/CommandClassZipNdV1.java:217-247 | the node check and writes equal EncodeSolicitation |
| ZipNdV1.HandleZipNodeSolicitation | com.zsmartsystems.zwave/src/main/java/com/zsmartsystems/zwave/commandclass/impl/CommandClassZipNdV1.java:264-281 | returns DecodeSolicitation of the payload |
| ZipNdV1.GetZipInvNodeSolicitation | com.zsmartsystems.zwave/src/main/java/com/zsmartsystems/zwave/commandclass/impl/CommandClassZipNdV1.java:293-312 | the node check and writes equal EncodeInvSolicitation |
| ZipNdV1.HandleZipInvNodeSolicitation | com.zsmartsystems.zwave/src/main/java/com/zsmartsystems/zwave/commandclass/impl/CommandClassZipNdV1.java:329-341 | returns DecodeInvSolicitation of the payload |
| ZipNdV1.AdvertisementRoundTrip | com.zsmartsystems.zwave/src/main/java/com/zsmartsystems/zwave/commandclass/impl/CommandClassZipNdV1.java:85-205 | with a 16-byte ipv6 address, validity, local, the address and the home id round-trip; NODE_ID comes back signed |
| ZipNdV1.AdvertisementShortAddress | com.zsmartsystems.zwave/src/main/java/com/zsmartsystems/zwave/commandclass/impl/CommandClassZipNdV1.java:188-201 | a 15-byte address shifts the home id's first byte into IPV6_ADDRESS |
| ZipNdV1.AdvertisementWithoutAddress | com.zsmartsystems.zwave/src/main/java/com/zsmartsystems/zwave/commandclass/impl/CommandClassZipNdV1.java:196 | an advertisement without an ipv6 address fails to decode with a negative array size |
| ZipNdV1.AdvertisementValidityAbsent | com.zsmartsystems.zwave/src/main/java/com/zsmartsystems/zwave/commandclass/impl/CommandClassZipNdV1.java:169-181 | validity bits 3 leave VALIDITY absent |
| ZipNdV1.SolicitationRoundTrip | com.zsmartsystems.zwave/src/main/java/com/zsmartsystems/zwave/commandclass/impl/CommandClassZipNdV1.java:217-281 | node id below 128 and the address round-trip; the reserved byte is skipped |
| ZipNdV1.InvSolicitationRoundTrip | com.zsmartsystems.zwave/src/main/java/com/zsmartsystems/zwave/commandclass/impl/CommandClassZipNdV1.java:293-341 | local and a node id below 128 round-trip |
| ZwaveplusInfoV2.RoleTypeCode | com.zsmartsystems.zwave/src/main/java/com/zsmartsystems/zwave/commandclass/impl/CommandClassZwaveplusInfoV2.java:106-133 | the eight role names map to codes 0..7 |
| ZwaveplusInfoV2.RoleTypeName | com.zsmartsystems.zwave/src/main/java/com/zsmartsystems/zwave/commandclass/impl/CommandClassZwaveplusInfoV2.java:185-214 | bytes 0..7 get a role name; a byte is formatted as UNKNOWN_xx exactly when it is 8 or more |
| ZwaveplusInfoV2.RoleTypeSwitchesInverse | com.zsmartsystems.zwave/src/main/java/com/zsmartsystems/zwave/commandclass/impl/CommandClassZwaveplusInfoV2.java:106-214 | the role switches are inverse on every name and on bytes 0..7; any other byte is UNKNOWN_xx |
| ZwaveplusInfoV2.NodeTypeCode | com.zsmartsystems.zwave/src/main/java/com/zsmartsystems/zwave/commandclass/impl/CommandClassZwaveplusInfoV2.java:136-145 | ZWAVEPLUS_NODE maps to 0x00 and FOR_IP_GATEWAY to 0x02 |
| ZwaveplusInfoV2.NodeTypeName | com.zsmartsystems.zwave/src/main/java/com/zsmartsystems/zwave/commandclass/impl/CommandClassZwaveplusInfoV2.java:217-228 | a byte is formatted as UNKNOWN_xx exactly when it is neither 0x00 nor 0x02 |
| ZwaveplusInfoV2.NodeTypeSwitchesInverse | com.zsmartsystems.zwave/src/main/java/com/zsmartsystems/zwave/commandclass/impl/CommandClassZwaveplusInfoV2.java:136-228 | the node-type switches are inverse; only bytes 0x00 and 0x02 name a node type, 0x01 decodes to UNKNOWN_01 |
| ZwaveplusInfoV2.UnknownExample01 | com.zsmartsystems.zwave/src/main/java/com/zsmartsystems/zwave/commandclass/impl/CommandClassZwaveplusInfoV2.java:225-227 | byte 0x01 is formatted as UNKNOWN_01 |
| ZwaveplusInfoV2.EncodeInfoReport | com.zsmartsystems.zwave/src/main/java/com/zsmartsystems/zwave/commandclass/impl/CommandClassZwaveplusInfoV2.java:94-156 | IllegalArgumentException exactly for an unknown role or node type; otherwise 9 bytes with the version's low byte, the two codes naming the inputs, and both icon types big-endian modulo 65536 |
| ZwaveplusInfoV2.DecodeInfoReport | com.zsmartsystems.zwave/src/main/java/com/zsmartsystems/zwave/commandclass/impl/CommandClassZwaveplusInfoV2.java:177-238 | fails exactly on payloads shorter than 9 bytes; Z_WAVE_PLUS_VERSION is the signed payload[2], ROLE_TYPE and NODE_TYPE are names of bytes 3 and 4, both icon types are the shift-precedence reading of their byte pairs |
| ZwaveplusInfoV2.GetZwaveplusInfoGet | com.zsmartsystems.zwave/src/main/java/com/zsmartsystems/zwave/commandclass/impl/CommandClassZwaveplusInfoV2.java:54-62 | the get frame is exactly [0x5E, 0x01] |
| ZwaveplusInfoV2.HandleZwaveplusInfoGet | com.zsmartsystems.zwave/src/main/java/com/zsmartsystems/zwave/commandclass/impl/CommandClassZwaveplusInfoV2.java:73-79 | any payload decodes to the empty map |
| ZwaveplusInfoV2.GetZwaveplusInfoReport | com.zsmartsystems.zwave/src/main/java/com/zsmartsystems/zwave/commandclass/impl/CommandClassZwaveplusInfoV2.java:94-156 | the switches and writes equal EncodeInfoReport |
| ZwaveplusInfoV2.HandleZwaveplusInfoReport | com.zsmartsystems.zwave/src/main/java/com/zsmartsystems/zwave/commandclass/impl/CommandClassZwaveplusInfoV2.java:177-238 | the switches and puts equal DecodeInfoReport |
| ZwaveplusInfoV2.InfoReportRoundTrip | com.zsmartsystems.zwave/src/main/java/com/zsmartsystems/zwave/commandclass/impl/CommandClassZwaveplusInfoV2.java:94-238 | role and node type round-trip; the version comes back signed (unchanged in 0..127); the icon types come back as the precedence-bug reading of their bytes |
| ZwaveplusInfoV2.IconTypeLowByteZero | com.zsmartsystems.zwave/src/main/java/com/zsmartsystems/zwave/commandclass/impl/CommandClassZwaveplusInfoV2.java:231 | an icon type below 0x8000 with a zero low byte does round-trip |
| ZwaveplusInfoV2.IconTypeNoRoundTrip | com.zsmartsystems.zwave/src/main/java/com/zsmartsystems/zwave/commandclass/impl/CommandClassZwaveplusInfoV2.java:231 | icon type 0x0701 is written as 07 01 and read back as 0x0E00 |
| ZwaveplusInfoV2.SmallIconTypeLost | com.zsmartsystems.zwave/src/main/java/com/zsmartsystems/zwave/commandclass/impl/CommandClassZwaveplusInfoV2.java:231 | every icon type in 1..255 reads back as 0 |

## Left out

- Logging (`logger.debug`) is not modelled. It has no effect on any frame or map.
- The `try`/`catch (IOException)` around `outputData.write(byte[])` is modelled as a plain append. `ByteArrayOutputStream` never throws there.
- Null arguments are not modelled as inputs, and each kind would behave differently in the Java:
  - a null name given to a table encoder (the Lock state, the Firmware Update status, or an element of a Thermostat Operating State logging list) matches no entry, because the table name's `equals(null)` is false, so the encoder throws `IllegalArgumentException`;
  - a null name given to a `switch` encoder (Powerlevel, Thermostat Mode, HRV Status, Z-Wave Plus Info, Z/IP ND validity) throws `NullPointerException`;
  - a null `Boolean` or `Integer` is unboxed and throws `NullPointerException`, and so does a null `List`.
- The firmware DATA array and the Z/IP ND ipv6 address and home id are the exceptions: the code tests them against null, so they are modelled as `Option`.
- `HrvStatusV1.EncodeStatusReport`: the VALUE argument is a non-null byte sequence. A null VALUE (a `NullPointerException` in the Java) is not modelled.
- Integer arguments are 32-bit (`Int32`). Offsets in the decoders are unbounded naturals; `int` overflow of a Java offset is not modelled, because frames are far shorter than 2^31 bytes.
- `Fail(NoTermination)` is a result, not a diverging computation. It stands for two different Java outcomes:
  - the HRV supported-report bitmask loop never advances and allocates nothing, so it spins forever;
  - the variant-group loops of the Multi Channel end-point-find report and the Thermostat Operating State logging report append a new map on every pass whose offset does not move, so they end in an `OutOfMemoryError` thrown to the caller.
- The static tables that no codec reads are not modelled: the Z/IP ND properties tables and the firmware `constantProperties1` table.
- A Java `HashMap` key set has an iteration order. The model iterates a fixed sequence of the keys, in ascending code order. The encoders' results do not depend on that order: the found code is unique, and the additive mask is order-insensitive (`ThermostatOperatingStateV2.LoggingMaskOrderInsensitive`).
- Java object identity of map values is not modelled. DATA and VALUE are `ByteArrayOutputStream` objects and PARAMETER is `int[]` in the Java; here they are sequences.
- The decoders' fresh `byte[]` and `ArrayList` objects are modelled as sequences. Only the copy loops are kept.
- Any command dispatcher or transport is not part of this model, and neither are the loopback test classes. Their round-trip shape is what the round-trip lemmas state.
