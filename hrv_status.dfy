/** COMMAND_CLASS_HRV_STATUS, version 1: status readings of a heat-recovery
    ventilation unit and the set of readings it supports. */
module HrvStatusV1 {
  import opened Wire
  import opened Streams

  const CommandClassKey: Byte := 0x37
  const HrvStatusGet: Byte := 0x01
  const HrvStatusReport: Byte := 0x02
  const HrvStatusSupportedGet: Byte := 0x03
  const HrvStatusSupportedReport: Byte := 0x04

  /** The encoders' switch on the status parameter. */
  function StatusParameterCode(name: string): (c: Option<Byte>)
    ensures c.Some? ==> c.value < 7
  {
    match name
    case "OUTDOOR_AIR_TEMPERATURE" => Some(0x00)
    case "SUPPLY_AIR_TEMPERATURE" => Some(0x01)
    case "EXHAUST_AIR_TEMPERATURE" => Some(0x02)
    case "DISCHARGE_AIR_TEMPERATURE" => Some(0x03)
    case "ROOM_TEMPERATURE" => Some(0x04)
    case "RELATIVE_HUMIDITY_IN_ROOM" => Some(0x05)
    case "REMAINING_FILTER_LIFE" => Some(0x06)
    case _ => None
  }

  /** The decoders' switch on the byte; any other byte becomes a placeholder. */
  function StatusParameterName(b: Byte): (n: string)
    ensures b >= 7 <==> n == Unknown(b)
  {
    match b
    case 0x00 => "OUTDOOR_AIR_TEMPERATURE"
    case 0x01 => "SUPPLY_AIR_TEMPERATURE"
    case 0x02 => "EXHAUST_AIR_TEMPERATURE"
    case 0x03 => "DISCHARGE_AIR_TEMPERATURE"
    case 0x04 => "ROOM_TEMPERATURE"
    case 0x05 => "RELATIVE_HUMIDITY_IN_ROOM"
    case 0x06 => "REMAINING_FILTER_LIFE"
    case _ => Unknown(b)
  }

  /** Encoding a status parameter and decoding the byte gives the name back,
      and every byte 0..6 is the code of exactly the name it decodes to. */
  lemma StatusParameterSwitchesInverse(name: string, b: Byte)
    ensures StatusParameterCode(name).Some? ==> StatusParameterName(StatusParameterCode(name).value) == name
    ensures b < 7 ==> StatusParameterCode(StatusParameterName(b)) == Some(b)
  {
  }

  /** `(size & 0x07) | ((scale << 3) & 0x18) | ((precision << 5) & 0xE0)`: the
      masks keep the low two bits of scale and the low three of the others,
      so the three parts are disjoint and `|` adds them. */
  function Properties(size: int, scale: int, precision: int): (b: Byte)
    ensures b % 8 == size % 8
    ensures (b / 8) % 4 == scale % 4
    ensures b / 32 == precision % 8
  {
    size % 8 + (scale % 4) * 8 + (precision % 8) * 32
  }

  /** getHrvStatusGet: the code of the status parameter; an unknown name throws. */
  function EncodeStatusGet(statusParameter: string): (r: Result<Frame>)
    ensures r.Ok? || r == Fail(IllegalArgument)
    ensures r.Ok? <==> StatusParameterCode(statusParameter).Some?
    ensures r.Ok? ==> |r.value| == 3 && r.value[..2] == [CommandClassKey, HrvStatusGet]
                      && StatusParameterName(r.value[2]) == statusParameter
  {
    match StatusParameterCode(statusParameter)
    case Some(code) => Ok([CommandClassKey, HrvStatusGet, code])
    case None => Fail(IllegalArgument)
  }

  /** handleHrvStatusGet: the name of byte 2, or its placeholder. */
  function DecodeStatusGet(payload: Frame): (r: Result<Record>)
    ensures r.Fail? <==> |payload| < 3
    ensures r.Fail? ==> r.error == IndexOutOfBounds
    ensures r.Ok? ==> r.value.Keys == {"STATUS_PARAMETER"}
    ensures r.Ok? ==> r.value["STATUS_PARAMETER"] == Str(StatusParameterName(payload[2]))
  {
    if |payload| < 3 then Fail(IndexOutOfBounds)
    else Ok(map["STATUS_PARAMETER" := Str(StatusParameterName(payload[2]))])
  }

  /** getHrvStatusReport: the status parameter's code, the packed size, scale
      and precision, then the value bytes verbatim. */
  function EncodeStatusReport(statusParameter: string, size: Int32, scale: Int32, precision: Int32,
                              value: seq<Byte>): (r: Result<Frame>)
    ensures r.Ok? || r == Fail(IllegalArgument)
    ensures r.Ok? <==> StatusParameterCode(statusParameter).Some?
    ensures r.Ok? ==> |r.value| == 4 + |value| && r.value[..2] == [CommandClassKey, HrvStatusReport]
                      && StatusParameterName(r.value[2]) == statusParameter
                      && r.value[3] % 8 == size % 8 && (r.value[3] / 8) % 4 == scale % 4
                      && r.value[3] / 32 == precision % 8
                      && r.value[4..] == value
  {
    match StatusParameterCode(statusParameter)
    case Some(code) => Ok([CommandClassKey, HrvStatusReport, code, Properties(size, scale, precision)] + value)
    case None => Fail(IllegalArgument)
  }

  /** handleHrvStatusReport. SIZE is bits 0-2 of byte 3, but `b & 0x18 >> 3`
      is `b & 3` and `b & 0xE0 >> 5` is `b & 7`, so SCALE and PRECISION are
      read from the size bits. VALUE is every byte from index 4. */
  function DecodeStatusReport(payload: Frame): (r: Result<Record>)
    ensures r.Fail? <==> |payload| < 4
    ensures r.Fail? ==> r.error == IndexOutOfBounds
    ensures r.Ok? ==> r.value.Keys == {"STATUS_PARAMETER", "SIZE", "SCALE", "PRECISION", "VALUE"}
    ensures r.Ok? ==> r.value["VALUE"] == Bytes(payload[4..])
    ensures r.Ok? ==> r.value["PRECISION"] == r.value["SIZE"] == Int(payload[3] % 8)
    ensures r.Ok? ==> r.value["SCALE"] == Int(payload[3] % 4)
    ensures r.Ok? ==> r.value["STATUS_PARAMETER"] == Str(StatusParameterName(payload[2]))
  {
    if |payload| < 4 then Fail(IndexOutOfBounds)
    else Ok(map["STATUS_PARAMETER" := Str(StatusParameterName(payload[2])),
                "SIZE" := Int(payload[3] % 8),
                "SCALE" := Int(payload[3] % 4),
                "PRECISION" := Int(payload[3] % 8),
                "VALUE" := Bytes(payload[4..])])
  }

  /** The seven `contains` tests that build the supported-report mask. */
  function SupportedFlags(bitMask: seq<string>): (f: seq<bool>)
    ensures |f| == 7
  {
    ["OUTDOOR_AIR_TEMPERATURE" in bitMask, "SUPPLY_AIR_TEMPERATURE" in bitMask,
     "EXHAUST_AIR_TEMPERATURE" in bitMask, "DISCHARGE_AIR_TEMPERATURE" in bitMask,
     "ROOM_TEMPERATURE" in bitMask, "RELATIVE_HUMIDITY_IN_ROOM" in bitMask,
     "REMAINING_FILTER_LIFE" in bitMask]
  }

  /** Flag i is set exactly when the list names the status parameter with
      code i. */
  lemma SupportedFlagsNamed(bitMask: seq<string>, i: nat)
    requires i < 7
    ensures SupportedFlags(bitMask)[i] <==> StatusParameterName(i) in bitMask
  {
  }

  /** Seven flags make a mask byte one summand per flag. */
  lemma FlagsOfSeven(f: seq<bool>)
    requires |f| == 7
    ensures Flags(f, 7) == (if f[0] then 0x01 else 0) + (if f[1] then 0x02 else 0) + (if f[2] then 0x04 else 0)
                           + (if f[3] then 0x08 else 0) + (if f[4] then 0x10 else 0) + (if f[5] then 0x20 else 0)
                           + (if f[6] then 0x40 else 0)
  {
    Pow2Byte();
    assert Flags(f, 1) == (if f[0] then 0x01 else 0);
    assert Flags(f, 2) == Flags(f, 1) + (if f[1] then 0x02 else 0);
    assert Flags(f, 3) == Flags(f, 2) + (if f[2] then 0x04 else 0);
    assert Flags(f, 4) == Flags(f, 3) + (if f[3] then 0x08 else 0);
    assert Flags(f, 5) == Flags(f, 4) + (if f[4] then 0x10 else 0);
    assert Flags(f, 6) == Flags(f, 5) + (if f[5] then 0x20 else 0);
    assert Flags(f, 7) == Flags(f, 6) + (if f[6] then 0x40 else 0);
  }

  /** getHrvStatusSupportedReport: one mask byte; unknown and repeated names
      change nothing. */
  function EncodeSupportedReport(bitMask: seq<string>): (r: Frame)
    ensures |r| == 3 && r[..2] == [CommandClassKey, HrvStatusSupportedReport]
    ensures r[2] < 128
  {
    Pow2Byte();
    [CommandClassKey, HrvStatusSupportedReport, Flags(SupportedFlags(bitMask), 7)]
  }

  /** handleHrvStatusSupportedReport. Its loop never advances `cntBitMask` and
      tests `b & (cntBitMask % 8)`, which is `b & 0`, so the first test always
      `continue`s: a payload longer than two bytes never returns. */
  function DecodeSupportedReport(payload: Frame): (r: Result<Record>)
    ensures r.Ok? <==> |payload| <= 2
    ensures r.Ok? ==> r.value == map["BIT_MASK" := List([])]
    ensures r.Fail? ==> r.error == NoTermination
  {
    if |payload| <= 2 then Ok(map["BIT_MASK" := List([])])
    else Fail(NoTermination)
  }

  method GetHrvStatusGet(statusParameter: string) returns (r: Result<Frame>)
    ensures r == EncodeStatusGet(statusParameter)
  {
    var outputData := new OutputStream();
    outputData.Write(CommandClassKey);
    outputData.Write(HrvStatusGet);
    var code := StatusParameterCode(statusParameter);
    if code.None? {
      return Fail(IllegalArgument);
    }
    outputData.Write(code.value);
    assert outputData.buf == [CommandClassKey, HrvStatusGet, code.value];
    return Ok(outputData.buf);
  }

  method HandleHrvStatusGet(payload: Frame) returns (r: Result<Record>)
    ensures r == DecodeStatusGet(payload)
  {
    if |payload| < 3 {
      return Fail(IndexOutOfBounds);
    }
    var response := new Response();
    response.Put("STATUS_PARAMETER", Str(StatusParameterName(payload[2])));
    return Ok(response.entries);
  }

  method GetHrvStatusReport(statusParameter: string, size: Int32, scale: Int32, precision: Int32, value: seq<Byte>)
    returns (r: Result<Frame>)
    ensures r == EncodeStatusReport(statusParameter, size, scale, precision, value)
  {
    var outputData := new OutputStream();
    outputData.Write(CommandClassKey);
    outputData.Write(HrvStatusReport);
    var code := StatusParameterCode(statusParameter);
    if code.None? {
      return Fail(IllegalArgument);
    }
    outputData.Write(code.value);
    var valProperties1 := size % 8;
    valProperties1 := valProperties1 + (scale % 4) * 8;
    valProperties1 := valProperties1 + (precision % 8) * 32;
    outputData.Write(valProperties1);
    assert outputData.buf == [CommandClassKey, HrvStatusReport, code.value, Properties(size, scale, precision)];
    outputData.WriteBytes(value);
    return Ok(outputData.buf);
  }

  method HandleHrvStatusReport(payload: Frame) returns (r: Result<Record>)
    ensures r == DecodeStatusReport(payload)
  {
    if |payload| < 4 {
      return Fail(IndexOutOfBounds);
    }
    var response := new Response();
    var msgOffset := 2;
    response.Put("STATUS_PARAMETER", Str(StatusParameterName(payload[msgOffset])));
    msgOffset := msgOffset + 1;
    response.Put("SIZE", Int(payload[msgOffset] % 8));
    response.Put("SCALE", Int(payload[msgOffset] % 4));
    response.Put("PRECISION", Int(payload[msgOffset] % 8));
    msgOffset := msgOffset + 1;
    var valValue := new OutputStream();
    while msgOffset < |payload|
      invariant 4 <= msgOffset <= |payload|
      invariant valValue.buf == payload[4..msgOffset]
      invariant response.entries == map["STATUS_PARAMETER" := Str(StatusParameterName(payload[2])),
                                        "SIZE" := Int(payload[3] % 8), "SCALE" := Int(payload[3] % 4),
                                        "PRECISION" := Int(payload[3] % 8)]
    {
      valValue.Write(payload[msgOffset]);
      msgOffset := msgOffset + 1;
    }
    assert valValue.buf == payload[4..];
    response.Put("VALUE", Bytes(valValue.buf));
    return Ok(response.entries);
  }

  method GetHrvStatusSupportedGet() returns (r: Frame)
    ensures r == [0x37, 0x03]
  {
    var outputData := new OutputStream();
    outputData.Write(CommandClassKey);
    outputData.Write(HrvStatusSupportedGet);
    return outputData.buf;
  }

  /** The handler never looks at the payload. */
  method HandleHrvStatusSupportedGet(payload: Frame) returns (r: Record)
    ensures r == map[]
  {
    var response := new Response();
    return response.entries;
  }

  method GetHrvStatusSupportedReport(bitMask: seq<string>) returns (r: Frame)
    ensures r == EncodeSupportedReport(bitMask)
  {
    var outputData := new OutputStream();
    outputData.Write(CommandClassKey);
    outputData.Write(HrvStatusSupportedReport);
    var f := SupportedFlags(bitMask);
    var valBitMask := 0;
    valBitMask := valBitMask + (if f[0] then 0x01 else 0);
    valBitMask := valBitMask + (if f[1] then 0x02 else 0);
    valBitMask := valBitMask + (if f[2] then 0x04 else 0);
    valBitMask := valBitMask + (if f[3] then 0x08 else 0);
    valBitMask := valBitMask + (if f[4] then 0x10 else 0);
    valBitMask := valBitMask + (if f[5] then 0x20 else 0);
    valBitMask := valBitMask + (if f[6] then 0x40 else 0);
    FlagsOfSeven(f);
    assert valBitMask == Flags(f, 7) < 128;
    outputData.Write(valBitMask);
    assert outputData.buf == [CommandClassKey, HrvStatusSupportedReport, valBitMask];
    return outputData.buf;
  }

  /** The handler's loop. With `cntBitMask` at 0 its mask is `b & 0`, which is
      zero, and `continue` comes back to the same test with nothing changed. */
  method HandleHrvStatusSupportedReport(payload: Frame) returns (r: Result<Record>)
    ensures r == DecodeSupportedReport(payload)
  {
    var response := new Response();
    var responseBitMask: seq<Value> := [];
    var cntBitMask := 0;
    if cntBitMask < |payload| - 2 {
      return Fail(NoTermination);
    }
    response.Put("BIT_MASK", List(responseBitMask));
    return Ok(response.entries);
  }

  /** Every known status parameter survives the get. */
  lemma StatusGetRoundTrip(statusParameter: string)
    requires EncodeStatusGet(statusParameter).Ok?
    ensures DecodeStatusGet(EncodeStatusGet(statusParameter).value)
            == Ok(map["STATUS_PARAMETER" := Str(statusParameter)])
  {
  }

  /** A byte 7 or above decodes to its placeholder, not an error. */
  lemma StatusParameterUnknownByte(payload: Frame)
    requires |payload| >= 3 && payload[2] >= 7
    ensures DecodeStatusGet(payload) == Ok(map["STATUS_PARAMETER" := Str("UNKNOWN_" + Hex2(payload[2]))])
  {
  }

  /** The report brings back the status parameter, the size and the value,
      but SCALE comes back as the low two size bits and PRECISION as the size. */
  lemma StatusReportRoundTrip(statusParameter: string, size: Int32, scale: Int32, precision: Int32,
                              value: seq<Byte>)
    requires EncodeStatusReport(statusParameter, size, scale, precision, value).Ok?
    requires 0 <= size < 8
    ensures DecodeStatusReport(EncodeStatusReport(statusParameter, size, scale, precision, value).value)
            == Ok(map["STATUS_PARAMETER" := Str(statusParameter), "SIZE" := Int(size),
                      "SCALE" := Int(size % 4), "PRECISION" := Int(size),
                      "VALUE" := Bytes(value)])
  {
    var p := EncodeStatusReport(statusParameter, size, scale, precision, value).value;
    var b := p[3];
    assert b % 8 == size;
    assert b % 4 == size % 4 by {
      assert b == (b / 8) * 8 + size;
    }
  }

  /** So scale and precision do not round-trip: a scale of 1 with size 2 comes
      back as scale 2, precision 0 with size 2 as precision 2. */
  lemma StatusReportScaleLost()
    ensures DecodeStatusReport(EncodeStatusReport("ROOM_TEMPERATURE", 2, 1, 0, [0x00, 0xC8]).value)
            == Ok(map["STATUS_PARAMETER" := Str("ROOM_TEMPERATURE"), "SIZE" := Int(2),
                      "SCALE" := Int(2), "PRECISION" := Int(2), "VALUE" := Bytes([0x00, 0xC8])])
  {
    StatusReportRoundTrip("ROOM_TEMPERATURE", 2, 1, 0, [0x00, 0xC8]);
  }

  /** Bit i of the supported mask is set exactly when the list names the
      status parameter with code i; bit 7 is never set. */
  lemma SupportedReportBits(bitMask: seq<string>, i: nat)
    requires i < 8
    ensures BitSet(EncodeSupportedReport(bitMask)[2], i) <==> i < 7 && StatusParameterName(i) in bitMask
  {
    FlagsBit(SupportedFlags(bitMask), 7, i);
    if i < 7 {
      SupportedFlagsNamed(bitMask, i);
    }
  }

  /** No supported report the encoder builds can be decoded. */
  lemma SupportedReportNoRoundTrip(bitMask: seq<string>)
    ensures DecodeSupportedReport(EncodeSupportedReport(bitMask)) == Fail(NoTermination)
  {
  }
}
