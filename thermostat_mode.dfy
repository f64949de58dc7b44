/** COMMAND_CLASS_THERMOSTAT_MODE, version 1: a 5-bit mode and the two-byte
    mask of supported modes. */
module ThermostatModeV1 {
  import opened Wire
  import opened Streams

  const CommandClassKey: Byte := 0x40
  const ThermostatModeSet: Byte := 0x01
  const ThermostatModeGet: Byte := 0x02
  const ThermostatModeReport: Byte := 0x03
  const ThermostatModeSupportedGet: Byte := 0x04
  const ThermostatModeSupportedReport: Byte := 0x05

  /** The switch of the set and report encoders. */
  function ModeCode(name: string): (c: Option<int>)
    ensures c.Some? ==> 0 <= c.value < 11
  {
    match name
    case "OFF" => Some(0)
    case "HEAT" => Some(1)
    case "COOL" => Some(2)
    case "AUTO" => Some(3)
    case "AUXILIARY_HEAT" => Some(4)
    case "RESUME" => Some(5)
    case "FAN_ONLY" => Some(6)
    case "FURNACE" => Some(7)
    case "DRY_AIR" => Some(8)
    case "MOIST_AIR" => Some(9)
    case "AUTO_CHANGEOVER" => Some(10)
    case _ => None
  }

  /** The switch of the set and report decoders. */
  function ModeName(code: int): (n: Option<string>)
    ensures n.Some? <==> 0 <= code < 11
  {
    match code
    case 0x00 => Some("OFF")
    case 0x01 => Some("HEAT")
    case 0x02 => Some("COOL")
    case 0x03 => Some("AUTO")
    case 0x04 => Some("AUXILIARY_HEAT")
    case 0x05 => Some("RESUME")
    case 0x06 => Some("FAN_ONLY")
    case 0x07 => Some("FURNACE")
    case 0x08 => Some("DRY_AIR")
    case 0x09 => Some("MOIST_AIR")
    case 0x0A => Some("AUTO_CHANGEOVER")
    case _ => None
  }

  lemma ModeSwitchesInverse(name: string, code: int)
    ensures ModeCode(name).Some? ==> ModeName(ModeCode(name).value) == Some(name)
    ensures ModeName(code).Some? ==> ModeCode(ModeName(code).value) == Some(code)
  {
  }

  /** constantBitMask.get(code), the table of the supported-report decoder. */
  function ModeBitName(code: int): (n: Option<string>)
    ensures n.Some? <==> 0 <= code < 11
  {
    match code
    case 0x00 => Some("OFF")
    case 0x01 => Some("HEAT")
    case 0x02 => Some("COOL")
    case 0x03 => Some("AUTO")
    case 0x04 => Some("AUXILIARY_EMERGENCY_HEAT")
    case 0x05 => Some("RESUME")
    case 0x06 => Some("FAN_ONLY")
    case 0x07 => Some("FURNACE")
    case 0x08 => Some("DRY_AIR")
    case 0x09 => Some("MOIST_AIR")
    case 0x0A => Some("AUTO_CHANGEOVER")
    case _ => None
  }

  /** Code 4 has one name in the set/report switches and another in the
      supported-mode table; every other code has the same name in both. */
  lemma AuxiliaryHeatNamesDiffer(code: int)
    ensures ModeName(4) == Some("AUXILIARY_HEAT") && ModeBitName(4) == Some("AUXILIARY_EMERGENCY_HEAT")
    ensures ModeCode("AUXILIARY_EMERGENCY_HEAT") == None
    ensures code != 4 ==> ModeName(code) == ModeBitName(code)
  {
  }

  /** The frame of mode set and report: the mode's code in the low five bits;
      an unknown name throws. */
  function ModeFrame(command: Byte, mode: string): (r: Result<Frame>)
    ensures r.Ok? || r == Fail(IllegalArgument)
    ensures r.Ok? <==> ModeCode(mode).Some?
    ensures r.Ok? ==> |r.value| == 3 && r.value[..2] == [CommandClassKey, command]
                      && r.value[2] < 11 && ModeName(r.value[2]) == Some(mode)
  {
    match ModeCode(mode)
    case Some(code) => Ok([CommandClassKey, command, Low8(code % 32)])
    case None => Fail(IllegalArgument)
  }

  /** What the set and report handlers return: MODE is present exactly when
      the low five bits of byte 2 are a known code. */
  function DecodeMode(payload: Frame): (r: Result<Record>)
    ensures r.Fail? <==> |payload| < 3
    ensures r.Fail? ==> r.error == IndexOutOfBounds
    ensures r.Ok? ==> r.value.Keys <= {"MODE"}
    ensures r.Ok? ==> ("MODE" in r.value <==> payload[2] % 32 < 11)
    ensures r.Ok? && "MODE" in r.value ==> r.value["MODE"] == Str(ModeName(payload[2] % 32).value)
  {
    if |payload| < 3 then Fail(IndexOutOfBounds)
    else
      match ModeName(payload[2] % 32)
      case Some(name) => Ok(map["MODE" := Str(name)])
      case None => Ok(map[])
  }

  /** The eight `contains` tests that build the first mask byte, bit 0 first. */
  function LowModeFlags(bitMask: seq<string>): (f: seq<bool>)
    ensures |f| == 8
  {
    ["OFF" in bitMask, "HEAT" in bitMask, "COOL" in bitMask, "AUTO" in bitMask,
     "AUXILIARY_EMERGENCY_HEAT" in bitMask, "RESUME" in bitMask, "FAN_ONLY" in bitMask,
     "FURNACE" in bitMask]
  }

  /** The three `contains` tests that build the second mask byte. */
  function HighModeFlags(bitMask: seq<string>): (f: seq<bool>)
    ensures |f| == 3
  {
    ["DRY_AIR" in bitMask, "MOIST_AIR" in bitMask, "AUTO_CHANGEOVER" in bitMask]
  }

  /** getThermostatModeSupportedReport: always two mask bytes; unknown names
      and repeated names change nothing. */
  function EncodeSupportedReport(bitMask: seq<string>): (r: Frame)
    ensures |r| == 4 && r[..2] == [CommandClassKey, ThermostatModeSupportedReport]
    ensures r[3] < 8
  {
    [CommandClassKey, ThermostatModeSupportedReport, Flags(LowModeFlags(bitMask), 8), Flags(HighModeFlags(bitMask), 3)]
  }

  /** handleThermostatModeSupportedReport: the table entry of every set bit of
      the bytes from index 2, in bit order; never fails. */
  function DecodeSupportedReport(payload: Frame): (r: Record)
    ensures r.Keys == {"BIT_MASK"} && r["BIT_MASK"].List?
    ensures |payload| <= 2 ==> r["BIT_MASK"] == List([])
    ensures |payload| >= 2 ==> r["BIT_MASK"] == List(MaskList(ModeBitName, payload[2..], (|payload| - 2) * 8))
  {
    if |payload| < 2 then map["BIT_MASK" := List([])]
    else map["BIT_MASK" := List(MaskList(ModeBitName, payload[2..], (|payload| - 2) * 8))]
  }

  method WriteMode(command: Byte, mode: string) returns (r: Result<Frame>)
    ensures r == ModeFrame(command, mode)
  {
    var outputData := new OutputStream();
    outputData.Write(CommandClassKey);
    outputData.Write(command);
    var valmode := ModeCode(mode);
    if valmode.None? {
      return Fail(IllegalArgument);
    }
    outputData.Write(valmode.value % 32);
    assert outputData.buf == [CommandClassKey, command, Low8(valmode.value % 32)];
    return Ok(outputData.buf);
  }

  method ReadMode(payload: Frame) returns (r: Result<Record>)
    ensures r == DecodeMode(payload)
  {
    if |payload| < 3 {
      return Fail(IndexOutOfBounds);
    }
    var response := new Response();
    var name := ModeName(payload[2] % 32);
    if name.Some? {
      response.Put("MODE", Str(name.value));
    }
    return Ok(response.entries);
  }

  method GetThermostatModeSet(mode: string) returns (r: Result<Frame>)
    ensures r == ModeFrame(ThermostatModeSet, mode)
  {
    r := WriteMode(ThermostatModeSet, mode);
  }

  method HandleThermostatModeSet(payload: Frame) returns (r: Result<Record>)
    ensures r == DecodeMode(payload)
  {
    r := ReadMode(payload);
  }

  method GetThermostatModeGet() returns (r: Frame)
    ensures r == [0x40, 0x02]
  {
    var outputData := new OutputStream();
    outputData.Write(CommandClassKey);
    outputData.Write(ThermostatModeGet);
    return outputData.buf;
  }

  method HandleThermostatModeGet(payload: Frame) returns (r: Record)
    ensures r == map[]
  {
    var response := new Response();
    return response.entries;
  }

  method GetThermostatModeReport(mode: string) returns (r: Result<Frame>)
    ensures r == ModeFrame(ThermostatModeReport, mode)
  {
    r := WriteMode(ThermostatModeReport, mode);
  }

  method HandleThermostatModeReport(payload: Frame) returns (r: Result<Record>)
    ensures r == DecodeMode(payload)
  {
    r := ReadMode(payload);
  }

  method GetThermostatModeSupportedGet() returns (r: Frame)
    ensures r == [0x40, 0x04]
  {
    var outputData := new OutputStream();
    outputData.Write(CommandClassKey);
    outputData.Write(ThermostatModeSupportedGet);
    return outputData.buf;
  }

  method HandleThermostatModeSupportedGet(payload: Frame) returns (r: Record)
    ensures r == map[]
  {
    var response := new Response();
    return response.entries;
  }

  /** Accumulates both mask bytes with one `contains` test per mode. */
  method GetThermostatModeSupportedReport(bitMask: seq<string>) returns (r: Frame)
    ensures r == EncodeSupportedReport(bitMask)
  {
    var outputData := new OutputStream();
    outputData.Write(CommandClassKey);
    outputData.Write(ThermostatModeSupportedReport);
    var valBitMask := LowModeMask(bitMask);
    outputData.Write(valBitMask);
    valBitMask := HighModeMask(bitMask);
    outputData.Write(valBitMask);
    return outputData.buf;
  }

  /** The first mask byte, built one `|=` at a time. */
  method LowModeMask(bitMask: seq<string>) returns (valBitMask: int)
    ensures valBitMask == Flags(LowModeFlags(bitMask), 8)
  {
    ghost var f := LowModeFlags(bitMask);
    valBitMask := 0;
    valBitMask := valBitMask + (if "OFF" in bitMask then 0x01 else 0);
    assert valBitMask == Flags(f, 1);
    valBitMask := valBitMask + (if "HEAT" in bitMask then 0x02 else 0);
    assert valBitMask == Flags(f, 2);
    valBitMask := valBitMask + (if "COOL" in bitMask then 0x04 else 0);
    assert valBitMask == Flags(f, 3);
    valBitMask := valBitMask + (if "AUTO" in bitMask then 0x08 else 0);
    assert valBitMask == Flags(f, 4);
    valBitMask := valBitMask + (if "AUXILIARY_EMERGENCY_HEAT" in bitMask then 0x10 else 0);
    assert valBitMask == Flags(f, 5);
    valBitMask := valBitMask + (if "RESUME" in bitMask then 0x20 else 0);
    assert valBitMask == Flags(f, 6);
    valBitMask := valBitMask + (if "FAN_ONLY" in bitMask then 0x40 else 0);
    assert valBitMask == Flags(f, 7);
    valBitMask := valBitMask + (if "FURNACE" in bitMask then 0x80 else 0);
  }

  /** The second mask byte, built one `|=` at a time. */
  method HighModeMask(bitMask: seq<string>) returns (valBitMask: int)
    ensures valBitMask == Flags(HighModeFlags(bitMask), 3)
  {
    ghost var g := HighModeFlags(bitMask);
    valBitMask := 0;
    valBitMask := valBitMask + (if "DRY_AIR" in bitMask then 0x01 else 0);
    assert valBitMask == Flags(g, 1);
    valBitMask := valBitMask + (if "MOIST_AIR" in bitMask then 0x02 else 0);
    assert valBitMask == Flags(g, 2);
    valBitMask := valBitMask + (if "AUTO_CHANGEOVER" in bitMask then 0x04 else 0);
  }

  method HandleThermostatModeSupportedReport(payload: Frame) returns (r: Record)
    ensures r == DecodeSupportedReport(payload)
  {
    var response := new Response();
    var responseBitMask := ReadBitMask(ModeBitName, payload);
    response.Put("BIT_MASK", List(responseBitMask));
    return response.entries;
  }

  /** The names the encoder tests are the table's names, code by code. */
  lemma ModeFlagsMatchTable(bitMask: seq<string>, i: nat)
    requires i < 16
    ensures i < 8 ==> (LowModeFlags(bitMask)[i] <==> ModeBitName(i).Some? && ModeBitName(i).value in bitMask)
    ensures 8 <= i < 11 ==> (HighModeFlags(bitMask)[i - 8] <==> ModeBitName(i).value in bitMask)
    ensures 11 <= i ==> ModeBitName(i).None?
  {
    match i
    case 0 => case 1 => case 2 => case 3 => case 4 => case 5 => case 6 => case 7 =>
    case 8 => case 9 => case 10 =>
    case _ =>
  }

  /** Bit i of the supported mask is set exactly when the list holds the
      table name of code i; bits 11 to 15 are never set. */
  lemma {:induction false} SupportedReportBits(bitMask: seq<string>, i: nat)
    requires i < 16
    ensures var r := EncodeSupportedReport(bitMask);
            BitSet(r[2 + i / 8], i % 8) <==> ModeBitName(i).Some? && ModeBitName(i).value in bitMask
  {
    var r := EncodeSupportedReport(bitMask);
    ModeFlagsMatchTable(bitMask, i);
    if i < 8 {
      assert r[2 + i / 8] == Flags(LowModeFlags(bitMask), 8);
      FlagsBit(LowModeFlags(bitMask), 8, i);
    } else {
      assert r[2 + i / 8] == Flags(HighModeFlags(bitMask), 3);
      FlagsBit(HighModeFlags(bitMask), 3, i - 8);
    }
  }

  /** Decoding an encoded supported report lists the known names of the
      input without repeats, in code order. */
  lemma {:induction false} SupportedReportRoundTrip(bitMask: seq<string>)
    ensures DecodeSupportedReport(EncodeSupportedReport(bitMask))
            == map["BIT_MASK" := List(NamesIn(ModeBitName, bitMask, 16))]
  {
    var r := EncodeSupportedReport(bitMask);
    forall k | 0 <= k < 16
      ensures BitSet(r[2..][k / 8], k % 8) <==> ModeBitName(k).Some? && ModeBitName(k).value in bitMask
    {
      SupportedReportBits(bitMask, k);
    }
    MaskListOfNames(ModeBitName, r[2..], bitMask, 16);
  }

  /** Every mode name survives set and report. */
  lemma ModeRoundTrip(command: Byte, mode: string)
    requires ModeFrame(command, mode).Ok?
    ensures DecodeMode(ModeFrame(command, mode).value) == Ok(map["MODE" := Str(mode)])
  {
  }

  /** 0x05 decodes as RESUME; 0x1C has low five bits 28, so MODE is absent. */
  lemma ModeDecodeExamples()
    ensures DecodeMode([0x40, 0x03, 0x05]) == Ok(map["MODE" := Str("RESUME")])
    ensures DecodeMode([0x40, 0x03, 0x1C]) == Ok(map[])
  {
  }
}
