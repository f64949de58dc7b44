/** COMMAND_CLASS_THERMOSTAT_OPERATING_STATE, version 2: the operating state,
    two bit masks of operating states that support logging, and the usage log. */
module ThermostatOperatingStateV2 {
  import opened Wire
  import opened Streams

  const CommandClassKey: Byte := 0x42
  const ThermostatOperatingStateLoggingSupportedGet: Byte := 0x01
  const ThermostatOperatingStateGet: Byte := 0x02
  const ThermostatOperatingStateReport: Byte := 0x03
  const ThermostatOperatingLoggingSupportedReport: Byte := 0x04
  const ThermostatOperatingStateLoggingGet: Byte := 0x05
  const ThermostatOperatingStateLoggingReport: Byte := 0x06

  /** The switch of the report encoder: the code of an operating-state name. */
  function OperatingStateCode(name: string): (c: Option<int>)
    ensures c.Some? ==> 0 <= c.value < 12
  {
    match name
    case "IDLE" => Some(0)
    case "HEATING" => Some(1)
    case "COOLING" => Some(2)
    case "FAN_ONLY" => Some(3)
    case "PENDING_HEAT" => Some(4)
    case "PENDING_COOL" => Some(5)
    case "VENT_ECONOMIZER" => Some(6)
    case "AUX_HEATING" => Some(7)
    case "2ND_STAGE_HEATING" => Some(8)
    case "2ND_STAGE_COOLING" => Some(9)
    case "2ND_STAGE_AUX_HEAT" => Some(10)
    case "3RD_STAGE_AUX_HEAT" => Some(11)
    case _ => None
  }

  /** The switch of the report decoder: the name of a 4-bit code. */
  function OperatingStateName(code: int): (n: Option<string>)
    ensures n.Some? <==> 0 <= code < 12
  {
    match code
    case 0x00 => Some("IDLE")
    case 0x01 => Some("HEATING")
    case 0x02 => Some("COOLING")
    case 0x03 => Some("FAN_ONLY")
    case 0x04 => Some("PENDING_HEAT")
    case 0x05 => Some("PENDING_COOL")
    case 0x06 => Some("VENT_ECONOMIZER")
    case 0x07 => Some("AUX_HEATING")
    case 0x08 => Some("2ND_STAGE_HEATING")
    case 0x09 => Some("2ND_STAGE_COOLING")
    case 0x0A => Some("2ND_STAGE_AUX_HEAT")
    case 0x0B => Some("3RD_STAGE_AUX_HEAT")
    case _ => None
  }

  /** The two switches are inverse to each other on their whole domains. */
  lemma OperatingStateSwitchesInverse(name: string, code: int)
    ensures OperatingStateCode(name).Some? ==> OperatingStateName(OperatingStateCode(name).value) == Some(name)
    ensures OperatingStateName(code).Some? ==> OperatingStateCode(OperatingStateName(code).value) == Some(code)
  {
  }

  /** constantThermostatOperatingStateLoggingGetBitMask.get(code). */
  function LoggingGetBitName(code: int): (n: Option<string>)
    ensures n.Some? <==> 0 <= code < 12
  {
    match code
    case 0x00 => Some("IDLE")
    case 0x01 => Some("HEATING")
    case 0x02 => Some("COOLING")
    case 0x03 => Some("FAN_ONLY")
    case 0x04 => Some("PENDING_HEAT")
    case 0x05 => Some("PENDING_COOL")
    case 0x06 => Some("VENT_ECONOMIZER")
    case 0x07 => Some("AUX_HEATING")
    case 0x08 => Some("2ND_STAGE_HEATING")
    case 0x09 => Some("2ND_STAGE_COOLING")
    case 0x0A => Some("2ND_STAGE_AUX_HEAT")
    case 0x0B => Some("3RD_STAGE_AUX_HEAT")
    case _ => None
  }

  /** constantThermostatOperatingLoggingSupportedReportBitMask.get(code). */
  function LoggingSupportedBitName(code: int): (n: Option<string>)
    ensures n.Some? <==> 0 <= code < 12
  {
    match code
    case 0x00 => Some("IDLE")
    case 0x01 => Some("HEATING")
    case 0x02 => Some("COOLING")
    case 0x03 => Some("FAN_ONLY")
    case 0x04 => Some("PENDING_HEAT")
    case 0x05 => Some("PENDING_COOL")
    case 0x06 => Some("VENT_ECONOMIZER")
    case 0x07 => Some("AUX_HEATING")
    case 0x08 => Some("2ND_STAGE_HEATING")
    case 0x09 => Some("2ND_STAGE_COOLING")
    case 0x0A => Some("2ND_STAGE_AUX_HEAT")
    case 0x0B => Some("3RD_STAGE_AUX_HEAT")
    case _ => None
  }

  /** The key set of both bit-mask tables, in the order a HashMap of small
      Integer keys iterates it. */
  const LoggingKeys: seq<Byte> := [0x00, 0x01, 0x02, 0x03, 0x04, 0x05, 0x06, 0x07, 0x08, 0x09, 0x0A, 0x0B]

  /** The two bit-mask tables are the same table, and each agrees with the
      report switches: code k is named n exactly when the switch maps n to k. */
  lemma LoggingTablesAgree(k: int, n: string)
    ensures LoggingGetBitName(k) == LoggingSupportedBitName(k) == OperatingStateName(k)
    ensures LoggingGetBitName(k) == Some(n) <==> OperatingStateCode(n) == Some(k)
  {
  }

  /** The value the bit-mask encoders accumulate: the sum of the table codes
      of the listed names, or None when some name is not in the table. */
  function CodeSum(names: seq<string>): (s: Option<int>)
    ensures s.None? <==> exists i :: 0 <= i < |names| && OperatingStateCode(names[i]).None?
    ensures s.Some? ==> 0 <= s.value <= 11 * |names|
  {
    if names == [] then Some(0)
    else
      var last := names[|names| - 1];
      assert forall i :: 0 <= i < |names| - 1 ==> names[..|names| - 1][i] == names[i];
      match CodeSum(names[..|names| - 1])
      case None => None
      case Some(t) =>
        match OperatingStateCode(last)
        case None => None
        case Some(c) => Some(t + c)
  }

  /** The sum over a concatenation is the sum of the sums. */
  lemma {:induction false} CodeSumAppend(a: seq<string>, b: seq<string>)
    ensures CodeSum(a + b).Some? <==> CodeSum(a).Some? && CodeSum(b).Some?
    ensures CodeSum(a + b).Some? ==> CodeSum(a + b).value == CodeSum(a).value + CodeSum(b).value
    decreases |b|
  {
    if b == [] {
      assert a + b == a;
    } else {
      var b' := b[..|b| - 1];
      assert (a + b)[..|a + b| - 1] == a + b';
      assert (a + b)[|a + b| - 1] == b[|b| - 1];
      CodeSumAppend(a, b');
    }
  }

  /** getThermostatOperatingStateLoggingGet and
      getThermostatOperatingLoggingSupportedReport: the header, then the low
      eight bits of the sum of the listed names' codes (not a bit mask); an
      unknown name throws. */
  function EncodeLoggingMask(command: Byte, bitMask: seq<string>): (r: Result<Frame>)
    ensures r.Ok? || r == Fail(IllegalArgument)
    ensures r.Fail? <==> exists i :: 0 <= i < |bitMask| && OperatingStateCode(bitMask[i]).None?
    ensures r.Ok? ==> |r.value| == 3 && r.value[..2] == [CommandClassKey, command]
    ensures r.Ok? ==> CodeSum(bitMask).Some? && r.value[2] == Low8(CodeSum(bitMask).value)
  {
    match CodeSum(bitMask)
    case None => Fail(IllegalArgument)
    case Some(s) => Ok([CommandClassKey, command, Low8(s)])
  }

  /** handleThermostatOperatingStateLoggingGet and
      handleThermostatOperatingLoggingSupportedReport: BIT_MASK lists, for
      every set bit from byte 2 on, the table's name for that bit number, or
      null past code 11. */
  function DecodeLoggingMask(table: int -> Option<string>, payload: Frame): (r: Record)
    ensures r.Keys == {"BIT_MASK"} && r["BIT_MASK"].List?
    ensures |payload| <= 2 ==> r["BIT_MASK"] == List([])
    ensures |payload| > 2 ==> |r["BIT_MASK"].items| <= (|payload| - 2) * 8
    ensures |payload| >= 2 ==> r["BIT_MASK"] == List(MaskList(table, payload[2..], (|payload| - 2) * 8))
  {
    if |payload| < 2 then map["BIT_MASK" := List([])]
    else map["BIT_MASK" := List(MaskList(table, payload[2..], (|payload| - 2) * 8))]
  }

  /** getThermostatOperatingStateReport: the state's code in the low nibble. */
  function EncodeOperatingStateReport(operatingState: string): (r: Result<Frame>)
    ensures r.Ok? || r == Fail(IllegalArgument)
    ensures r.Ok? <==> OperatingStateCode(operatingState).Some?
    ensures r.Ok? ==> |r.value| == 3 && r.value[..2] == [CommandClassKey, ThermostatOperatingStateReport]
                      && r.value[2] < 12 && OperatingStateName(r.value[2]) == Some(operatingState)
  {
    match OperatingStateCode(operatingState)
    case Some(code) => Ok([CommandClassKey, ThermostatOperatingStateReport, Low8(code % 16)])
    case None => Fail(IllegalArgument)
  }

  /** handleThermostatOperatingStateReport: OPERATING_STATE is present exactly
      when the low nibble of byte 2 is a known code. */
  function DecodeOperatingStateReport(payload: Frame): (r: Result<Record>)
    ensures r.Fail? <==> |payload| < 3
    ensures r.Fail? ==> r.error == IndexOutOfBounds
    ensures r.Ok? ==> r.value.Keys <= {"OPERATING_STATE"}
    ensures r.Ok? ==> ("OPERATING_STATE" in r.value <==> payload[2] % 16 < 12)
    ensures r.Ok? && "OPERATING_STATE" in r.value ==>
              r.value["OPERATING_STATE"] == Str(OperatingStateName(payload[2] % 16).value)
  {
    if |payload| < 3 then Fail(IndexOutOfBounds)
    else
      match OperatingStateName(payload[2] % 16)
      case Some(name) => Ok(map["OPERATING_STATE" := Str(name)])
      case None => Ok(map[])
  }

  /** getThermostatOperatingStateLoggingReport: the count of reports to follow
      and no log entries. */
  function EncodeLoggingReport(reportsToFollow: int): (r: Frame)
    ensures |r| == 3 && r[..2] == [CommandClassKey, ThermostatOperatingStateLoggingReport]
    ensures (r[2] - reportsToFollow) % 256 == 0
  {
    [CommandClassKey, ThermostatOperatingStateLoggingReport, Low8(reportsToFollow)]
  }

  /** One member of VG1. Whatever its offset, every variant is read from the
      fixed bytes 3..7; the hours bytes 4 and 6 are overwritten by the minutes
      bytes 5 and 7 under the same keys. */
  function LogVariant(payload: Frame): (v: Record)
    requires |payload| >= 8
    ensures v.Keys == {"OPERATING_STATE_LOG_TYPE", "USAGE_TODAY", "USAGE_YESTERDAY"}
    ensures v["OPERATING_STATE_LOG_TYPE"] == Int(payload[3] % 16)
    ensures v["USAGE_TODAY"] == Int(Signed(payload[5])) && v["USAGE_YESTERDAY"] == Int(Signed(payload[7]))
  {
    map["OPERATING_STATE_LOG_TYPE" := Int(payload[3] % 16),
        "USAGE_TODAY" := Int(Signed(payload[5])),
        "USAGE_YESTERDAY" := Int(Signed(payload[7]))]
  }

  /** The variant loop from `offset`, with `acc` collected so far: it stops
      once the offset reaches the end, fails when it reads past a payload
      shorter than 8 bytes, and stops with NoTermination when a length byte is
      zero (the source then appends maps until it runs out of memory). */
  function LoggingVariants(payload: Frame, offset: nat, acc: seq<Record>): (r: Result<seq<Record>>)
    ensures !r.Null?
    ensures r.Ok? && offset < |payload| ==> |acc| < |r.value| <= |acc| + (|payload| - offset)
    ensures r.Ok? && offset >= |payload| ==> r.value == acc
    ensures r.Ok? ==> |acc| <= |r.value| && r.value[..|acc|] == acc
    ensures r.Ok? && |acc| < |r.value| ==> |payload| >= 8
    ensures r.Ok? && |payload| >= 8 ==> forall i :: |acc| <= i < |r.value| ==> r.value[i] == LogVariant(payload)
    ensures r.Fail? ==> r.error == NoTermination || (r.error == IndexOutOfBounds && |payload| < 8)
    decreases |payload| - offset
  {
    if offset >= |payload| then Ok(acc)
    else if |payload| < 8 then Fail(IndexOutOfBounds)
    else if payload[offset] == 0 then Fail(NoTermination)
    else LoggingVariants(payload, offset + payload[offset], acc + [LogVariant(payload)])
  }

  /** handleThermostatOperatingStateLoggingReport: REPORTS_TO_FOLLOW is the
      signed byte 2 and VG1 the variants from offset 3 on. */
  function DecodeLoggingReport(payload: Frame): (r: Result<Record>)
    ensures |payload| < 3 ==> r == Fail(IndexOutOfBounds)
    ensures 3 < |payload| < 8 ==> r == Fail(IndexOutOfBounds)
    ensures r.Ok? ==> r.value.Keys == {"REPORTS_TO_FOLLOW", "VG1"} && r.value["VG1"].Group?
    ensures r.Ok? ==> r.value["REPORTS_TO_FOLLOW"] == Int(Signed(payload[2]))
    ensures r.Ok? && |payload| == 3 ==> r.value["VG1"] == Group([])
    ensures r.Ok? && |payload| > 3 ==> 1 <= |r.value["VG1"].records| <= |payload| - 3
    ensures r.Ok? && |payload| >= 8 ==>
              forall i :: 0 <= i < |r.value["VG1"].records| ==> r.value["VG1"].records[i] == LogVariant(payload)
  {
    if |payload| < 3 then Fail(IndexOutOfBounds)
    else
      match LoggingVariants(payload, 3, [])
      case Ok(variants) => Ok(map["REPORTS_TO_FOLLOW" := Int(Signed(payload[2])), "VG1" := Group(variants)])
      case Fail(e) => Fail(e)
  }

  method GetThermostatOperatingStateLoggingSupportedGet() returns (r: Frame)
    ensures r == [0x42, 0x01]
  {
    var outputData := new OutputStream();
    outputData.Write(CommandClassKey);
    outputData.Write(ThermostatOperatingStateLoggingSupportedGet);
    return outputData.buf;
  }

  /** The handler never looks at the payload. */
  method HandleThermostatOperatingStateLoggingSupportedGet(payload: Frame) returns (r: Record)
    ensures r == map[]
  {
    var response := new Response();
    return response.entries;
  }

  method GetThermostatOperatingStateGet() returns (r: Frame)
    ensures r == [0x42, 0x02]
  {
    var outputData := new OutputStream();
    outputData.Write(CommandClassKey);
    outputData.Write(ThermostatOperatingStateGet);
    return outputData.buf;
  }

  /** The handler never looks at the payload. */
  method HandleThermostatOperatingStateGet(payload: Frame) returns (r: Record)
    ensures r == map[]
  {
    var response := new Response();
    return response.entries;
  }

  method GetThermostatOperatingStateReport(operatingState: string) returns (r: Result<Frame>)
    ensures r == EncodeOperatingStateReport(operatingState)
  {
    var outputData := new OutputStream();
    outputData.Write(CommandClassKey);
    outputData.Write(ThermostatOperatingStateReport);
    var valOperatingState := OperatingStateCode(operatingState);
    if valOperatingState.None? {
      return Fail(IllegalArgument);
    }
    outputData.Write(valOperatingState.value % 16);
    assert outputData.buf == [CommandClassKey, ThermostatOperatingStateReport, Low8(valOperatingState.value % 16)];
    return Ok(outputData.buf);
  }

  method HandleThermostatOperatingStateReport(payload: Frame) returns (r: Result<Record>)
    ensures r == DecodeOperatingStateReport(payload)
  {
    if |payload| < 3 {
      return Fail(IndexOutOfBounds);
    }
    var response := new Response();
    var name := OperatingStateName(payload[2] % 16);
    if name.Some? {
      response.Put("OPERATING_STATE", Str(name.value));
    }
    return Ok(response.entries);
  }

  /** The inner loop of both bit-mask encoders: searches the table's key set
      for a key whose name is `value`; no key makes the caller throw. */
  method FindLoggingCode(table: int -> Option<string>, value: string) returns (found: bool, code: int)
    requires forall k :: table(k) == OperatingStateName(k)
    ensures found <==> OperatingStateCode(value).Some?
    ensures found ==> OperatingStateCode(value) == Some(code)
  {
    found := false;
    code := 0;
    var j := 0;
    while j < |LoggingKeys| && !found
      invariant 0 <= j <= |LoggingKeys|
      invariant !found ==> forall k :: 0 <= k < j ==> table(LoggingKeys[k]) != Some(value)
      invariant found ==> table(code) == Some(value)
    {
      var entry := LoggingKeys[j];
      if table(entry) == Some(value) {
        found := true;
        code := entry;
      }
      j := j + 1;
    }
    if found {
      LoggingTablesAgree(code, value);
    } else {
      forall c | 0 <= c < 12
        ensures OperatingStateCode(value) != Some(c)
      {
        LoggingTablesAgree(c, value);
        assert LoggingKeys[c] == c;
      }
    }
  }

  /** Both bit-mask encoders: for every listed name, adds the table key found
      for it; a name with no key throws. */
  method WriteLoggingMask(command: Byte, table: int -> Option<string>, bitMask: seq<string>) returns (r: Result<Frame>)
    requires forall k :: table(k) == OperatingStateName(k)
    ensures r == EncodeLoggingMask(command, bitMask)
  {
    var outputData := new OutputStream();
    outputData.Write(CommandClassKey);
    outputData.Write(command);
    var valBitMask: int := 0;
    var i := 0;
    while i < |bitMask|
      invariant 0 <= i <= |bitMask|
      invariant CodeSum(bitMask[..i]) == Some(valBitMask)
      invariant outputData.buf == [CommandClassKey, command]
    {
      var found, code := FindLoggingCode(table, bitMask[i]);
      assert bitMask[..i + 1][..i] == bitMask[..i];
      if !found {
        assert OperatingStateCode(bitMask[..i + 1][i]).None?;
        return Fail(IllegalArgument);
      }
      valBitMask := valBitMask + code;
      i := i + 1;
    }
    assert bitMask[..|bitMask|] == bitMask;
    outputData.Write(valBitMask);
    assert outputData.buf == [CommandClassKey, command, Low8(valBitMask)];
    return Ok(outputData.buf);
  }

  /** Both bit-mask tables name every code as the report decoder does. */
  lemma LoggingTablesAreOperatingStates()
    ensures forall k :: LoggingGetBitName(k) == OperatingStateName(k)
    ensures forall k :: LoggingSupportedBitName(k) == OperatingStateName(k)
  {
    forall k
      ensures LoggingGetBitName(k) == LoggingSupportedBitName(k) == OperatingStateName(k)
    {
      LoggingTablesAgree(k, "");
    }
  }

  method GetThermostatOperatingLoggingSupportedReport(bitMask: seq<string>) returns (r: Result<Frame>)
    ensures r == EncodeLoggingMask(ThermostatOperatingLoggingSupportedReport, bitMask)
  {
    LoggingTablesAreOperatingStates();
    r := WriteLoggingMask(ThermostatOperatingLoggingSupportedReport, LoggingSupportedBitName, bitMask);
  }

  method HandleThermostatOperatingLoggingSupportedReport(payload: Frame) returns (r: Record)
    ensures r == DecodeLoggingMask(LoggingSupportedBitName, payload)
  {
    var response := new Response();
    var responseBitMask := ReadBitMask(LoggingSupportedBitName, payload);
    response.Put("BIT_MASK", List(responseBitMask));
    return response.entries;
  }

  method GetThermostatOperatingStateLoggingGet(bitMask: seq<string>) returns (r: Result<Frame>)
    ensures r == EncodeLoggingMask(ThermostatOperatingStateLoggingGet, bitMask)
  {
    LoggingTablesAreOperatingStates();
    r := WriteLoggingMask(ThermostatOperatingStateLoggingGet, LoggingGetBitName, bitMask);
  }

  method HandleThermostatOperatingStateLoggingGet(payload: Frame) returns (r: Record)
    ensures r == DecodeLoggingMask(LoggingGetBitName, payload)
  {
    var response := new Response();
    var responseBitMask := ReadBitMask(LoggingGetBitName, payload);
    response.Put("BIT_MASK", List(responseBitMask));
    return response.entries;
  }

  method GetThermostatOperatingStateLoggingReport(reportsToFollow: int) returns (r: Frame)
    ensures r == EncodeLoggingReport(reportsToFollow)
  {
    var outputData := new OutputStream();
    outputData.Write(CommandClassKey);
    outputData.Write(ThermostatOperatingStateLoggingReport);
    outputData.Write(reportsToFollow);
    return outputData.buf;
  }

  /** The variant loop of the handler. Where the source keeps appending a new
      map on a zero length byte until it runs out of memory, the model stops
      with NoTermination. */
  method HandleThermostatOperatingStateLoggingReport(payload: Frame) returns (r: Result<Record>)
    ensures r == DecodeLoggingReport(payload)
  {
    if |payload| < 3 {
      return Fail(IndexOutOfBounds);
    }
    var response := new Response();
    response.Put("REPORTS_TO_FOLLOW", Int(Signed(payload[2])));
    var variantList: seq<Record> := [];
    var offset := 3;
    while offset < |payload|
      invariant LoggingVariants(payload, offset, variantList) == LoggingVariants(payload, 3, [])
      invariant response.entries == map["REPORTS_TO_FOLLOW" := Int(Signed(payload[2]))]
      decreases |payload| - offset
    {
      if |payload| < 8 {
        return Fail(IndexOutOfBounds);
      }
      var variant := new Response();
      variant.Put("OPERATING_STATE_LOG_TYPE", Int(payload[3] % 16));
      variant.Put("USAGE_TODAY", Int(Signed(payload[4])));
      variant.Put("USAGE_TODAY", Int(Signed(payload[5])));
      variant.Put("USAGE_YESTERDAY", Int(Signed(payload[6])));
      variant.Put("USAGE_YESTERDAY", Int(Signed(payload[7])));
      assert variant.entries == LogVariant(payload);
      variantList := variantList + [variant.entries];
      if payload[offset] == 0 {
        return Fail(NoTermination);
      }
      offset := offset + payload[offset];
    }
    response.Put("VG1", Group(variantList));
    return Ok(response.entries);
  }

  /** Every state the encoder accepts comes back unchanged. */
  lemma OperatingStateReportRoundTrip(operatingState: string)
    requires EncodeOperatingStateReport(operatingState).Ok?
    ensures DecodeOperatingStateReport(EncodeOperatingStateReport(operatingState).value)
            == Ok(map["OPERATING_STATE" := Str(operatingState)])
  {
  }

  /** Codes 12..15 in the low nibble leave OPERATING_STATE out of the map. */
  lemma OperatingStateUnknownCode(payload: Frame)
    requires |payload| >= 3 && 12 <= payload[2] % 16
    ensures DecodeOperatingStateReport(payload) == Ok(map[])
  {
  }

  /** The bit-mask encoders do not depend on the order of the names. */
  lemma LoggingMaskOrderInsensitive(command: Byte, a: seq<string>, b: seq<string>)
    ensures EncodeLoggingMask(command, a + b) == EncodeLoggingMask(command, b + a)
  {
    CodeSumAppend(a, b);
    CodeSumAppend(b, a);
  }

  /** IDLE has code 0, so listing it changes nothing in the frame. */
  lemma LoggingMaskIdleIgnored(command: Byte, bitMask: seq<string>)
    ensures EncodeLoggingMask(command, bitMask + ["IDLE"]) == EncodeLoggingMask(command, bitMask)
  {
    CodeSumAppend(bitMask, ["IDLE"]);
    assert CodeSum(["IDLE"]) == Some(0) by {
      assert ["IDLE"][..0] == [];
    }
  }

  /** Codes are added rather than or-ed, so a repeated name counts twice:
      HEATING twice is sent as 2, the code of COOLING. */
  lemma LoggingMaskDuplicatesAdd(command: Byte)
    ensures EncodeLoggingMask(command, ["HEATING", "HEATING"]) == Ok([0x42, command, 0x02])
    ensures EncodeLoggingMask(command, ["COOLING"]) == Ok([0x42, command, 0x02])
  {
    CodeSumAppend(["HEATING"], ["HEATING"]);
    assert ["HEATING"] + ["HEATING"] == ["HEATING", "HEATING"];
    assert CodeSum(["HEATING"]) == Some(1) by {
      assert ["HEATING"][..0] == [];
    }
    assert CodeSum(["COOLING"]) == Some(2) by {
      assert ["COOLING"][..0] == [];
    }
  }

  /** The bit-mask encoders and decoders do not round-trip: ["HEATING"] is
      sent as the value 1, which the decoder reads as bit 0, IDLE. */
  lemma LoggingMaskNoRoundTrip()
    ensures EncodeLoggingMask(ThermostatOperatingStateLoggingGet, ["HEATING"])
            == Ok([0x42, 0x05, 0x01])
    ensures DecodeLoggingMask(LoggingGetBitName, [0x42, 0x05, 0x01]) == map["BIT_MASK" := List([Str("IDLE")])]
  {
    assert ["HEATING"][..0] == [];
    var mask: seq<Byte> := [0x01];
    assert [0x42, 0x05, 0x01][2..] == mask;
    assert BitSet(0x01, 0) by { assert Pow2(0) == 1; }
    assert forall k :: 1 <= k < 8 ==> !BitSet(0x01, k) by {
      forall k | 1 <= k < 8 ensures !BitSet(0x01, k) {
        PowMonotone(1, k);
      }
    }
    assert MaskList(LoggingGetBitName, mask, 1) == [Str("IDLE")];
    MaskListTail(mask, 1, 8);
  }

  /** Bits 1..n-1 of the one-byte mask 0x01 add nothing to the list. */
  lemma {:induction false} MaskListTail(mask: seq<Byte>, m: nat, n: nat)
    requires mask == [0x01] && 1 <= m <= n <= 8
    requires forall k :: 1 <= k < 8 ==> !BitSet(0x01, k)
    ensures MaskList(LoggingGetBitName, mask, n) == MaskList(LoggingGetBitName, mask, m)
    decreases n - m
  {
    if n > m {
      MaskListTail(mask, m, n - 1);
      assert !BitSet(mask[(n - 1) / 8], (n - 1) % 8);
    }
  }

  /** A logging report built by the encoder decodes to its count and no log
      entries. */
  lemma LoggingReportRoundTrip(reportsToFollow: int)
    requires -128 <= reportsToFollow < 128
    ensures DecodeLoggingReport(EncodeLoggingReport(reportsToFollow))
            == Ok(map["REPORTS_TO_FOLLOW" := Int(reportsToFollow), "VG1" := Group([])])
  {
  }

  /** A log entry whose length byte is zero never moves the offset on. */
  lemma LoggingReportZeroLength(payload: Frame)
    requires |payload| >= 8 && payload[3] == 0
    ensures DecodeLoggingReport(payload) == Fail(NoTermination)
  {
  }

  /** In a frame whose first length byte covers the whole rest, so that there
      is a single variant, the hours bytes 4 and 6 do not reach the record. */
  lemma LoggingReportHoursIgnored(p: Frame, q: Frame)
    requires |p| == |q| >= 8 && p[3] >= |p| - 3
    requires forall i :: 0 <= i < |p| && i != 4 && i != 6 ==> p[i] == q[i]
    ensures DecodeLoggingReport(p) == DecodeLoggingReport(q)
    ensures DecodeLoggingReport(p).Ok?
  {
    assert LogVariant(p) == LogVariant(q);
    assert LoggingVariants(p, 3, []) == Ok([LogVariant(p)]);
    assert LoggingVariants(q, 3, []) == Ok([LogVariant(q)]);
  }

  /** When payload[3] is 1 the offset lands on byte 4, so the first hours
      byte does decide the outcome: two frames that differ only there, one
      whose offset never moves on and one that decodes. */
  lemma LoggingReportHoursAsLength()
    ensures DecodeLoggingReport([CommandClassKey, ThermostatOperatingStateLoggingReport, 0, 1, 0, 0, 0, 0])
            == Fail(NoTermination)
    ensures DecodeLoggingReport([CommandClassKey, ThermostatOperatingStateLoggingReport, 0, 1, 4, 0, 0, 0]).Ok?
  {
    var p: Frame := [CommandClassKey, ThermostatOperatingStateLoggingReport, 0, 1, 0, 0, 0, 0];
    var q: Frame := [CommandClassKey, ThermostatOperatingStateLoggingReport, 0, 1, 4, 0, 0, 0];
    assert LoggingVariants(p, 3, []) == LoggingVariants(p, 4, [LogVariant(p)]);
    assert q[3] == 1 && q[4] == 4 && |q| == 8;
    var v := LogVariant(q);
    assert [] + [v] == [v] && [v] + [v] == [v, v];
    assert LoggingVariants(q, 3, []) == LoggingVariants(q, 4, [LogVariant(q)]);
    assert LoggingVariants(q, 4, [LogVariant(q)]) == LoggingVariants(q, 8, [LogVariant(q), LogVariant(q)]);
  }
}
