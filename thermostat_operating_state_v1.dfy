/** COMMAND_CLASS_THERMOSTAT_OPERATING_STATE, version 1: a 4-bit operating state. */
module ThermostatOperatingStateV1 {
  import opened Wire
  import opened Streams

  const CommandClassKey: Byte := 0x42
  const ThermostatOperatingStateGet: Byte := 0x02
  const ThermostatOperatingStateReport: Byte := 0x03

  /** The switch of the report encoder: the code of an operating-state name. */
  function OperatingStateCode(name: string): (c: Option<int>)
    ensures c.Some? ==> 0 <= c.value < 7
  {
    match name
    case "IDLE" => Some(0)
    case "HEATING" => Some(1)
    case "COOLING" => Some(2)
    case "FAN_ONLY" => Some(3)
    case "PENDING_HEAT" => Some(4)
    case "PENDING_COOL" => Some(5)
    case "VENT_ECONOMIZER" => Some(6)
    case _ => None
  }

  /** The switch of the report decoder: the name of a 4-bit code. */
  function OperatingStateName(code: int): (n: Option<string>)
    ensures n.Some? <==> 0 <= code < 7
  {
    match code
    case 0x00 => Some("IDLE")
    case 0x01 => Some("HEATING")
    case 0x02 => Some("COOLING")
    case 0x03 => Some("FAN_ONLY")
    case 0x04 => Some("PENDING_HEAT")
    case 0x05 => Some("PENDING_COOL")
    case 0x06 => Some("VENT_ECONOMIZER")
    case _ => None
  }

  /** The two switches are inverse to each other on their whole domains. */
  lemma OperatingStateSwitchesInverse(name: string, code: int)
    ensures OperatingStateCode(name).Some? ==> OperatingStateName(OperatingStateCode(name).value) == Some(name)
    ensures OperatingStateName(code).Some? ==> OperatingStateCode(OperatingStateName(code).value) == Some(code)
  {
  }

  /** getThermostatOperatingStateReport: the header and the state's code in
      the low nibble; an unknown name throws. */
  function EncodeOperatingStateReport(operatingState: string): (r: Result<Frame>)
    ensures r.Ok? || r == Fail(IllegalArgument)
    ensures r.Ok? <==> OperatingStateCode(operatingState).Some?
    ensures r.Ok? ==> |r.value| == 3 && r.value[..2] == [CommandClassKey, ThermostatOperatingStateReport]
                      && r.value[2] < 7 && OperatingStateName(r.value[2]) == Some(operatingState)
  {
    match OperatingStateCode(operatingState)
    case Some(code) => Ok([CommandClassKey, ThermostatOperatingStateReport, Low8(code % 16)])
    case None => Fail(IllegalArgument)
  }

  /** handleThermostatOperatingStateReport: OPERATING_STATE is present exactly
      when the low nibble of byte 2 is a known code; the high nibble is ignored. */
  function DecodeOperatingStateReport(payload: Frame): (r: Result<Record>)
    ensures r.Fail? <==> |payload| < 3
    ensures r.Fail? ==> r.error == IndexOutOfBounds
    ensures r.Ok? ==> r.value.Keys <= {"OPERATING_STATE"}
    ensures r.Ok? ==> ("OPERATING_STATE" in r.value <==> payload[2] % 16 < 7)
    ensures r.Ok? && "OPERATING_STATE" in r.value ==>
              r.value["OPERATING_STATE"] == Str(OperatingStateName(payload[2] % 16).value)
  {
    if |payload| < 3 then Fail(IndexOutOfBounds)
    else
      match OperatingStateName(payload[2] % 16)
      case Some(name) => Ok(map["OPERATING_STATE" := Str(name)])
      case None => Ok(map[])
  }

  method GetThermostatOperatingStateGet() returns (r: Frame)
    ensures r == [0x42, 0x02]
  {
    var outputData := new OutputStream();
    outputData.Write(CommandClassKey);
    outputData.Write(ThermostatOperatingStateGet);
    return outputData.buf;
  }

  /** The handler never looks at the payload. */
  method HandleThermostatOperatingStateGet(payload: Frame) returns (r: Record)
    ensures r == map[]
  {
    var response := new Response();
    return response.entries;
  }

  method GetThermostatOperatingStateReport(operatingState: string) returns (r: Result<Frame>)
    ensures r == EncodeOperatingStateReport(operatingState)
  {
    var outputData := new OutputStream();
    outputData.Write(CommandClassKey);
    outputData.Write(ThermostatOperatingStateReport);
    var valOperatingState := OperatingStateCode(operatingState);
    if valOperatingState.None? {
      return Fail(IllegalArgument);
    }
    outputData.Write(valOperatingState.value % 16);
    assert outputData.buf == [CommandClassKey, ThermostatOperatingStateReport, Low8(valOperatingState.value % 16)];
    return Ok(outputData.buf);
  }

  method HandleThermostatOperatingStateReport(payload: Frame) returns (r: Result<Record>)
    ensures r == DecodeOperatingStateReport(payload)
  {
    if |payload| < 3 {
      return Fail(IndexOutOfBounds);
    }
    var response := new Response();
    var name := OperatingStateName(payload[2] % 16);
    if name.Some? {
      response.Put("OPERATING_STATE", Str(name.value));
    }
    return Ok(response.entries);
  }

  /** Every state the encoder accepts comes back unchanged. */
  lemma OperatingStateReportRoundTrip(operatingState: string)
    requires EncodeOperatingStateReport(operatingState).Ok?
    ensures DecodeOperatingStateReport(EncodeOperatingStateReport(operatingState).value)
            == Ok(map["OPERATING_STATE" := Str(operatingState)])
  {
  }

  /** Codes 7..15 in the low nibble leave OPERATING_STATE out of the map. */
  lemma OperatingStateUnknownCode(payload: Frame)
    requires |payload| >= 3 && 7 <= payload[2] % 16
    ensures DecodeOperatingStateReport(payload) == Ok(map[])
  {
  }
}
