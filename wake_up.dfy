/** COMMAND_CLASS_WAKE_UP, version 1: interval set/report carrying a node id,
    and three field-less frames. */
module WakeUpV1 {
  import opened Wire
  import opened Streams

  const CommandClassKey: Byte := 0x84
  const WakeUpIntervalSet: Byte := 0x04
  const WakeUpIntervalGet: Byte := 0x05
  const WakeUpIntervalReport: Byte := 0x06
  const WakeUpNotification: Byte := 0x07
  const WakeUpNoMoreInformation: Byte := 0x08

  /** The frame of interval set and report: `null` for a node id outside
      1..232, otherwise the header and the node id; the 'Seconds' field
      writes nothing. */
  function IntervalFrame(command: Byte, nodeid: Int32): (r: Result<Frame>)
    ensures r.Ok? || r.Null?
    ensures r.Null? <==> nodeid < 1 || nodeid > 232
    ensures r.Ok? ==> |r.value| == 3 && r.value[..2] == [CommandClassKey, command] && r.value[2] == nodeid
  {
    if nodeid < 1 || nodeid > 232 then Null
    else Ok([CommandClassKey, command, nodeid])
  }

  /** What both interval handlers return: NODEID is the signed byte at index 5. */
  function DecodeInterval(payload: Frame): (r: Result<Record>)
    ensures r.Fail? <==> |payload| < 6
    ensures r.Fail? ==> r.error == IndexOutOfBounds
    ensures r.Ok? ==> r.value.Keys == {"NODEID"} && r.value["NODEID"].Int?
                      && -128 <= r.value["NODEID"].i < 128 && Low8(r.value["NODEID"].i) == payload[5]
  {
    if |payload| < 6 then Fail(IndexOutOfBounds)
    else Ok(map["NODEID" := Int(Signed(payload[5]))])
  }

  method WriteInterval(command: Byte, nodeid: Int32) returns (r: Result<Frame>)
    ensures r == IntervalFrame(command, nodeid)
  {
    var outputData := new OutputStream();
    outputData.Write(CommandClassKey);
    outputData.Write(command);
    if nodeid < 1 || nodeid > 232 {
      return Null;
    }
    outputData.Write(nodeid);
    assert outputData.buf == [CommandClassKey, command, nodeid];
    return Ok(outputData.buf);
  }

  method ReadInterval(payload: Frame) returns (r: Result<Record>)
    ensures r == DecodeInterval(payload)
  {
    if |payload| < 6 {
      return Fail(IndexOutOfBounds);
    }
    var response := new Response();
    response.Put("NODEID", Int(Signed(payload[5])));
    return Ok(response.entries);
  }

  method GetWakeUpIntervalSet(nodeid: Int32) returns (r: Result<Frame>)
    ensures r == IntervalFrame(WakeUpIntervalSet, nodeid)
  {
    r := WriteInterval(WakeUpIntervalSet, nodeid);
  }

  method HandleWakeUpIntervalSet(payload: Frame) returns (r: Result<Record>)
    ensures r == DecodeInterval(payload)
  {
    r := ReadInterval(payload);
  }

  method GetWakeUpIntervalGet() returns (r: Frame)
    ensures r == [0x84, 0x05]
  {
    var outputData := new OutputStream();
    outputData.Write(CommandClassKey);
    outputData.Write(WakeUpIntervalGet);
    return outputData.buf;
  }

  method HandleWakeUpIntervalGet(payload: Frame) returns (r: Record)
    ensures r == map[]
  {
    var response := new Response();
    return response.entries;
  }

  method GetWakeUpIntervalReport(nodeid: Int32) returns (r: Result<Frame>)
    ensures r == IntervalFrame(WakeUpIntervalReport, nodeid)
  {
    r := WriteInterval(WakeUpIntervalReport, nodeid);
  }

  method HandleWakeUpIntervalReport(payload: Frame) returns (r: Result<Record>)
    ensures r == DecodeInterval(payload)
  {
    r := ReadInterval(payload);
  }

  method GetWakeUpNotification() returns (r: Frame)
    ensures r == [0x84, 0x07]
  {
    var outputData := new OutputStream();
    outputData.Write(CommandClassKey);
    outputData.Write(WakeUpNotification);
    return outputData.buf;
  }

  method HandleWakeUpNotification(payload: Frame) returns (r: Record)
    ensures r == map[]
  {
    var response := new Response();
    return response.entries;
  }

  method GetWakeUpNoMoreInformation() returns (r: Frame)
    ensures r == [0x84, 0x08]
  {
    var outputData := new OutputStream();
    outputData.Write(CommandClassKey);
    outputData.Write(WakeUpNoMoreInformation);
    return outputData.buf;
  }

  method HandleWakeUpNoMoreInformation(payload: Frame) returns (r: Record)
    ensures r == map[]
  {
    var response := new Response();
    return response.entries;
  }

  /** The decoders read index 5 of a frame the encoders stop at index 2, so
      no interval frame the encoders produce can be decoded. */
  lemma IntervalNoRoundTrip(command: Byte, nodeid: Int32)
    requires IntervalFrame(command, nodeid).Ok?
    ensures DecodeInterval(IntervalFrame(command, nodeid).value) == Fail(IndexOutOfBounds)
  {
  }

  /** A node id of 128..232 placed at index 5 comes back negative. */
  lemma IntervalNodeIdSigned(payload: Frame)
    requires |payload| >= 6 && 128 <= payload[5] <= 232
    ensures DecodeInterval(payload) == Ok(map["NODEID" := Int(payload[5] as int - 256)])
  {
  }
}
