/** COMMAND_CLASS_POWERLEVEL, version 1: power level, timeout and link tests. */
module PowerlevelV1 {
  import opened Wire
  import opened Streams

  const CommandClassKey: Byte := 0x73
  const PowerlevelSet: Byte := 0x01
  const PowerlevelGet: Byte := 0x02
  const PowerlevelReport: Byte := 0x03
  const PowerlevelTestNodeSet: Byte := 0x04
  const PowerlevelTestNodeGet: Byte := 0x05
  const PowerlevelTestNodeReport: Byte := 0x06

  /** The encoders' switch: NORMALPOWER is 0 and MINUSnDBM is n for n = 1..9. */
  function PowerLevelCode(name: string): (c: Option<Byte>)
    ensures c.Some? ==> c.value < 10
  {
    match name
    case "NORMALPOWER" => Some(0x00)
    case "MINUS1DBM" => Some(0x01)
    case "MINUS2DBM" => Some(0x02)
    case "MINUS3DBM" => Some(0x03)
    case "MINUS4DBM" => Some(0x04)
    case "MINUS5DBM" => Some(0x05)
    case "MINUS6DBM" => Some(0x06)
    case "MINUS7DBM" => Some(0x07)
    case "MINUS8DBM" => Some(0x08)
    case "MINUS9DBM" => Some(0x09)
    case _ => None
  }

  /** The decoders' switch on the byte; any other byte becomes a placeholder. */
  function PowerLevelName(b: Byte): (n: string)
    ensures b >= 10 <==> n == Unknown(b)
  {
    match b
    case 0x00 => "NORMALPOWER"
    case 0x01 => "MINUS1DBM"
    case 0x02 => "MINUS2DBM"
    case 0x03 => "MINUS3DBM"
    case 0x04 => "MINUS4DBM"
    case 0x05 => "MINUS5DBM"
    case 0x06 => "MINUS6DBM"
    case 0x07 => "MINUS7DBM"
    case 0x08 => "MINUS8DBM"
    case 0x09 => "MINUS9DBM"
    case _ => Unknown(b)
  }

  /** Encoding a power level and decoding the byte gives the name back, and
      every byte 0..9 is the code of exactly the name it decodes to. */
  lemma PowerLevelSwitchesInverse(name: string, b: Byte)
    ensures PowerLevelCode(name).Some? ==> PowerLevelName(PowerLevelCode(name).value) == name
    ensures b < 10 ==> PowerLevelCode(PowerLevelName(b)) == Some(b)
  {
  }

  /** The test node id switch of the test-node report encoder. */
  function TestNodeIdCode(name: string): (c: Option<Byte>)
    ensures c.Some? <==> name == "ZW_TEST_NOT_A_NODEID"
    ensures c.Some? ==> c.value == 0
  {
    match name
    case "ZW_TEST_NOT_A_NODEID" => Some(0x00)
    case _ => None
  }

  function TestNodeIdName(b: Byte): (n: string)
    ensures b != 0 <==> n == Unknown(b)
  {
    match b
    case 0x00 => "ZW_TEST_NOT_A_NODEID"
    case _ => Unknown(b)
  }

  /** The status-of-operation switch of the test-node report encoder. */
  function StatusCode(name: string): (c: Option<Byte>)
    ensures c.Some? ==> c.value < 3
  {
    match name
    case "ZW_TEST_FAILED" => Some(0x00)
    case "ZW_TEST_SUCCES" => Some(0x01)
    case "ZW_TEST_INPROGRESS" => Some(0x02)
    case _ => None
  }

  function StatusName(b: Byte): (n: string)
    ensures b >= 3 <==> n == Unknown(b)
  {
    match b
    case 0x00 => "ZW_TEST_FAILED"
    case 0x01 => "ZW_TEST_SUCCES"
    case 0x02 => "ZW_TEST_INPROGRESS"
    case _ => Unknown(b)
  }

  lemma StatusSwitchesInverse(name: string, b: Byte)
    ensures StatusCode(name).Some? ==> StatusName(StatusCode(name).value) == name
    ensures b < 3 ==> StatusCode(StatusName(b)) == Some(b)
  {
  }

  /** The frame of power level set and report: the header, the level's code
      and the low eight bits of the timeout; an unknown level throws. */
  function PowerlevelFrame(command: Byte, powerLevel: string, timeout: Int32): (r: Result<Frame>)
    ensures r.Ok? || r == Fail(IllegalArgument)
    ensures r.Ok? <==> PowerLevelCode(powerLevel).Some?
    ensures r.Ok? ==> |r.value| == 4 && r.value[..2] == [CommandClassKey, command]
                      && PowerLevelName(r.value[2]) == powerLevel && r.value[3] == Low8(timeout)
  {
    match PowerLevelCode(powerLevel)
    case Some(code) => Ok([CommandClassKey, command, code, Low8(timeout)])
    case None => Fail(IllegalArgument)
  }

  /** What the power level set and report handlers return. */
  function DecodePowerlevel(payload: Frame): (r: Result<Record>)
    ensures r.Fail? <==> |payload| < 4
    ensures r.Fail? ==> r.error == IndexOutOfBounds
    ensures r.Ok? ==> r.value.Keys == {"POWER_LEVEL", "TIMEOUT"}
                      && r.value["POWER_LEVEL"] == Str(PowerLevelName(payload[2]))
                      && r.value["TIMEOUT"] == Int(Signed(payload[3]))
                      && -128 <= r.value["TIMEOUT"].i < 128 && Low8(r.value["TIMEOUT"].i) == payload[3]
  {
    if |payload| < 4 then Fail(IndexOutOfBounds)
    else Ok(map["POWER_LEVEL" := Str(PowerLevelName(payload[2])), "TIMEOUT" := Int(Signed(payload[3]))])
  }

  /** getPowerlevelTestNodeSet: `null` for a test node outside 1..232, checked
      before the power level; then the node, the level and the frame count
      big-endian. */
  function EncodeTestNodeSet(testNodeid: Int32, powerLevel: string, testFrameCount: Int32): (r: Result<Frame>)
    ensures r.Null? <==> testNodeid < 1 || testNodeid > 232
    ensures r.Fail? <==> 1 <= testNodeid <= 232 && PowerLevelCode(powerLevel).None?
    ensures r.Fail? ==> r.error == IllegalArgument
    ensures r.Ok? ==> |r.value| == 6 && r.value[..2] == [CommandClassKey, PowerlevelTestNodeSet]
                      && r.value[2] == testNodeid && PowerLevelName(r.value[3]) == powerLevel
                      && Be16(r.value[4], r.value[5]) == testFrameCount % 65536
  {
    if testNodeid < 1 || testNodeid > 232 then Null
    else
      match PowerLevelCode(powerLevel)
      case Some(code) =>
        Ok([CommandClassKey, PowerlevelTestNodeSet, testNodeid, code, High8(testFrameCount), Low8(testFrameCount)])
      case None => Fail(IllegalArgument)
  }

  function DecodeTestNodeSet(payload: Frame): (r: Result<Record>)
    ensures r.Fail? <==> |payload| < 6
    ensures r.Fail? ==> r.error == IndexOutOfBounds
    ensures r.Ok? ==> r.value.Keys == {"TEST_NODEID", "POWER_LEVEL", "TEST_FRAME_COUNT"}
                      && r.value["POWER_LEVEL"] == Str(PowerLevelName(payload[3]))
                      && r.value["TEST_FRAME_COUNT"] == Int(Be16AsRead(payload[4], payload[5]))
    ensures r.Ok? ==> r.value["TEST_NODEID"] == Int(Signed(payload[2]))
  {
    if |payload| < 6 then Fail(IndexOutOfBounds)
    else Ok(map["TEST_NODEID" := Int(Signed(payload[2])),
                "POWER_LEVEL" := Str(PowerLevelName(payload[3])),
                "TEST_FRAME_COUNT" := Int(Be16AsRead(payload[4], payload[5]))])
  }

  /** getPowerlevelTestNodeReport: both names must be known, then the frame
      count follows big-endian. */
  function EncodeTestNodeReport(testNodeid: string, statusOfOperation: string, testFrameCount: Int32): (r: Result<Frame>)
    ensures r.Ok? || r == Fail(IllegalArgument)
    ensures r.Ok? <==> TestNodeIdCode(testNodeid).Some? && StatusCode(statusOfOperation).Some?
    ensures r.Ok? ==> |r.value| == 6 && r.value[..2] == [CommandClassKey, PowerlevelTestNodeReport]
                      && TestNodeIdName(r.value[2]) == testNodeid && StatusName(r.value[3]) == statusOfOperation
                      && Be16(r.value[4], r.value[5]) == testFrameCount % 65536
  {
    match (TestNodeIdCode(testNodeid), StatusCode(statusOfOperation))
    case (Some(node), Some(status)) =>
      Ok([CommandClassKey, PowerlevelTestNodeReport, node, status, High8(testFrameCount), Low8(testFrameCount)])
    case _ => Fail(IllegalArgument)
  }

  function DecodeTestNodeReport(payload: Frame): (r: Result<Record>)
    ensures r.Fail? <==> |payload| < 6
    ensures r.Fail? ==> r.error == IndexOutOfBounds
    ensures r.Ok? ==> r.value.Keys == {"TEST_NODEID", "STATUS_OF_OPERATION", "TEST_FRAME_COUNT"}
                      && r.value["TEST_NODEID"] == Str(TestNodeIdName(payload[2]))
                      && r.value["STATUS_OF_OPERATION"] == Str(StatusName(payload[3]))
                      && r.value["TEST_FRAME_COUNT"] == Int(Be16AsRead(payload[4], payload[5]))
  {
    if |payload| < 6 then Fail(IndexOutOfBounds)
    else Ok(map["TEST_NODEID" := Str(TestNodeIdName(payload[2])),
                "STATUS_OF_OPERATION" := Str(StatusName(payload[3])),
                "TEST_FRAME_COUNT" := Int(Be16AsRead(payload[4], payload[5]))])
  }

  method WritePowerlevel(command: Byte, powerLevel: string, timeout: Int32) returns (r: Result<Frame>)
    ensures r == PowerlevelFrame(command, powerLevel, timeout)
  {
    var outputData := new OutputStream();
    outputData.Write(CommandClassKey);
    outputData.Write(command);
    var code := PowerLevelCode(powerLevel);
    if code.None? {
      return Fail(IllegalArgument);
    }
    outputData.Write(code.value);
    outputData.Write(timeout);
    assert outputData.buf == [CommandClassKey, command, code.value, Low8(timeout)];
    return Ok(outputData.buf);
  }

  method ReadPowerlevel(payload: Frame) returns (r: Result<Record>)
    ensures r == DecodePowerlevel(payload)
  {
    if |payload| < 4 {
      return Fail(IndexOutOfBounds);
    }
    var response := new Response();
    response.Put("POWER_LEVEL", Str(PowerLevelName(payload[2])));
    response.Put("TIMEOUT", Int(Signed(payload[3])));
    return Ok(response.entries);
  }

  method GetPowerlevelSet(powerLevel: string, timeout: Int32) returns (r: Result<Frame>)
    ensures r == PowerlevelFrame(PowerlevelSet, powerLevel, timeout)
  {
    r := WritePowerlevel(PowerlevelSet, powerLevel, timeout);
  }

  method HandlePowerlevelSet(payload: Frame) returns (r: Result<Record>)
    ensures r == DecodePowerlevel(payload)
  {
    r := ReadPowerlevel(payload);
  }

  method GetPowerlevelGet() returns (r: Frame)
    ensures r == [0x73, 0x02]
  {
    var outputData := new OutputStream();
    outputData.Write(CommandClassKey);
    outputData.Write(PowerlevelGet);
    return outputData.buf;
  }

  method HandlePowerlevelGet(payload: Frame) returns (r: Record)
    ensures r == map[]
  {
    var response := new Response();
    return response.entries;
  }

  method GetPowerlevelReport(powerLevel: string, timeout: Int32) returns (r: Result<Frame>)
    ensures r == PowerlevelFrame(PowerlevelReport, powerLevel, timeout)
  {
    r := WritePowerlevel(PowerlevelReport, powerLevel, timeout);
  }

  method HandlePowerlevelReport(payload: Frame) returns (r: Result<Record>)
    ensures r == DecodePowerlevel(payload)
  {
    r := ReadPowerlevel(payload);
  }

  method GetPowerlevelTestNodeSet(testNodeid: Int32, powerLevel: string, testFrameCount: Int32)
    returns (r: Result<Frame>)
    ensures r == EncodeTestNodeSet(testNodeid, powerLevel, testFrameCount)
  {
    var outputData := new OutputStream();
    outputData.Write(CommandClassKey);
    outputData.Write(PowerlevelTestNodeSet);
    if testNodeid < 1 || testNodeid > 232 {
      return Null;
    }
    outputData.Write(testNodeid);
    var code := PowerLevelCode(powerLevel);
    if code.None? {
      return Fail(IllegalArgument);
    }
    outputData.Write(code.value);
    outputData.Write((testFrameCount / 256) % 256);
    outputData.Write(testFrameCount % 256);
    assert outputData.buf == [CommandClassKey, PowerlevelTestNodeSet, testNodeid, code.value,
                              High8(testFrameCount), Low8(testFrameCount)];
    return Ok(outputData.buf);
  }

  method HandlePowerlevelTestNodeSet(payload: Frame) returns (r: Result<Record>)
    ensures r == DecodeTestNodeSet(payload)
  {
    if |payload| < 6 {
      return Fail(IndexOutOfBounds);
    }
    var response := new Response();
    response.Put("TEST_NODEID", Int(Signed(payload[2])));
    response.Put("POWER_LEVEL", Str(PowerLevelName(payload[3])));
    response.Put("TEST_FRAME_COUNT", Int(ShiftLeft(Signed(payload[4]), 8 + Signed(payload[5]))));
    return Ok(response.entries);
  }

  method GetPowerlevelTestNodeGet() returns (r: Frame)
    ensures r == [0x73, 0x05]
  {
    var outputData := new OutputStream();
    outputData.Write(CommandClassKey);
    outputData.Write(PowerlevelTestNodeGet);
    return outputData.buf;
  }

  method HandlePowerlevelTestNodeGet(payload: Frame) returns (r: Record)
    ensures r == map[]
  {
    var response := new Response();
    return response.entries;
  }

  method GetPowerlevelTestNodeReport(testNodeid: string, statusOfOperation: string, testFrameCount: Int32)
    returns (r: Result<Frame>)
    ensures r == EncodeTestNodeReport(testNodeid, statusOfOperation, testFrameCount)
  {
    var outputData := new OutputStream();
    outputData.Write(CommandClassKey);
    outputData.Write(PowerlevelTestNodeReport);
    var node := TestNodeIdCode(testNodeid);
    if node.None? {
      return Fail(IllegalArgument);
    }
    outputData.Write(node.value);
    var status := StatusCode(statusOfOperation);
    if status.None? {
      return Fail(IllegalArgument);
    }
    outputData.Write(status.value);
    outputData.Write((testFrameCount / 256) % 256);
    outputData.Write(testFrameCount % 256);
    assert outputData.buf == [CommandClassKey, PowerlevelTestNodeReport, node.value, status.value,
                              High8(testFrameCount), Low8(testFrameCount)];
    return Ok(outputData.buf);
  }

  method HandlePowerlevelTestNodeReport(payload: Frame) returns (r: Result<Record>)
    ensures r == DecodeTestNodeReport(payload)
  {
    if |payload| < 6 {
      return Fail(IndexOutOfBounds);
    }
    var response := new Response();
    response.Put("TEST_NODEID", Str(TestNodeIdName(payload[2])));
    response.Put("STATUS_OF_OPERATION", Str(StatusName(payload[3])));
    response.Put("TEST_FRAME_COUNT", Int(ShiftLeft(Signed(payload[4]), 8 + Signed(payload[5]))));
    return Ok(response.entries);
  }

  /** The level always survives set and report; the timeout survives when it
      fits a signed byte, otherwise it comes back as its signed low byte. */
  lemma PowerlevelRoundTrip(command: Byte, powerLevel: string, timeout: Int32)
    requires PowerlevelFrame(command, powerLevel, timeout).Ok?
    ensures DecodePowerlevel(PowerlevelFrame(command, powerLevel, timeout).value)
            == Ok(map["POWER_LEVEL" := Str(powerLevel), "TIMEOUT" := Int(Signed(Low8(timeout)))])
    ensures -128 <= timeout < 128 ==> Signed(Low8(timeout)) == timeout
    ensures 128 <= timeout < 256 ==> Signed(Low8(timeout)) == timeout - 256
  {
  }

  /** A power-level byte outside 0..9 decodes to UNKNOWN_ and its hex value. */
  lemma PowerLevelUnknownByte(payload: Frame)
    requires |payload| >= 4 && payload[2] >= 10
    ensures DecodePowerlevel(payload).Ok?
    ensures DecodePowerlevel(payload).value["POWER_LEVEL"] == Str("UNKNOWN_" + Hex2(payload[2]))
  {
  }

  /** A frame count of 0x0102 is written as 01 02 and read back as 1 << 10. */
  lemma FrameCountExample()
    ensures High8(0x0102) == 0x01 && Low8(0x0102) == 0x02
    ensures Be16AsRead(0x01, 0x02) == 1024
  {
    assert Pow2(10) == 1024 by {
      assert Pow2(2) == 4;
      assert Pow2(4) == 16;
      assert Pow2(6) == 64;
      assert Pow2(8) == 256;
    }
    assert 1 * Pow2((8 + Signed(0x02)) % 32) == 1024;
  }

  /** Node id and level survive a test-node set; the frame count 0x0102 comes
      back as 1024. */
  lemma TestNodeSetFrameCountExample()
    ensures EncodeTestNodeSet(5, "MINUS3DBM", 0x0102) == Ok([0x73, 0x04, 5, 3, 0x01, 0x02])
    ensures DecodeTestNodeSet([0x73, 0x04, 5, 3, 0x01, 0x02])
            == Ok(map["TEST_NODEID" := Int(5), "POWER_LEVEL" := Str("MINUS3DBM"), "TEST_FRAME_COUNT" := Int(1024)])
  {
    FrameCountExample();
  }

  /** Every frame count below 256 has a zero high byte and decodes as 0, in
      the test-node set and report alike. */
  lemma {:induction false} SmallFrameCountLost(count: Int32)
    requires 0 < count < 256
    ensures Be16AsRead(High8(count), Low8(count)) == 0 != count
  {
  }

  /** What survives a test-node set: the node id (below 128) and the level. */
  lemma TestNodeSetRoundTrip(testNodeid: Int32, powerLevel: string, testFrameCount: Int32)
    requires EncodeTestNodeSet(testNodeid, powerLevel, testFrameCount).Ok? && testNodeid < 128
    ensures DecodeTestNodeSet(EncodeTestNodeSet(testNodeid, powerLevel, testFrameCount).value)
            == Ok(map["TEST_NODEID" := Int(testNodeid), "POWER_LEVEL" := Str(powerLevel),
                      "TEST_FRAME_COUNT" := Int(Be16AsRead(High8(testFrameCount), Low8(testFrameCount)))])
  {
  }

  /** Node id placeholder and status survive a test-node report. */
  lemma TestNodeReportRoundTrip(testNodeid: string, statusOfOperation: string, testFrameCount: Int32)
    requires EncodeTestNodeReport(testNodeid, statusOfOperation, testFrameCount).Ok?
    ensures DecodeTestNodeReport(EncodeTestNodeReport(testNodeid, statusOfOperation, testFrameCount).value)
            == Ok(map["TEST_NODEID" := Str(testNodeid), "STATUS_OF_OPERATION" := Str(statusOfOperation),
                      "TEST_FRAME_COUNT" := Int(Be16AsRead(High8(testFrameCount), Low8(testFrameCount)))])
  {
  }
}
