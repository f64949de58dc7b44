/** COMMAND_CLASS_MULTI_CHANNEL, version 2: instance and end-point discovery,
    capabilities, and the two encapsulations that carry another command. */
module MultiChannelV2 {
  import opened Wire
  import opened Streams

  const CommandClassKey: Byte := 0x60
  const MultiInstanceGet: Byte := 0x04
  const MultiInstanceReport: Byte := 0x05
  const MultiInstanceCmdEncap: Byte := 0x06
  const MultiChannelEndPointGet: Byte := 0x07
  const MultiChannelEndPointReport: Byte := 0x08
  const MultiChannelCapabilityGet: Byte := 0x09
  const MultiChannelCapabilityReport: Byte := 0x0A
  const MultiChannelEndPointFind: Byte := 0x0B
  const MultiChannelEndPointFindReport: Byte := 0x0C
  const MultiChannelCmdEncap: Byte := 0x0D

  /** Every value of an int[] written byte by byte: the low eight bits of each. */
  function Low8All(s: seq<int>): (r: seq<Byte>)
    ensures |r| == |s| && forall i :: 0 <= i < |s| ==> r[i] == Low8(s[i])
  {
    seq(|s|, i requires 0 <= i < |s| => Low8(s[i]))
  }

  /** Bytes read into an int[] one by one: each as a signed Java byte. */
  function SignedAll(s: seq<Byte>): (r: seq<int>)
    ensures |r| == |s| && forall i :: 0 <= i < |s| ==> r[i] == Signed(s[i])
  {
    seq(|s|, i requires 0 <= i < |s| => Signed(s[i]))
  }

  /** Bytes read with `& 0xFF` into a List<Integer>: each unsigned. */
  function UnsignedAll(s: seq<Byte>): (r: seq<int>)
    ensures |r| == |s| && forall i :: 0 <= i < |s| ==> r[i] == s[i]
  {
    seq(|s|, i requires 0 <= i < |s| => s[i] as int)
  }

  /** Values that fit a signed byte survive a write and a signed read. */
  lemma SignedLow8All(s: seq<int>)
    requires forall i :: 0 <= i < |s| ==> -128 <= s[i] < 128
    ensures SignedAll(Low8All(s)) == s
  {
  }

  /** Values that fit an unsigned byte survive a write and an unsigned read. */
  lemma UnsignedLow8All(s: seq<int>)
    requires forall i :: 0 <= i < |s| ==> 0 <= s[i] < 256
    ensures UnsignedAll(Low8All(s)) == s
  {
  }

  /** The end-point report's first properties byte:
      `(res1 & 0x3F) | (identical ? 0x40 : 0) | (dynamic ? 0x80 : 0)`. */
  function Pack6(v: int, bit6: bool, bit7: bool): (b: Byte)
    ensures b % 64 == v % 64
    ensures (b / 64) % 2 == 1 <==> bit6
    ensures b >= 128 <==> bit7
  {
    v % 64 + (if bit6 then 0x40 else 0) + (if bit7 then 0x80 else 0)
  }

  // ---- Multi instance get ----

  /** getMultiInstanceGet: the command class asked about. */
  function EncodeInstanceGet(commandClass: Int32): (r: Frame)
    ensures |r| == 3 && r[..2] == [CommandClassKey, MultiInstanceGet]
    ensures r[2] == Low8(commandClass)
  {
    [CommandClassKey, MultiInstanceGet, Low8(commandClass)]
  }

  /** handleMultiInstanceGet: COMMAND_CLASS is the signed byte 2. */
  function DecodeInstanceGet(payload: Frame): (r: Result<Record>)
    ensures r.Fail? <==> |payload| < 3
    ensures r.Fail? ==> r.error == IndexOutOfBounds
    ensures r.Ok? ==> r.value == map["COMMAND_CLASS" := Int(Signed(payload[2]))]
  {
    if |payload| < 3 then Fail(IndexOutOfBounds)
    else Ok(map["COMMAND_CLASS" := Int(Signed(payload[2]))])
  }

  // ---- Multi instance report ----

  /** getMultiInstanceReport: the command class, then the instance count in
      bits 0-6 and `res` in bit 7. */
  function EncodeInstanceReport(commandClass: Int32, instances: Int32, res: bool): (r: Frame)
    ensures |r| == 4 && r[..2] == [CommandClassKey, MultiInstanceReport]
    ensures r[2] == Low8(commandClass)
    ensures r[3] % 128 == instances % 128 && (r[3] >= 128 <==> res)
  {
    [CommandClassKey, MultiInstanceReport, Low8(commandClass), Pack7(instances, res)]
  }

  /** handleMultiInstanceReport: reads bytes 2 and 3. */
  function DecodeInstanceReport(payload: Frame): (r: Result<Record>)
    ensures r.Fail? <==> |payload| < 4
    ensures r.Fail? ==> r.error == IndexOutOfBounds
    ensures r.Ok? ==> r.value.Keys == {"COMMAND_CLASS", "INSTANCES", "RES"}
    ensures r.Ok? ==> r.value["INSTANCES"].Int? && 0 <= r.value["INSTANCES"].i < 128
    ensures r.Ok? ==> r.value["COMMAND_CLASS"] == Int(Signed(payload[2]))
                      && r.value["INSTANCES"] == Int(payload[3] % 128)
                      && r.value["RES"].Bool? && (r.value["RES"].b <==> payload[3] >= 128)
  {
    if |payload| < 4 then Fail(IndexOutOfBounds)
    else Ok(map["COMMAND_CLASS" := Int(Signed(payload[2])),
                "INSTANCES" := Int(payload[3] % 128),
                "RES" := Bool(payload[3] >= 128)])
  }

  // ---- Multi instance command encapsulation ----

  /** getMultiInstanceCmdEncap: instance and `res`, the encapsulated command
      class and command, then every parameter verbatim. */
  function EncodeInstanceCmdEncap(instance: Int32, res: bool, commandClass: Int32, command: Int32,
                                  parameter: seq<Int32>): (r: Frame)
    ensures |r| == 5 + |parameter| && r[..2] == [CommandClassKey, MultiInstanceCmdEncap]
    ensures r[2] % 128 == instance % 128 && (r[2] >= 128 <==> res)
    ensures r[3] == Low8(commandClass) && r[4] == Low8(command)
    ensures r[5..] == Low8All(parameter)
  {
    [CommandClassKey, MultiInstanceCmdEncap, Pack7(instance, res), Low8(commandClass), Low8(command)]
    + Low8All(parameter)
  }

  /** handleMultiInstanceCmdEncap: a three-byte header from byte 2, then
      PARAMETER takes every remaining byte, signed. */
  function DecodeInstanceCmdEncap(payload: Frame): (r: Result<Record>)
    ensures r.Fail? <==> |payload| < 5
    ensures r.Fail? ==> r.error == IndexOutOfBounds
    ensures r.Ok? ==> r.value.Keys == {"INSTANCE", "RES", "COMMAND_CLASS", "COMMAND", "PARAMETER"}
    ensures r.Ok? ==> r.value["PARAMETER"] == Ints(SignedAll(payload[5..]))
    ensures r.Ok? ==> r.value["INSTANCE"] == Int(payload[2] % 128)
                      && r.value["RES"].Bool? && (r.value["RES"].b <==> payload[2] >= 128)
                      && r.value["COMMAND_CLASS"] == Int(Signed(payload[3]))
                      && r.value["COMMAND"] == Int(Signed(payload[4]))
  {
    if |payload| < 5 then Fail(IndexOutOfBounds)
    else Ok(map["INSTANCE" := Int(payload[2] % 128),
                "RES" := Bool(payload[2] >= 128),
                "COMMAND_CLASS" := Int(Signed(payload[3])),
                "COMMAND" := Int(Signed(payload[4])),
                "PARAMETER" := Ints(SignedAll(payload[5..]))])
  }

  // ---- End point report ----

  /** getMultiChannelEndPointReport: res1 in bits 0-5, identical in bit 6 and
      dynamic in bit 7 of byte 2; the end-point count in bits 0-6 and res2 in
      bit 7 of byte 3. */
  function EncodeEndPointReport(res1: Int32, identical: bool, dynamic: bool, endPoints: Int32, res2: bool): (r: Frame)
    ensures |r| == 4 && r[..2] == [CommandClassKey, MultiChannelEndPointReport]
    ensures r[2] % 64 == res1 % 64 && ((r[2] / 64) % 2 == 1 <==> identical) && (r[2] >= 128 <==> dynamic)
    ensures r[3] % 128 == endPoints % 128 && (r[3] >= 128 <==> res2)
  {
    [CommandClassKey, MultiChannelEndPointReport, Pack6(res1, identical, dynamic), Pack7(endPoints, res2)]
  }

  /** handleMultiChannelEndPointReport: the same masks on bytes 2 and 3. */
  function DecodeEndPointReport(payload: Frame): (r: Result<Record>)
    ensures r.Fail? <==> |payload| < 4
    ensures r.Fail? ==> r.error == IndexOutOfBounds
    ensures r.Ok? ==> r.value.Keys == {"RES1", "IDENTICAL", "DYNAMIC", "END_POINTS", "RES2"}
    ensures r.Ok? ==> r.value["RES1"] == Int(payload[2] % 64) && r.value["END_POINTS"] == Int(payload[3] % 128)
    ensures r.Ok? ==> (r.value["IDENTICAL"] == Bool(true) <==> (payload[2] / 64) % 2 == 1)
                      && (r.value["DYNAMIC"] == Bool(true) <==> payload[2] >= 128)
                      && (r.value["RES2"] == Bool(true) <==> payload[3] >= 128)
    ensures r.Ok? ==> r.value["IDENTICAL"].Bool? && r.value["DYNAMIC"].Bool? && r.value["RES2"].Bool?
  {
    if |payload| < 4 then Fail(IndexOutOfBounds)
    else Ok(map["RES1" := Int(payload[2] % 64),
                "IDENTICAL" := Bool((payload[2] / 64) % 2 == 1),
                "DYNAMIC" := Bool(payload[2] >= 128),
                "END_POINTS" := Int(payload[3] % 128),
                "RES2" := Bool(payload[3] >= 128)])
  }

  // ---- Capability get ----

  /** getMultiChannelCapabilityGet: the end point in bits 0-6, res in bit 7. */
  function EncodeCapabilityGet(endPoint: Int32, res: bool): (r: Frame)
    ensures |r| == 3 && r[..2] == [CommandClassKey, MultiChannelCapabilityGet]
    ensures r[2] % 128 == endPoint % 128 && (r[2] >= 128 <==> res)
  {
    [CommandClassKey, MultiChannelCapabilityGet, Pack7(endPoint, res)]
  }

  /** handleMultiChannelCapabilityGet: reads byte 2. */
  function DecodeCapabilityGet(payload: Frame): (r: Result<Record>)
    ensures r.Fail? <==> |payload| < 3
    ensures r.Fail? ==> r.error == IndexOutOfBounds
    ensures r.Ok? ==> r.value.Keys == {"END_POINT", "RES"}
    ensures r.Ok? ==> r.value["END_POINT"] == Int(payload[2] % 128)
                      && r.value["RES"].Bool? && (r.value["RES"].b <==> payload[2] >= 128)
  {
    if |payload| < 3 then Fail(IndexOutOfBounds)
    else Ok(map["END_POINT" := Int(payload[2] % 128), "RES" := Bool(payload[2] >= 128)])
  }

  // ---- Capability report ----

  /** getMultiChannelCapabilityReport: end point and dynamic flag, the generic
      and specific device classes, then the command classes in list order. */
  function EncodeCapabilityReport(endPoint: Int32, dynamic: bool, genericDeviceClass: Int32,
                                  specificDeviceClass: Int32, commandClass: seq<Int32>): (r: Frame)
    ensures |r| == 5 + |commandClass| && r[..2] == [CommandClassKey, MultiChannelCapabilityReport]
    ensures r[2] % 128 == endPoint % 128 && (r[2] >= 128 <==> dynamic)
    ensures r[3] == Low8(genericDeviceClass) && r[4] == Low8(specificDeviceClass)
    ensures r[5..] == Low8All(commandClass)
  {
    [CommandClassKey, MultiChannelCapabilityReport, Pack7(endPoint, dynamic),
     Low8(genericDeviceClass), Low8(specificDeviceClass)]
    + Low8All(commandClass)
  }

  /** handleMultiChannelCapabilityReport: a three-byte header from byte 2, then
      COMMAND_CLASS collects every remaining byte, unsigned. */
  function DecodeCapabilityReport(payload: Frame): (r: Result<Record>)
    ensures r.Fail? <==> |payload| < 5
    ensures r.Fail? ==> r.error == IndexOutOfBounds
    ensures r.Ok? ==> r.value.Keys == {"END_POINT", "DYNAMIC", "GENERIC_DEVICE_CLASS", "SPECIFIC_DEVICE_CLASS", "COMMAND_CLASS"}
    ensures r.Ok? ==> r.value["COMMAND_CLASS"] == Ints(UnsignedAll(payload[5..]))
    ensures r.Ok? ==> r.value["END_POINT"] == Int(payload[2] % 128)
                      && r.value["GENERIC_DEVICE_CLASS"] == Int(Signed(payload[3]))
                      && r.value["SPECIFIC_DEVICE_CLASS"] == Int(Signed(payload[4]))
    ensures r.Ok? ==> r.value["DYNAMIC"].Bool? && (r.value["DYNAMIC"].b <==> payload[2] >= 128)
  {
    if |payload| < 5 then Fail(IndexOutOfBounds)
    else Ok(map["END_POINT" := Int(payload[2] % 128),
                "DYNAMIC" := Bool(payload[2] >= 128),
                "GENERIC_DEVICE_CLASS" := Int(Signed(payload[3])),
                "SPECIFIC_DEVICE_CLASS" := Int(Signed(payload[4])),
                "COMMAND_CLASS" := Ints(UnsignedAll(payload[5..]))])
  }

  // ---- End point find ----

  /** getMultiChannelEndPointFind: the generic and specific device classes. */
  function EncodeEndPointFind(genericDeviceClass: Int32, specificDeviceClass: Int32): (r: Frame)
    ensures |r| == 4 && r[..2] == [CommandClassKey, MultiChannelEndPointFind]
    ensures r[2] == Low8(genericDeviceClass) && r[3] == Low8(specificDeviceClass)
  {
    [CommandClassKey, MultiChannelEndPointFind, Low8(genericDeviceClass), Low8(specificDeviceClass)]
  }

  /** handleMultiChannelEndPointFind: both classes read signed. */
  function DecodeEndPointFind(payload: Frame): (r: Result<Record>)
    ensures r.Fail? <==> |payload| < 4
    ensures r.Fail? ==> r.error == IndexOutOfBounds
    ensures r.Ok? ==> r.value.Keys == {"GENERIC_DEVICE_CLASS", "SPECIFIC_DEVICE_CLASS"}
    ensures r.Ok? ==> r.value["GENERIC_DEVICE_CLASS"] == Int(Signed(payload[2]))
                      && r.value["SPECIFIC_DEVICE_CLASS"] == Int(Signed(payload[3]))
    ensures r.Ok? ==> Low8(r.value["GENERIC_DEVICE_CLASS"].i) == payload[2]
                      && Low8(r.value["SPECIFIC_DEVICE_CLASS"].i) == payload[3]
  {
    if |payload| < 4 then Fail(IndexOutOfBounds)
    else Ok(map["GENERIC_DEVICE_CLASS" := Int(Signed(payload[2])),
                "SPECIFIC_DEVICE_CLASS" := Int(Signed(payload[3]))])
  }

  // ---- End point find report ----

  /** getMultiChannelEndPointFindReport: three single bytes and no variants. */
  function EncodeEndPointFindReport(reportsToFollow: Int32, genericDeviceClass: Int32,
                                    specificDeviceClass: Int32): (r: Frame)
    ensures |r| == 5 && r[..2] == [CommandClassKey, MultiChannelEndPointFindReport]
    ensures r[2] == Low8(reportsToFollow)
    ensures r[3] == Low8(genericDeviceClass) && r[4] == Low8(specificDeviceClass)
  {
    [CommandClassKey, MultiChannelEndPointFindReport, Low8(reportsToFollow),
     Low8(genericDeviceClass), Low8(specificDeviceClass)]
  }

  /** One member of VG: every variant is read from byte 5, whatever its offset. */
  function FindVariant(payload: Frame): (v: Record)
    requires |payload| > 5
    ensures v.Keys == {"END_POINT", "RES"}
    ensures v["END_POINT"] == Int(payload[5] % 128)
    ensures v["RES"].Bool? && (v["RES"].b <==> payload[5] >= 128)
  {
    map["END_POINT" := Int(payload[5] % 128), "RES" := Bool(payload[5] >= 128)]
  }

  /** The variant loop from `offset`, with `acc` collected so far: the offset
      moves on by the unsigned byte at the offset, and never moves on when
      that byte is zero. */
  function FindVariants(payload: Frame, offset: nat, acc: seq<Record>): (r: Result<seq<Record>>)
    requires offset >= 5
    ensures !r.Null?
    ensures r.Ok? && offset < |payload| ==> |acc| < |r.value| <= |acc| + (|payload| - offset)
    ensures r.Ok? && offset >= |payload| ==> r.value == acc
    ensures r.Ok? ==> |acc| <= |r.value| && r.value[..|acc|] == acc
    ensures r.Ok? && |payload| > 5 ==> forall i :: |acc| <= i < |r.value| ==> r.value[i] == FindVariant(payload)
    ensures r.Fail? ==> r.error == NoTermination
    decreases |payload| - offset
  {
    if offset >= |payload| then Ok(acc)
    else if payload[offset] == 0 then Fail(NoTermination)
    else FindVariants(payload, offset + payload[offset], acc + [FindVariant(payload)])
  }

  /** handleMultiChannelEndPointFindReport: three signed bytes, then VG. */
  function DecodeEndPointFindReport(payload: Frame): (r: Result<Record>)
    ensures |payload| < 5 ==> r == Fail(IndexOutOfBounds)
    ensures r.Fail? ==> r.error == IndexOutOfBounds || r.error == NoTermination
    ensures |payload| >= 5 && r.Fail? ==> r.error == NoTermination
    ensures r.Ok? ==> r.value.Keys == {"REPORTS_TO_FOLLOW", "GENERIC_DEVICE_CLASS", "SPECIFIC_DEVICE_CLASS", "VG"}
    ensures r.Ok? ==> r.value["VG"].Group?
    ensures r.Ok? && |payload| == 5 ==> r.value["VG"] == Group([])
    ensures r.Ok? && |payload| > 5 ==> 1 <= |r.value["VG"].records| <= |payload| - 5
    ensures r.Ok? ==> r.value["REPORTS_TO_FOLLOW"] == Int(Signed(payload[2]))
                      && r.value["GENERIC_DEVICE_CLASS"] == Int(Signed(payload[3]))
                      && r.value["SPECIFIC_DEVICE_CLASS"] == Int(Signed(payload[4]))
    ensures r.Ok? && |payload| > 5 ==>
              forall i :: 0 <= i < |r.value["VG"].records| ==> r.value["VG"].records[i] == FindVariant(payload)
  {
    if |payload| < 5 then Fail(IndexOutOfBounds)
    else
      match FindVariants(payload, 5, [])
      case Ok(variants) =>
        Ok(map["REPORTS_TO_FOLLOW" := Int(Signed(payload[2])),
               "GENERIC_DEVICE_CLASS" := Int(Signed(payload[3])),
               "SPECIFIC_DEVICE_CLASS" := Int(Signed(payload[4])),
               "VG" := Group(variants)])
      case Fail(e) => Fail(e)
  }

  // ---- Multi channel command encapsulation ----

  /** getMultiChannelCmdEncap: source end point and res, destination end
      point and bit-address flag, the command class and command, then every
      parameter verbatim. */
  function EncodeChannelCmdEncap(sourceEndPoint: Int32, res: bool, destinationEndPoint: Int32, bitAddress: bool,
                                 commandClass: Int32, command: Int32, parameter: seq<Int32>): (r: Frame)
    ensures |r| == 6 + |parameter| && r[..2] == [CommandClassKey, MultiChannelCmdEncap]
    ensures r[2] % 128 == sourceEndPoint % 128 && (r[2] >= 128 <==> res)
    ensures r[3] % 128 == destinationEndPoint % 128 && (r[3] >= 128 <==> bitAddress)
    ensures r[4] == Low8(commandClass) && r[5] == Low8(command)
    ensures r[6..] == Low8All(parameter)
  {
    [CommandClassKey, MultiChannelCmdEncap, Pack7(sourceEndPoint, res), Pack7(destinationEndPoint, bitAddress),
     Low8(commandClass), Low8(command)]
    + Low8All(parameter)
  }

  /** handleMultiChannelCmdEncap: a four-byte header from byte 2, then
      PARAMETER takes every remaining byte, signed. */
  function DecodeChannelCmdEncap(payload: Frame): (r: Result<Record>)
    ensures r.Fail? <==> |payload| < 6
    ensures r.Fail? ==> r.error == IndexOutOfBounds
    ensures r.Ok? ==> r.value.Keys == {"SOURCE_END_POINT", "RES", "DESTINATION_END_POINT", "BIT_ADDRESS",
                                       "COMMAND_CLASS", "COMMAND", "PARAMETER"}
    ensures r.Ok? ==> r.value["PARAMETER"] == Ints(SignedAll(payload[6..]))
    ensures r.Ok? ==> r.value["SOURCE_END_POINT"] == Int(payload[2] % 128)
                      && r.value["RES"].Bool? && (r.value["RES"].b <==> payload[2] >= 128)
                      && r.value["DESTINATION_END_POINT"] == Int(payload[3] % 128)
                      && r.value["BIT_ADDRESS"].Bool? && (r.value["BIT_ADDRESS"].b <==> payload[3] >= 128)
                      && r.value["COMMAND_CLASS"] == Int(Signed(payload[4]))
                      && r.value["COMMAND"] == Int(Signed(payload[5]))
  {
    if |payload| < 6 then Fail(IndexOutOfBounds)
    else Ok(map["SOURCE_END_POINT" := Int(payload[2] % 128),
                "RES" := Bool(payload[2] >= 128),
                "DESTINATION_END_POINT" := Int(payload[3] % 128),
                "BIT_ADDRESS" := Bool(payload[3] >= 128),
                "COMMAND_CLASS" := Int(Signed(payload[4])),
                "COMMAND" := Int(Signed(payload[5])),
                "PARAMETER" := Ints(SignedAll(payload[6..]))])
  }

  // ---- The generated methods ----

  method GetMultiInstanceGet(commandClass: Int32) returns (r: Frame)
    ensures r == EncodeInstanceGet(commandClass)
  {
    var outputData := new OutputStream();
    outputData.Write(CommandClassKey);
    outputData.Write(MultiInstanceGet);
    outputData.Write(commandClass);
    return outputData.buf;
  }

  method HandleMultiInstanceGet(payload: Frame) returns (r: Result<Record>)
    ensures r == DecodeInstanceGet(payload)
  {
    if |payload| < 3 {
      return Fail(IndexOutOfBounds);
    }
    var response := new Response();
    response.Put("COMMAND_CLASS", Int(Signed(payload[2])));
    return Ok(response.entries);
  }

  method GetMultiInstanceReport(commandClass: Int32, instances: Int32, res: bool) returns (r: Frame)
    ensures r == EncodeInstanceReport(commandClass, instances, res)
  {
    var outputData := new OutputStream();
    outputData.Write(CommandClassKey);
    outputData.Write(MultiInstanceReport);
    outputData.Write(commandClass);
    var valProperties1 := instances % 128;
    valProperties1 := valProperties1 + (if res then 0x80 else 0);
    outputData.Write(valProperties1);
    return outputData.buf;
  }

  method HandleMultiInstanceReport(payload: Frame) returns (r: Result<Record>)
    ensures r == DecodeInstanceReport(payload)
  {
    if |payload| < 4 {
      return Fail(IndexOutOfBounds);
    }
    var response := new Response();
    response.Put("COMMAND_CLASS", Int(Signed(payload[2])));
    response.Put("INSTANCES", Int(payload[3] % 128));
    response.Put("RES", Bool(payload[3] >= 128));
    return Ok(response.entries);
  }

  /** Writes the parameters after the given header, one int at a time. */
  method WriteParameters(outputData: OutputStream, parameter: seq<Int32>)
    modifies outputData
    ensures outputData.buf == old(outputData.buf) + Low8All(parameter)
  {
    for cntParameter := 0 to |parameter|
      invariant outputData.buf == old(outputData.buf) + Low8All(parameter[..cntParameter])
    {
      assert Low8All(parameter[..cntParameter + 1]) == Low8All(parameter[..cntParameter]) + [Low8(parameter[cntParameter])];
      outputData.Write(parameter[cntParameter]);
    }
    assert parameter[..|parameter|] == parameter;
  }

  /** Copies the bytes from `msgOffset` to the end into a fresh int[] of
      exactly that length, each read as a signed byte. */
  method ReadParameters(payload: Frame, msgOffset: nat) returns (valParameter: seq<int>)
    requires msgOffset <= |payload|
    ensures valParameter == SignedAll(payload[msgOffset..])
  {
    var lenParameter := |payload| - msgOffset;
    var buffer := new int[lenParameter];
    for cntParameter := 0 to lenParameter
      invariant forall k :: 0 <= k < cntParameter ==> buffer[k] == Signed(payload[k + msgOffset])
    {
      buffer[cntParameter] := Signed(payload[cntParameter + msgOffset]);
    }
    return buffer[..];
  }

  method GetMultiInstanceCmdEncap(instance: Int32, res: bool, commandClass: Int32, command: Int32,
                                  parameter: seq<Int32>) returns (r: Frame)
    ensures r == EncodeInstanceCmdEncap(instance, res, commandClass, command, parameter)
  {
    var outputData := new OutputStream();
    outputData.Write(CommandClassKey);
    outputData.Write(MultiInstanceCmdEncap);
    var valProperties1 := instance % 128;
    valProperties1 := valProperties1 + (if res then 0x80 else 0);
    outputData.Write(valProperties1);
    outputData.Write(commandClass);
    outputData.Write(command);
    WriteParameters(outputData, parameter);
    return outputData.buf;
  }

  method HandleMultiInstanceCmdEncap(payload: Frame) returns (r: Result<Record>)
    ensures r == DecodeInstanceCmdEncap(payload)
  {
    if |payload| < 5 {
      return Fail(IndexOutOfBounds);
    }
    var response := new Response();
    var msgOffset := 2;
    response.Put("INSTANCE", Int(payload[msgOffset] % 128));
    response.Put("RES", Bool(payload[msgOffset] >= 128));
    msgOffset := msgOffset + 1;
    response.Put("COMMAND_CLASS", Int(Signed(payload[msgOffset])));
    msgOffset := msgOffset + 1;
    response.Put("COMMAND", Int(Signed(payload[msgOffset])));
    msgOffset := msgOffset + 1;
    var valParameter := ReadParameters(payload, msgOffset);
    response.Put("PARAMETER", Ints(valParameter));
    return Ok(response.entries);
  }

  method GetMultiChannelEndPointGet() returns (r: Frame)
    ensures r == [0x60, 0x07]
  {
    var outputData := new OutputStream();
    outputData.Write(CommandClassKey);
    outputData.Write(MultiChannelEndPointGet);
    return outputData.buf;
  }

  /** The handler never looks at the payload. */
  method HandleMultiChannelEndPointGet(payload: Frame) returns (r: Record)
    ensures r == map[]
  {
    var response := new Response();
    return response.entries;
  }

  method GetMultiChannelEndPointReport(res1: Int32, identical: bool, dynamic: bool, endPoints: Int32, res2: bool)
    returns (r: Frame)
    ensures r == EncodeEndPointReport(res1, identical, dynamic, endPoints, res2)
  {
    var outputData := new OutputStream();
    outputData.Write(CommandClassKey);
    outputData.Write(MultiChannelEndPointReport);
    var valProperties1 := res1 % 64;
    valProperties1 := valProperties1 + (if identical then 0x40 else 0);
    valProperties1 := valProperties1 + (if dynamic then 0x80 else 0);
    outputData.Write(valProperties1);
    var valProperties2 := endPoints % 128;
    valProperties2 := valProperties2 + (if res2 then 0x80 else 0);
    outputData.Write(valProperties2);
    return outputData.buf;
  }

  method HandleMultiChannelEndPointReport(payload: Frame) returns (r: Result<Record>)
    ensures r == DecodeEndPointReport(payload)
  {
    if |payload| < 4 {
      return Fail(IndexOutOfBounds);
    }
    var response := new Response();
    response.Put("RES1", Int(payload[2] % 64));
    response.Put("IDENTICAL", Bool((payload[2] / 64) % 2 == 1));
    response.Put("DYNAMIC", Bool(payload[2] >= 128));
    response.Put("END_POINTS", Int(payload[3] % 128));
    response.Put("RES2", Bool(payload[3] >= 128));
    return Ok(response.entries);
  }

  method GetMultiChannelCapabilityGet(endPoint: Int32, res: bool) returns (r: Frame)
    ensures r == EncodeCapabilityGet(endPoint, res)
  {
    var outputData := new OutputStream();
    outputData.Write(CommandClassKey);
    outputData.Write(MultiChannelCapabilityGet);
    var valProperties1 := endPoint % 128;
    valProperties1 := valProperties1 + (if res then 0x80 else 0);
    outputData.Write(valProperties1);
    return outputData.buf;
  }

  method HandleMultiChannelCapabilityGet(payload: Frame) returns (r: Result<Record>)
    ensures r == DecodeCapabilityGet(payload)
  {
    if |payload| < 3 {
      return Fail(IndexOutOfBounds);
    }
    var response := new Response();
    response.Put("END_POINT", Int(payload[2] % 128));
    response.Put("RES", Bool(payload[2] >= 128));
    return Ok(response.entries);
  }

  method GetMultiChannelCapabilityReport(endPoint: Int32, dynamic: bool, genericDeviceClass: Int32,
                                         specificDeviceClass: Int32, commandClass: seq<Int32>) returns (r: Frame)
    ensures r == EncodeCapabilityReport(endPoint, dynamic, genericDeviceClass, specificDeviceClass, commandClass)
  {
    var outputData := new OutputStream();
    outputData.Write(CommandClassKey);
    outputData.Write(MultiChannelCapabilityReport);
    var valProperties1 := endPoint % 128;
    valProperties1 := valProperties1 + (if dynamic then 0x80 else 0);
    outputData.Write(valProperties1);
    outputData.Write(genericDeviceClass);
    outputData.Write(specificDeviceClass);
    WriteParameters(outputData, commandClass);
    return outputData.buf;
  }

  method HandleMultiChannelCapabilityReport(payload: Frame) returns (r: Result<Record>)
    ensures r == DecodeCapabilityReport(payload)
  {
    if |payload| < 5 {
      return Fail(IndexOutOfBounds);
    }
    var response := new Response();
    var msgOffset := 2;
    response.Put("END_POINT", Int(payload[msgOffset] % 128));
    response.Put("DYNAMIC", Bool(payload[msgOffset] >= 128));
    msgOffset := msgOffset + 1;
    response.Put("GENERIC_DEVICE_CLASS", Int(Signed(payload[msgOffset])));
    msgOffset := msgOffset + 1;
    response.Put("SPECIFIC_DEVICE_CLASS", Int(Signed(payload[msgOffset])));
    msgOffset := msgOffset + 1;
    var valCommandClass: seq<int> := [];
    while msgOffset < |payload|
      invariant 5 <= msgOffset <= |payload|
      invariant valCommandClass == UnsignedAll(payload[5..msgOffset])
      invariant response.entries == map["END_POINT" := Int(payload[2] % 128), "DYNAMIC" := Bool(payload[2] >= 128),
                                        "GENERIC_DEVICE_CLASS" := Int(Signed(payload[3])),
                                        "SPECIFIC_DEVICE_CLASS" := Int(Signed(payload[4]))]
    {
      valCommandClass := valCommandClass + [payload[msgOffset] as int];
      msgOffset := msgOffset + 1;
    }
    assert payload[5..msgOffset] == payload[5..];
    response.Put("COMMAND_CLASS", Ints(valCommandClass));
    return Ok(response.entries);
  }

  method GetMultiChannelEndPointFind(genericDeviceClass: Int32, specificDeviceClass: Int32) returns (r: Frame)
    ensures r == EncodeEndPointFind(genericDeviceClass, specificDeviceClass)
  {
    var outputData := new OutputStream();
    outputData.Write(CommandClassKey);
    outputData.Write(MultiChannelEndPointFind);
    outputData.Write(genericDeviceClass);
    outputData.Write(specificDeviceClass);
    return outputData.buf;
  }

  method HandleMultiChannelEndPointFind(payload: Frame) returns (r: Result<Record>)
    ensures r == DecodeEndPointFind(payload)
  {
    if |payload| < 4 {
      return Fail(IndexOutOfBounds);
    }
    var response := new Response();
    response.Put("GENERIC_DEVICE_CLASS", Int(Signed(payload[2])));
    response.Put("SPECIFIC_DEVICE_CLASS", Int(Signed(payload[3])));
    return Ok(response.entries);
  }

  method GetMultiChannelEndPointFindReport(reportsToFollow: Int32, genericDeviceClass: Int32,
                                           specificDeviceClass: Int32) returns (r: Frame)
    ensures r == EncodeEndPointFindReport(reportsToFollow, genericDeviceClass, specificDeviceClass)
  {
    var outputData := new OutputStream();
    outputData.Write(CommandClassKey);
    outputData.Write(MultiChannelEndPointFindReport);
    outputData.Write(reportsToFollow);
    outputData.Write(genericDeviceClass);
    outputData.Write(specificDeviceClass);
    return outputData.buf;
  }

  /** The variant loop of the handler. Where the source keeps appending a new
      map on a zero length byte until it runs out of memory, the model stops
      with NoTermination. */
  method HandleMultiChannelEndPointFindReport(payload: Frame) returns (r: Result<Record>)
    ensures r == DecodeEndPointFindReport(payload)
  {
    if |payload| < 5 {
      return Fail(IndexOutOfBounds);
    }
    var response := new Response();
    response.Put("REPORTS_TO_FOLLOW", Int(Signed(payload[2])));
    response.Put("GENERIC_DEVICE_CLASS", Int(Signed(payload[3])));
    response.Put("SPECIFIC_DEVICE_CLASS", Int(Signed(payload[4])));
    var variantList: seq<Record> := [];
    var offset := 5;
    while offset < |payload|
      invariant offset >= 5
      invariant FindVariants(payload, offset, variantList) == FindVariants(payload, 5, [])
      invariant response.entries == map["REPORTS_TO_FOLLOW" := Int(Signed(payload[2])),
                                        "GENERIC_DEVICE_CLASS" := Int(Signed(payload[3])),
                                        "SPECIFIC_DEVICE_CLASS" := Int(Signed(payload[4]))]
      decreases |payload| - offset
    {
      var variant := new Response();
      variant.Put("END_POINT", Int(payload[5] % 128));
      variant.Put("RES", Bool(payload[5] >= 128));
      variantList := variantList + [variant.entries];
      if payload[offset] == 0 {
        return Fail(NoTermination);
      }
      offset := offset + payload[offset];
    }
    response.Put("VG", Group(variantList));
    return Ok(response.entries);
  }

  method GetMultiChannelCmdEncap(sourceEndPoint: Int32, res: bool, destinationEndPoint: Int32, bitAddress: bool,
                                 commandClass: Int32, command: Int32, parameter: seq<Int32>) returns (r: Frame)
    ensures r == EncodeChannelCmdEncap(sourceEndPoint, res, destinationEndPoint, bitAddress, commandClass, command, parameter)
  {
    var outputData := new OutputStream();
    outputData.Write(CommandClassKey);
    outputData.Write(MultiChannelCmdEncap);
    var valProperties1 := sourceEndPoint % 128;
    valProperties1 := valProperties1 + (if res then 0x80 else 0);
    outputData.Write(valProperties1);
    var valProperties2 := destinationEndPoint % 128;
    valProperties2 := valProperties2 + (if bitAddress then 0x80 else 0);
    outputData.Write(valProperties2);
    outputData.Write(commandClass);
    outputData.Write(command);
    assert outputData.buf == [CommandClassKey, MultiChannelCmdEncap, Pack7(sourceEndPoint, res),
                              Pack7(destinationEndPoint, bitAddress), Low8(commandClass), Low8(command)];
    WriteParameters(outputData, parameter);
    return outputData.buf;
  }

  method HandleMultiChannelCmdEncap(payload: Frame) returns (r: Result<Record>)
    ensures r == DecodeChannelCmdEncap(payload)
  {
    if |payload| < 6 {
      return Fail(IndexOutOfBounds);
    }
    var response := new Response();
    var msgOffset := 2;
    response.Put("SOURCE_END_POINT", Int(payload[msgOffset] % 128));
    response.Put("RES", Bool(payload[msgOffset] >= 128));
    msgOffset := msgOffset + 1;
    response.Put("DESTINATION_END_POINT", Int(payload[msgOffset] % 128));
    response.Put("BIT_ADDRESS", Bool(payload[msgOffset] >= 128));
    msgOffset := msgOffset + 1;
    response.Put("COMMAND_CLASS", Int(Signed(payload[msgOffset])));
    msgOffset := msgOffset + 1;
    response.Put("COMMAND", Int(Signed(payload[msgOffset])));
    msgOffset := msgOffset + 1;
    var valParameter := ReadParameters(payload, msgOffset);
    response.Put("PARAMETER", Ints(valParameter));
    return Ok(response.entries);
  }

  // ---- Round trips and their limits ----

  /** A command class in the signed byte range survives the instance get; one
      from 128 to 255 comes back 256 lower. */
  lemma InstanceGetRoundTrip(commandClass: Int32)
    requires -128 <= commandClass < 256
    ensures -128 <= commandClass < 128 ==>
              DecodeInstanceGet(EncodeInstanceGet(commandClass)) == Ok(map["COMMAND_CLASS" := Int(commandClass)])
    ensures 128 <= commandClass ==>
              DecodeInstanceGet(EncodeInstanceGet(commandClass)) == Ok(map["COMMAND_CLASS" := Int(commandClass - 256)])
  {
  }

  /** The instance report survives for an instance count below 128. */
  lemma InstanceReportRoundTrip(commandClass: Int32, instances: Int32, res: bool)
    requires -128 <= commandClass < 128 && 0 <= instances < 128
    ensures DecodeInstanceReport(EncodeInstanceReport(commandClass, instances, res))
            == Ok(map["COMMAND_CLASS" := Int(commandClass), "INSTANCES" := Int(instances), "RES" := Bool(res)])
  {
  }

  /** The instance encapsulation survives with its parameters, in order, when
      every value fits a signed byte. */
  lemma InstanceCmdEncapRoundTrip(instance: Int32, res: bool, commandClass: Int32, command: Int32,
                                  parameter: seq<Int32>)
    requires 0 <= instance < 128 && -128 <= commandClass < 128 && -128 <= command < 128
    requires forall i :: 0 <= i < |parameter| ==> -128 <= parameter[i] < 128
    ensures DecodeInstanceCmdEncap(EncodeInstanceCmdEncap(instance, res, commandClass, command, parameter))
            == Ok(map["INSTANCE" := Int(instance), "RES" := Bool(res), "COMMAND_CLASS" := Int(commandClass),
                      "COMMAND" := Int(command), "PARAMETER" := Ints(parameter)])
  {
    var r := EncodeInstanceCmdEncap(instance, res, commandClass, command, parameter);
    SignedLow8All(parameter);
    assert r[5..] == Low8All(parameter);
  }

  /** A parameter of 200 comes back as -56. */
  lemma InstanceCmdEncapParameterSigned()
    ensures DecodeInstanceCmdEncap(EncodeInstanceCmdEncap(1, false, 0x25, 0x01, [200])).value["PARAMETER"]
            == Ints([-56])
  {
    var r := EncodeInstanceCmdEncap(1, false, 0x25, 0x01, [200]);
    assert r[5..] == [200];
  }

  /** The end-point report survives for res1 below 64 and a count below 128. */
  lemma EndPointReportRoundTrip(res1: Int32, identical: bool, dynamic: bool, endPoints: Int32, res2: bool)
    requires 0 <= res1 < 64 && 0 <= endPoints < 128
    ensures DecodeEndPointReport(EncodeEndPointReport(res1, identical, dynamic, endPoints, res2))
            == Ok(map["RES1" := Int(res1), "IDENTICAL" := Bool(identical), "DYNAMIC" := Bool(dynamic),
                      "END_POINTS" := Int(endPoints), "RES2" := Bool(res2)])
  {
  }

  /** The capability get survives for an end point below 128. */
  lemma CapabilityGetRoundTrip(endPoint: Int32, res: bool)
    requires 0 <= endPoint < 128
    ensures DecodeCapabilityGet(EncodeCapabilityGet(endPoint, res))
            == Ok(map["END_POINT" := Int(endPoint), "RES" := Bool(res)])
  {
  }

  /** The capability report survives with its command-class list, in order,
      for list values from 0 to 255 (the list is read unsigned). */
  lemma CapabilityReportRoundTrip(endPoint: Int32, dynamic: bool, genericDeviceClass: Int32,
                                  specificDeviceClass: Int32, commandClass: seq<Int32>)
    requires 0 <= endPoint < 128 && -128 <= genericDeviceClass < 128 && -128 <= specificDeviceClass < 128
    requires forall i :: 0 <= i < |commandClass| ==> 0 <= commandClass[i] < 256
    ensures DecodeCapabilityReport(EncodeCapabilityReport(endPoint, dynamic, genericDeviceClass,
                                                          specificDeviceClass, commandClass))
            == Ok(map["END_POINT" := Int(endPoint), "DYNAMIC" := Bool(dynamic),
                      "GENERIC_DEVICE_CLASS" := Int(genericDeviceClass),
                      "SPECIFIC_DEVICE_CLASS" := Int(specificDeviceClass),
                      "COMMAND_CLASS" := Ints(commandClass)])
  {
    var r := EncodeCapabilityReport(endPoint, dynamic, genericDeviceClass, specificDeviceClass, commandClass);
    UnsignedLow8All(commandClass);
    assert r[5..] == Low8All(commandClass);
  }

  /** The end-point find survives for classes in the signed byte range. */
  lemma EndPointFindRoundTrip(genericDeviceClass: Int32, specificDeviceClass: Int32)
    requires -128 <= genericDeviceClass < 128 && -128 <= specificDeviceClass < 128
    ensures DecodeEndPointFind(EncodeEndPointFind(genericDeviceClass, specificDeviceClass))
            == Ok(map["GENERIC_DEVICE_CLASS" := Int(genericDeviceClass),
                      "SPECIFIC_DEVICE_CLASS" := Int(specificDeviceClass)])
  {
  }

  /** The encoder's own find report has no variant bytes, so it decodes to an
      empty VG. */
  lemma EndPointFindReportRoundTrip(reportsToFollow: Int32, genericDeviceClass: Int32, specificDeviceClass: Int32)
    requires -128 <= reportsToFollow < 128 && -128 <= genericDeviceClass < 128 && -128 <= specificDeviceClass < 128
    ensures DecodeEndPointFindReport(EncodeEndPointFindReport(reportsToFollow, genericDeviceClass, specificDeviceClass))
            == Ok(map["REPORTS_TO_FOLLOW" := Int(reportsToFollow),
                      "GENERIC_DEVICE_CLASS" := Int(genericDeviceClass),
                      "SPECIFIC_DEVICE_CLASS" := Int(specificDeviceClass),
                      "VG" := Group([])])
  {
  }

  /** A zero at byte 5 never moves the offset on. */
  lemma EndPointFindReportZeroLength(payload: Frame)
    requires |payload| > 5 && payload[5] == 0
    ensures DecodeEndPointFindReport(payload) == Fail(NoTermination)
  {
  }

  /** Two variants at offsets 5 and 7 both repeat byte 5: the end point at
      byte 7 is never read. */
  lemma EndPointFindReportFixedIndex()
    ensures DecodeEndPointFindReport([0x60, 0x0C, 0x00, 0x01, 0x02, 0x02, 0x00, 0x03]).Ok?
    ensures DecodeEndPointFindReport([0x60, 0x0C, 0x00, 0x01, 0x02, 0x02, 0x00, 0x03]).value["VG"]
            == Group([map["END_POINT" := Int(2), "RES" := Bool(false)],
                      map["END_POINT" := Int(2), "RES" := Bool(false)]])
  {
    var p: Frame := [0x60, 0x0C, 0x00, 0x01, 0x02, 0x02, 0x00, 0x03];
    var v := FindVariant(p);
    assert [v] + [v] == [v, v] && [] + [v] == [v];
    assert FindVariants(p, 10, [v, v]) == Ok([v, v]);
    assert FindVariants(p, 7, [v]) == Ok([v, v]);
    assert FindVariants(p, 5, []) == Ok([v, v]);
  }

  /** The channel encapsulation survives with its parameters, in order, when
      every value fits a signed byte. */
  lemma ChannelCmdEncapRoundTrip(sourceEndPoint: Int32, res: bool, destinationEndPoint: Int32, bitAddress: bool,
                                 commandClass: Int32, command: Int32, parameter: seq<Int32>)
    requires 0 <= sourceEndPoint < 128 && 0 <= destinationEndPoint < 128
    requires -128 <= commandClass < 128 && -128 <= command < 128
    requires forall i :: 0 <= i < |parameter| ==> -128 <= parameter[i] < 128
    ensures DecodeChannelCmdEncap(EncodeChannelCmdEncap(sourceEndPoint, res, destinationEndPoint, bitAddress,
                                                        commandClass, command, parameter))
            == Ok(map["SOURCE_END_POINT" := Int(sourceEndPoint), "RES" := Bool(res),
                      "DESTINATION_END_POINT" := Int(destinationEndPoint), "BIT_ADDRESS" := Bool(bitAddress),
                      "COMMAND_CLASS" := Int(commandClass), "COMMAND" := Int(command),
                      "PARAMETER" := Ints(parameter)])
  {
    var r := EncodeChannelCmdEncap(sourceEndPoint, res, destinationEndPoint, bitAddress, commandClass, command, parameter);
    SignedLow8All(parameter);
    assert r[6..] == Low8All(parameter);
  }
}
