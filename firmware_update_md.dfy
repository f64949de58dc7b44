/** COMMAND_CLASS_FIRMWARE_UPDATE_MD, version 1: firmware meta data, update
    requests and the transfer of firmware fragments. */
module FirmwareUpdateMdV1 {
  import opened Wire
  import opened Streams

  const CommandClassKey: Byte := 0x7A
  const FirmwareMdGet: Byte := 0x01
  const FirmwareMdReport: Byte := 0x02
  const FirmwareUpdateMdRequestGet: Byte := 0x03
  const FirmwareUpdateMdRequestReport: Byte := 0x04
  const FirmwareUpdateMdGet: Byte := 0x05
  const FirmwareUpdateMdReport: Byte := 0x06
  const FirmwareUpdateMdStatusReport: Byte := 0x07

  /** constantStatus.get(code). */
  function StatusName(code: int): (n: Option<string>)
    ensures n.Some? <==> code in StatusKeys
  {
    match code
    case 0x00 => Some("INVALID_COMBINATION")
    case 0xFF => Some("VALID_COMBINATION")
    case 0x01 => Some("REQUIRES_AUTHENTICATION")
    case _ => None
  }

  /** constantStatus.keySet() in HashMap iteration order (buckets 0, 1, 15). */
  const StatusKeys: seq<Byte> := [0x00, 0x01, 0xFF]

  /** The key whose table value equals `name`, if there is one. */
  function StatusCode(name: string): (c: Option<Byte>)
    ensures c.Some? ==> c.value in StatusKeys && StatusName(c.value) == Some(name)
    ensures c.None? ==> forall k :: StatusName(k) != Some(name)
  {
    match name
    case "INVALID_COMBINATION" => Some(0x00)
    case "VALID_COMBINATION" => Some(0xFF)
    case "REQUIRES_AUTHENTICATION" => Some(0x01)
    case _ => None
  }

  /** The status table has unique codes and unique names. */
  lemma StatusTableUnique(a: int, b: int)
    ensures StatusName(a).Some? && StatusName(a) == StatusName(b) ==> a == b
  {
  }

  /** The frame of the meta-data report and the request get: the header and
      three 16-bit fields, each high byte first. */
  function IdsFrame(command: Byte, manufacturerId: Int32, firmwareId: Int32, checksum: Int32): (r: Frame)
    ensures |r| == 8 && r[..2] == [CommandClassKey, command]
    ensures Be16(r[2], r[3]) == manufacturerId % 65536
    ensures Be16(r[4], r[5]) == firmwareId % 65536
    ensures Be16(r[6], r[7]) == checksum % 65536
  {
    Be16Wrap(manufacturerId);
    Be16Wrap(firmwareId);
    Be16Wrap(checksum);
    [CommandClassKey, command, High8(manufacturerId), Low8(manufacturerId),
     High8(firmwareId), Low8(firmwareId), High8(checksum), Low8(checksum)]
  }

  /** What handleFirmwareMdReport and handleFirmwareUpdateMdRequestGet return:
      three unsigned big-endian 16-bit fields. */
  function DecodeIds(payload: Frame): (r: Result<Record>)
    ensures r.Fail? <==> |payload| < 8
    ensures r.Fail? ==> r.error == IndexOutOfBounds
    ensures r.Ok? ==> r.value.Keys == {"MANUFACTURER_ID", "FIRMWARE_ID", "CHECKSUM"}
    ensures r.Ok? ==> forall k :: k in r.value ==> r.value[k].Int? && 0 <= r.value[k].i < 65536
    ensures r.Ok? ==> r.value["MANUFACTURER_ID"] == Int(Be16(payload[2], payload[3]))
                      && r.value["FIRMWARE_ID"] == Int(Be16(payload[4], payload[5]))
                      && r.value["CHECKSUM"] == Int(Be16(payload[6], payload[7]))
  {
    if |payload| < 8 then Fail(IndexOutOfBounds)
    else Ok(map["MANUFACTURER_ID" := Int(Be16(payload[2], payload[3])),
                "FIRMWARE_ID" := Int(Be16(payload[4], payload[5])),
                "CHECKSUM" := Int(Be16(payload[6], payload[7]))])
  }

  /** The frame of the request report and the status report: the header and
      the code named `status`; an unknown name throws. */
  function StatusFrame(command: Byte, status: string): (r: Result<Frame>)
    ensures r.Ok? || r == Fail(IllegalArgument)
    ensures r.Ok? <==> status in {"INVALID_COMBINATION", "VALID_COMBINATION", "REQUIRES_AUTHENTICATION"}
    ensures r.Ok? ==> |r.value| == 3 && r.value[..2] == [CommandClassKey, command]
                      && StatusName(r.value[2]) == Some(status)
  {
    match StatusCode(status)
    case Some(code) => Ok([CommandClassKey, command, code])
    case None => Fail(IllegalArgument)
  }

  /** What both status handlers return: the name of the unsigned byte 2, or
      null when the table has no such code. */
  function DecodeStatus(payload: Frame): (r: Result<Record>)
    ensures r.Fail? <==> |payload| < 3
    ensures r.Fail? ==> r.error == IndexOutOfBounds
    ensures r.Ok? ==> r.value.Keys == {"STATUS"}
    ensures r.Ok? ==> (r.value["STATUS"] == Nil <==> payload[2] !in StatusKeys)
    ensures r.Ok? && payload[2] in StatusKeys ==> r.value["STATUS"] == Str(StatusName(payload[2]).value)
  {
    if |payload| < 3 then Fail(IndexOutOfBounds)
    else Ok(map["STATUS" := NameOrNil(StatusName(payload[2]))])
  }

  /** getFirmwareUpdateMdGet: number of reports, report number 1 in bits 0-6
      with the zero flag in bit 7, report number 2. */
  function EncodeUpdateMdGet(numberOfReports: Int32, reportNumber1: Int32, zero: bool, reportNumber2: Int32): (r: Frame)
    ensures |r| == 5 && r[..2] == [CommandClassKey, FirmwareUpdateMdGet]
    ensures r[2] == Low8(numberOfReports) && r[4] == Low8(reportNumber2)
    ensures r[3] % 128 == reportNumber1 % 128 && (r[3] >= 128 <==> zero)
  {
    [CommandClassKey, FirmwareUpdateMdGet, Low8(numberOfReports), Pack7(reportNumber1, zero), Low8(reportNumber2)]
  }

  function DecodeUpdateMdGet(payload: Frame): (r: Result<Record>)
    ensures r.Fail? <==> |payload| < 5
    ensures r.Fail? ==> r.error == IndexOutOfBounds
    ensures r.Ok? ==> r.value.Keys == {"NUMBER_OF_REPORTS", "REPORT_NUMBER_1", "ZERO", "REPORT_NUMBER_2"}
    ensures r.Ok? ==> r.value["ZERO"] == Bool(payload[3] >= 128) && r.value["REPORT_NUMBER_1"] == Int(payload[3] % 128)
    ensures r.Ok? ==> r.value["NUMBER_OF_REPORTS"] == Int(Signed(payload[2]))
                      && r.value["REPORT_NUMBER_2"] == Int(Signed(payload[4]))
  {
    if |payload| < 5 then Fail(IndexOutOfBounds)
    else Ok(map["NUMBER_OF_REPORTS" := Int(Signed(payload[2])),
                "REPORT_NUMBER_1" := Int(payload[3] % 128),
                "ZERO" := Bool(payload[3] >= 128),
                "REPORT_NUMBER_2" := Int(Signed(payload[4]))])
  }

  /** getFirmwareUpdateMdReport: report number 1 with the last flag, report
      number 2, then the data as it is (nothing for a null array). */
  function EncodeUpdateMdReport(reportNumber1: Int32, last: bool, reportNumber2: Int32, data: Option<seq<Byte>>): (r: Frame)
    ensures |r| >= 4 && r[..2] == [CommandClassKey, FirmwareUpdateMdReport]
    ensures r[2] % 128 == reportNumber1 % 128 && (r[2] >= 128 <==> last) && r[3] == Low8(reportNumber2)
    ensures data.Some? ==> r[4..] == data.value
    ensures data.None? ==> |r| == 4
  {
    [CommandClassKey, FirmwareUpdateMdReport, Pack7(reportNumber1, last), Low8(reportNumber2)]
    + (if data.Some? then data.value else [])
  }

  /** handleFirmwareUpdateMdReport: DATA is every byte from index 4 to the end. */
  function DecodeUpdateMdReport(payload: Frame): (r: Result<Record>)
    ensures r.Fail? <==> |payload| < 4
    ensures r.Fail? ==> r.error == IndexOutOfBounds
    ensures r.Ok? ==> r.value.Keys == {"REPORT_NUMBER_1", "LAST", "REPORT_NUMBER_2", "DATA"}
    ensures r.Ok? ==> r.value["DATA"] == Bytes(payload[4..]) && r.value["LAST"] == Bool(payload[2] >= 128)
    ensures r.Ok? ==> r.value["REPORT_NUMBER_1"] == Int(payload[2] % 128)
                      && r.value["REPORT_NUMBER_2"] == Int(Signed(payload[3]))
  {
    if |payload| < 4 then Fail(IndexOutOfBounds)
    else Ok(map["REPORT_NUMBER_1" := Int(payload[2] % 128),
                "LAST" := Bool(payload[2] >= 128),
                "REPORT_NUMBER_2" := Int(Signed(payload[3])),
                "DATA" := Bytes(payload[4..])])
  }

  method GetFirmwareMdGet() returns (r: Frame)
    ensures r == [0x7A, 0x01]
  {
    var outputData := new OutputStream();
    outputData.Write(CommandClassKey);
    outputData.Write(FirmwareMdGet);
    return outputData.buf;
  }

  method HandleFirmwareMdGet(payload: Frame) returns (r: Record)
    ensures r == map[]
  {
    var response := new Response();
    return response.entries;
  }

  method WriteIds(command: Byte, manufacturerId: Int32, firmwareId: Int32, checksum: Int32) returns (r: Frame)
    ensures r == IdsFrame(command, manufacturerId, firmwareId, checksum)
  {
    var outputData := new OutputStream();
    outputData.Write(CommandClassKey);
    outputData.Write(command);
    outputData.Write((manufacturerId / 256) % 256);
    outputData.Write(manufacturerId % 256);
    outputData.Write((firmwareId / 256) % 256);
    outputData.Write(firmwareId % 256);
    outputData.Write((checksum / 256) % 256);
    outputData.Write(checksum % 256);
    return outputData.buf;
  }

  method ReadIds(payload: Frame) returns (r: Result<Record>)
    ensures r == DecodeIds(payload)
  {
    if |payload| < 8 {
      return Fail(IndexOutOfBounds);
    }
    var response := new Response();
    response.Put("MANUFACTURER_ID", Int(Be16(payload[2], payload[3])));
    response.Put("FIRMWARE_ID", Int(Be16(payload[4], payload[5])));
    response.Put("CHECKSUM", Int(Be16(payload[6], payload[7])));
    return Ok(response.entries);
  }

  method GetFirmwareMdReport(manufacturerId: Int32, firmwareId: Int32, checksum: Int32) returns (r: Frame)
    ensures r == IdsFrame(FirmwareMdReport, manufacturerId, firmwareId, checksum)
  {
    r := WriteIds(FirmwareMdReport, manufacturerId, firmwareId, checksum);
  }

  method HandleFirmwareMdReport(payload: Frame) returns (r: Result<Record>)
    ensures r == DecodeIds(payload)
  {
    r := ReadIds(payload);
  }

  method GetFirmwareUpdateMdRequestGet(manufacturerId: Int32, firmwareId: Int32, checksum: Int32) returns (r: Frame)
    ensures r == IdsFrame(FirmwareUpdateMdRequestGet, manufacturerId, firmwareId, checksum)
  {
    r := WriteIds(FirmwareUpdateMdRequestGet, manufacturerId, firmwareId, checksum);
  }

  method HandleFirmwareUpdateMdRequestGet(payload: Frame) returns (r: Result<Record>)
    ensures r == DecodeIds(payload)
  {
    r := ReadIds(payload);
  }

  /** Searches the status table's key set for the entry named `status`. */
  method WriteStatus(command: Byte, status: string) returns (r: Result<Frame>)
    ensures r == StatusFrame(command, status)
  {
    var outputData := new OutputStream();
    outputData.Write(CommandClassKey);
    outputData.Write(command);
    var foundStatus := false;
    var i := 0;
    while i < |StatusKeys| && !foundStatus
      invariant 0 <= i <= |StatusKeys|
      invariant !foundStatus ==> outputData.buf == [CommandClassKey, command]
      invariant !foundStatus ==> forall j :: 0 <= j < i ==> StatusName(StatusKeys[j]) != Some(status)
      invariant foundStatus ==> 0 < i && StatusName(StatusKeys[i - 1]) == Some(status)
                                && outputData.buf == [CommandClassKey, command, StatusKeys[i - 1]]
    {
      var entry := StatusKeys[i];
      if StatusName(entry) == Some(status) {
        outputData.Write(entry);
        foundStatus := true;
      }
      i := i + 1;
    }
    if !foundStatus {
      return Fail(IllegalArgument);
    }
    return Ok(outputData.buf);
  }

  method ReadStatus(payload: Frame) returns (r: Result<Record>)
    ensures r == DecodeStatus(payload)
  {
    if |payload| < 3 {
      return Fail(IndexOutOfBounds);
    }
    var response := new Response();
    response.Put("STATUS", NameOrNil(StatusName(payload[2])));
    return Ok(response.entries);
  }

  method GetFirmwareUpdateMdRequestReport(status: string) returns (r: Result<Frame>)
    ensures r == StatusFrame(FirmwareUpdateMdRequestReport, status)
  {
    r := WriteStatus(FirmwareUpdateMdRequestReport, status);
  }

  method HandleFirmwareUpdateMdRequestReport(payload: Frame) returns (r: Result<Record>)
    ensures r == DecodeStatus(payload)
  {
    r := ReadStatus(payload);
  }

  method GetFirmwareUpdateMdGet(numberOfReports: Int32, reportNumber1: Int32, zero: bool, reportNumber2: Int32)
    returns (r: Frame)
    ensures r == EncodeUpdateMdGet(numberOfReports, reportNumber1, zero, reportNumber2)
  {
    var outputData := new OutputStream();
    outputData.Write(CommandClassKey);
    outputData.Write(FirmwareUpdateMdGet);
    outputData.Write(numberOfReports);
    var valProperties1 := reportNumber1 % 128;
    valProperties1 := valProperties1 + (if zero then 0x80 else 0);
    outputData.Write(valProperties1);
    outputData.Write(reportNumber2);
    return outputData.buf;
  }

  method HandleFirmwareUpdateMdGet(payload: Frame) returns (r: Result<Record>)
    ensures r == DecodeUpdateMdGet(payload)
  {
    if |payload| < 5 {
      return Fail(IndexOutOfBounds);
    }
    var response := new Response();
    response.Put("NUMBER_OF_REPORTS", Int(Signed(payload[2])));
    response.Put("REPORT_NUMBER_1", Int(payload[3] % 128));
    response.Put("ZERO", Bool(payload[3] >= 128));
    response.Put("REPORT_NUMBER_2", Int(Signed(payload[4])));
    return Ok(response.entries);
  }

  method GetFirmwareUpdateMdReport(reportNumber1: Int32, last: bool, reportNumber2: Int32, data: Option<seq<Byte>>)
    returns (r: Frame)
    ensures r == EncodeUpdateMdReport(reportNumber1, last, reportNumber2, data)
  {
    var outputData := new OutputStream();
    outputData.Write(CommandClassKey);
    outputData.Write(FirmwareUpdateMdReport);
    var valProperties1 := reportNumber1 % 128;
    valProperties1 := valProperties1 + (if last then 0x80 else 0);
    outputData.Write(valProperties1);
    outputData.Write(reportNumber2);
    if data.Some? {
      outputData.WriteBytes(data.value);
    }
    return outputData.buf;
  }

  /** Copies every byte after the two fixed ones into DATA, one at a time. */
  method HandleFirmwareUpdateMdReport(payload: Frame) returns (r: Result<Record>)
    ensures r == DecodeUpdateMdReport(payload)
  {
    if |payload| < 4 {
      return Fail(IndexOutOfBounds);
    }
    var response := new Response();
    var msgOffset := 2;
    response.Put("REPORT_NUMBER_1", Int(payload[msgOffset] % 128));
    response.Put("LAST", Bool(payload[msgOffset] >= 128));
    msgOffset := msgOffset + 1;
    response.Put("REPORT_NUMBER_2", Int(Signed(payload[msgOffset])));
    msgOffset := msgOffset + 1;
    var valData := new OutputStream();
    while msgOffset < |payload|
      invariant 4 <= msgOffset <= |payload|
      invariant valData.buf == payload[4..msgOffset]
      invariant response.entries == map["REPORT_NUMBER_1" := Int(payload[2] % 128), "LAST" := Bool(payload[2] >= 128),
                                        "REPORT_NUMBER_2" := Int(Signed(payload[3]))]
    {
      valData.Write(payload[msgOffset]);
      msgOffset := msgOffset + 1;
    }
    assert valData.buf == payload[4..];
    response.Put("DATA", Bytes(valData.buf));
    return Ok(response.entries);
  }

  method GetFirmwareUpdateMdStatusReport(status: string) returns (r: Result<Frame>)
    ensures r == StatusFrame(FirmwareUpdateMdStatusReport, status)
  {
    r := WriteStatus(FirmwareUpdateMdStatusReport, status);
  }

  method HandleFirmwareUpdateMdStatusReport(payload: Frame) returns (r: Result<Record>)
    ensures r == DecodeStatus(payload)
  {
    r := ReadStatus(payload);
  }

  /** Every triple of 16-bit values survives the meta-data report and the
      request get. */
  lemma IdsRoundTrip(command: Byte, manufacturerId: Int32, firmwareId: Int32, checksum: Int32)
    requires 0 <= manufacturerId < 65536 && 0 <= firmwareId < 65536 && 0 <= checksum < 65536
    ensures DecodeIds(IdsFrame(command, manufacturerId, firmwareId, checksum))
            == Ok(map["MANUFACTURER_ID" := Int(manufacturerId), "FIRMWARE_ID" := Int(firmwareId),
                      "CHECKSUM" := Int(checksum)])
  {
    var f := IdsFrame(command, manufacturerId, firmwareId, checksum);
    Be16RoundTrip(manufacturerId);
    Be16RoundTrip(firmwareId);
    Be16RoundTrip(checksum);
    assert Be16(f[2], f[3]) == manufacturerId;
  }

  /** 0x1234, 0x5678 and 0x9ABC are sent as 7A 02 12 34 56 78 9A BC. */
  lemma MdReportExample()
    ensures IdsFrame(FirmwareMdReport, 0x1234, 0x5678, 0x9ABC) == [0x7A, 0x02, 0x12, 0x34, 0x56, 0x78, 0x9A, 0xBC]
  {
    assert High8(0x1234) == 0x12 && Low8(0x1234) == 0x34;
    assert High8(0x5678) == 0x56 && Low8(0x5678) == 0x78;
    assert High8(0x9ABC) == 0x9A && Low8(0x9ABC) == 0xBC;
  }

  /** All three statuses survive both status frames, including 0xFF, which is
      read unsigned. */
  lemma StatusRoundTrip(command: Byte, status: string)
    requires StatusFrame(command, status).Ok?
    ensures DecodeStatus(StatusFrame(command, status).value) == Ok(map["STATUS" := Str(status)])
  {
  }

  /** A status byte outside the table decodes to a null STATUS, not a placeholder. */
  lemma StatusUnknownCode(payload: Frame)
    requires |payload| >= 3 && 2 <= payload[2] < 0xFF
    ensures DecodeStatus(payload) == Ok(map["STATUS" := Nil])
  {
  }

  /** The update get survives for report numbers of 0..127 and signed-byte
      counts. */
  lemma UpdateMdGetRoundTrip(numberOfReports: Int32, reportNumber1: Int32, zero: bool, reportNumber2: Int32)
    requires -128 <= numberOfReports < 128 && 0 <= reportNumber1 < 128 && -128 <= reportNumber2 < 128
    ensures DecodeUpdateMdGet(EncodeUpdateMdGet(numberOfReports, reportNumber1, zero, reportNumber2))
            == Ok(map["NUMBER_OF_REPORTS" := Int(numberOfReports), "REPORT_NUMBER_1" := Int(reportNumber1),
                      "ZERO" := Bool(zero), "REPORT_NUMBER_2" := Int(reportNumber2)])
  {
  }

  /** The update report survives with its data, in order; a null array comes
      back as an empty one. */
  lemma UpdateMdReportRoundTrip(reportNumber1: Int32, last: bool, reportNumber2: Int32, data: Option<seq<Byte>>)
    requires 0 <= reportNumber1 < 128 && -128 <= reportNumber2 < 128
    ensures DecodeUpdateMdReport(EncodeUpdateMdReport(reportNumber1, last, reportNumber2, data))
            == Ok(map["REPORT_NUMBER_1" := Int(reportNumber1), "LAST" := Bool(last),
                      "REPORT_NUMBER_2" := Int(reportNumber2),
                      "DATA" := Bytes(if data.Some? then data.value else [])])
  {
  }
}
