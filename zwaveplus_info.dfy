/** COMMAND_CLASS_ZWAVEPLUS_INFO, version 2: the Z-Wave Plus version, role
    type, node type and the two 16-bit icon types of a node. */
module ZwaveplusInfoV2 {
  import opened Wire
  import opened Streams

  const CommandClassKey: Byte := 0x5E
  const ZwaveplusInfoGet: Byte := 0x01
  const ZwaveplusInfoReport: Byte := 0x02

  /** The report encoder's switch on the role type name. */
  function RoleTypeCode(name: string): (c: Option<Byte>)
    ensures c.Some? ==> c.value < 8
  {
    match name
    case "ROLE_TYPE_CONTROLLER_CENTRAL_STATIC" => Some(0x00)
    case "ROLE_TYPE_CONTROLLER_SUB_STATIC" => Some(0x01)
    case "ROLE_TYPE_CONTROLLER_PORTABLE" => Some(0x02)
    case "ROLE_TYPE_CONTROLLER_PORTABLE_REPORTING" => Some(0x03)
    case "ROLE_TYPE_SLAVE_PORTABLE" => Some(0x04)
    case "ROLE_TYPE_SLAVE_ALWAYS_ON" => Some(0x05)
    case "ROLE_TYPE_SLAVE_SLEEPING_REPORTING" => Some(0x06)
    case "ROLE_TYPE_SLAVE_SLEEPING_LISTENING" => Some(0x07)
    case _ => None
  }

  /** The report decoder's switch on the role type byte. */
  function RoleTypeName(b: Byte): (n: string)
    ensures b >= 8 <==> n == Unknown(b)
  {
    match b
    case 0x00 => "ROLE_TYPE_CONTROLLER_CENTRAL_STATIC"
    case 0x01 => "ROLE_TYPE_CONTROLLER_SUB_STATIC"
    case 0x02 => "ROLE_TYPE_CONTROLLER_PORTABLE"
    case 0x03 => "ROLE_TYPE_CONTROLLER_PORTABLE_REPORTING"
    case 0x04 => "ROLE_TYPE_SLAVE_PORTABLE"
    case 0x05 => "ROLE_TYPE_SLAVE_ALWAYS_ON"
    case 0x06 => "ROLE_TYPE_SLAVE_SLEEPING_REPORTING"
    case 0x07 => "ROLE_TYPE_SLAVE_SLEEPING_LISTENING"
    case _ => Unknown(b)
  }

  /** The two role switches invert each other; every byte from 8 up becomes
      its placeholder. */
  lemma RoleTypeSwitchesInverse(name: string, b: Byte)
    ensures RoleTypeCode(name).Some? ==> RoleTypeName(RoleTypeCode(name).value) == name
    ensures b < 8 ==> RoleTypeCode(RoleTypeName(b)) == Some(b)
    ensures b >= 8 ==> RoleTypeName(b) == Unknown(b)
  {
  }

  /** The report encoder's switch on the node type name: only two names. */
  function NodeTypeCode(name: string): (c: Option<Byte>)
    ensures c.Some? ==> c.value == 0x00 || c.value == 0x02
  {
    match name
    case "NODE_TYPE_ZWAVEPLUS_NODE" => Some(0x00)
    case "NODE_TYPE_ZWAVEPLUS_FOR_IP_GATEWAY" => Some(0x02)
    case _ => None
  }

  /** The report decoder's switch on the node type byte. */
  function NodeTypeName(b: Byte): (n: string)
    ensures b != 0x00 && b != 0x02 <==> n == Unknown(b)
  {
    match b
    case 0x00 => "NODE_TYPE_ZWAVEPLUS_NODE"
    case 0x02 => "NODE_TYPE_ZWAVEPLUS_FOR_IP_GATEWAY"
    case _ => Unknown(b)
  }

  /** The node type switches invert each other; node type 1, which sits
      between the two codes, is not one of them. */
  lemma NodeTypeSwitchesInverse(name: string, b: Byte)
    ensures NodeTypeCode(name).Some? ==> NodeTypeName(NodeTypeCode(name).value) == name
    ensures NodeTypeCode(NodeTypeName(b)) == (if b == 0x00 || b == 0x02 then Some(b) else None)
    ensures NodeTypeName(0x01) == "UNKNOWN_01"
  {
    UnknownExample01();
    if b != 0x00 && b != 0x02 {
      assert NodeTypeName(b)[..8] == "UNKNOWN_";
      assert NodeTypeName(b)[0] == 'U';
    }
  }

  /** The placeholder text of byte 1. */
  lemma UnknownExample01()
    ensures Unknown(0x01) == "UNKNOWN_01"
  {
  }

  /** getZwaveplusInfoReport: the version's low eight bits, the role and node
      type codes (an unknown role name throws before the node type is looked
      at), then each icon type high byte first. */
  function EncodeInfoReport(zWavePlusVersion: Int32, roleType: string, nodeType: string,
                            installerIconType: Int32, userIconType: Int32): (r: Result<Frame>)
    ensures r.Ok? || r == Fail(IllegalArgument)
    ensures r.Ok? <==> RoleTypeCode(roleType).Some? && NodeTypeCode(nodeType).Some?
    ensures r.Ok? ==> |r.value| == 9 && r.value[..2] == [CommandClassKey, ZwaveplusInfoReport]
                      && r.value[2] == Low8(zWavePlusVersion)
                      && RoleTypeName(r.value[3]) == roleType && NodeTypeName(r.value[4]) == nodeType
                      && Be16(r.value[5], r.value[6]) == installerIconType % 65536
                      && Be16(r.value[7], r.value[8]) == userIconType % 65536
  {
    match (RoleTypeCode(roleType), NodeTypeCode(nodeType))
    case (Some(role), Some(node)) =>
      Be16Wrap(installerIconType);
      Be16Wrap(userIconType);
      Ok([CommandClassKey, ZwaveplusInfoReport, Low8(zWavePlusVersion), role, node,
          High8(installerIconType), Low8(installerIconType), High8(userIconType), Low8(userIconType)])
    case _ => Fail(IllegalArgument)
  }

  /** handleZwaveplusInfoReport: reads bytes 2 to 8 without a length check;
      the version is a signed byte and each icon type is read through the
      shift precedence of `payload[i] << 8 + payload[i + 1]`. */
  function DecodeInfoReport(payload: Frame): (r: Result<Record>)
    ensures r.Fail? <==> |payload| < 9
    ensures r.Fail? ==> r.error == IndexOutOfBounds
    ensures r.Ok? ==> r.value.Keys == {"Z_WAVE_PLUS_VERSION", "ROLE_TYPE", "NODE_TYPE",
                                       "INSTALLER_ICON_TYPE", "USER_ICON_TYPE"}
    ensures r.Ok? ==> r.value["ROLE_TYPE"] == Str(RoleTypeName(payload[3]))
                      && r.value["NODE_TYPE"] == Str(NodeTypeName(payload[4]))
    ensures r.Ok? ==> r.value["Z_WAVE_PLUS_VERSION"] == Int(Signed(payload[2]))
                      && r.value["INSTALLER_ICON_TYPE"] == Int(Be16AsRead(payload[5], payload[6]))
                      && r.value["USER_ICON_TYPE"] == Int(Be16AsRead(payload[7], payload[8]))
  {
    if |payload| < 9 then Fail(IndexOutOfBounds)
    else Ok(map["Z_WAVE_PLUS_VERSION" := Int(Signed(payload[2])),
                "ROLE_TYPE" := Str(RoleTypeName(payload[3])),
                "NODE_TYPE" := Str(NodeTypeName(payload[4])),
                "INSTALLER_ICON_TYPE" := Int(Be16AsRead(payload[5], payload[6])),
                "USER_ICON_TYPE" := Int(Be16AsRead(payload[7], payload[8]))])
  }

  method GetZwaveplusInfoGet() returns (r: Frame)
    ensures r == [0x5E, 0x01]
  {
    var outputData := new OutputStream();
    outputData.Write(CommandClassKey);
    outputData.Write(ZwaveplusInfoGet);
    return outputData.buf;
  }

  /** handleZwaveplusInfoGet never looks at the payload. */
  method HandleZwaveplusInfoGet(payload: Frame) returns (r: Record)
    ensures r == map[]
  {
    var response := new Response();
    return response.entries;
  }

  method GetZwaveplusInfoReport(zWavePlusVersion: Int32, roleType: string, nodeType: string,
                                installerIconType: Int32, userIconType: Int32) returns (r: Result<Frame>)
    ensures r == EncodeInfoReport(zWavePlusVersion, roleType, nodeType, installerIconType, userIconType)
  {
    var outputData := new OutputStream();
    outputData.Write(CommandClassKey);
    outputData.Write(ZwaveplusInfoReport);
    outputData.Write(zWavePlusVersion);
    var role := RoleTypeCode(roleType);
    if role.None? {
      return Fail(IllegalArgument);
    }
    outputData.Write(role.value);
    var node := NodeTypeCode(nodeType);
    if node.None? {
      return Fail(IllegalArgument);
    }
    outputData.Write(node.value);
    assert outputData.buf == [CommandClassKey, ZwaveplusInfoReport, Low8(zWavePlusVersion), role.value, node.value];
    outputData.Write(High8(installerIconType));
    outputData.Write(installerIconType);
    outputData.Write(High8(userIconType));
    outputData.Write(userIconType);
    assert outputData.buf == [CommandClassKey, ZwaveplusInfoReport, Low8(zWavePlusVersion), role.value, node.value,
                              High8(installerIconType), Low8(installerIconType), High8(userIconType), Low8(userIconType)];
    return Ok(outputData.buf);
  }

  method HandleZwaveplusInfoReport(payload: Frame) returns (r: Result<Record>)
    ensures r == DecodeInfoReport(payload)
  {
    if |payload| < 9 {
      return Fail(IndexOutOfBounds);
    }
    var response := new Response();
    response.Put("Z_WAVE_PLUS_VERSION", Int(Signed(payload[2])));
    response.Put("ROLE_TYPE", Str(RoleTypeName(payload[3])));
    response.Put("NODE_TYPE", Str(NodeTypeName(payload[4])));
    response.Put("INSTALLER_ICON_TYPE", Int(ShiftLeft(Signed(payload[5]), 8 + Signed(payload[6]))));
    response.Put("USER_ICON_TYPE", Int(ShiftLeft(Signed(payload[7]), 8 + Signed(payload[8]))));
    return Ok(response.entries);
  }

  /** Role and node type survive a report; the version comes back as a signed
      byte and each icon type through the precedence of the shift. */
  lemma InfoReportRoundTrip(zWavePlusVersion: Int32, roleType: string, nodeType: string,
                            installerIconType: Int32, userIconType: Int32)
    requires EncodeInfoReport(zWavePlusVersion, roleType, nodeType, installerIconType, userIconType).Ok?
    ensures DecodeInfoReport(EncodeInfoReport(zWavePlusVersion, roleType, nodeType, installerIconType, userIconType).value)
            == Ok(map["Z_WAVE_PLUS_VERSION" := Int(Signed(Low8(zWavePlusVersion))),
                      "ROLE_TYPE" := Str(roleType), "NODE_TYPE" := Str(nodeType),
                      "INSTALLER_ICON_TYPE" := Int(Be16AsRead(High8(installerIconType), Low8(installerIconType))),
                      "USER_ICON_TYPE" := Int(Be16AsRead(High8(userIconType), Low8(userIconType)))])
    ensures 0 <= zWavePlusVersion < 128 ==> Signed(Low8(zWavePlusVersion)) == zWavePlusVersion
  {
  }

  /** An icon type whose low byte is zero and whose high byte is below 128
      does survive: the shift is then by exactly 8. */
  lemma {:induction false} IconTypeLowByteZero(iconType: Int32)
    requires 0 <= iconType < 0x8000 && iconType % 256 == 0
    ensures Be16AsRead(High8(iconType), Low8(iconType)) == iconType
  {
    assert Pow2(8) == 256 by {
      assert Pow2(2) == 4;
      assert Pow2(4) == 16;
      assert Pow2(6) == 64;
    }
  }

  /** Any other low byte shifts the high byte further: icon type 0x0701 is
      written as 07 01 and read back as 7 << 9. */
  lemma IconTypeNoRoundTrip()
    ensures High8(0x0701) == 0x07 && Low8(0x0701) == 0x01
    ensures Be16AsRead(0x07, 0x01) == 0x0E00 != 0x0701
  {
    assert Pow2(9) == 512 by {
      assert Pow2(3) == 8;
      assert Pow2(5) == 32;
      assert Pow2(7) == 128;
    }
  }

  /** Every icon type below 256 has a zero high byte and reads back as 0. */
  lemma SmallIconTypeLost(iconType: Int32)
    requires 0 < iconType < 256
    ensures Be16AsRead(High8(iconType), Low8(iconType)) == 0 != iconType
  {
  }
}
