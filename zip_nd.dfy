/** COMMAND_CLASS_ZIP_ND, version 1: Z/IP node advertisement and (inverse)
    node solicitation, which pair a node ID with its IPv6 address. */
module ZipNdV1 {
  import opened Wire
  import opened Streams

  const CommandClassKey: Byte := 0x58
  const ZipNodeAdvertisement: Byte := 0x01
  const ZipNodeSolicitation: Byte := 0x03
  const ZipInvNodeSolicitation: Byte := 0x04

  /** The advertisement encoder's switch on the validity name. */
  function ValidityCode(name: string): (c: Option<int>)
    ensures c.Some? ==> 0 <= c.value < 3
  {
    match name
    case "INFORMATION_OK" => Some(0)
    case "INFORMATION_OBSOLETE" => Some(1)
    case "INFORMATION_NOT_FOUND" => Some(2)
    case _ => None
  }

  /** The advertisement decoder's switch on the two validity bits. */
  function ValidityName(bits: int): (n: Option<string>)
    ensures n.Some? <==> 0 <= bits < 3
  {
    match bits
    case 0x00 => Some("INFORMATION_OK")
    case 0x01 => Some("INFORMATION_OBSOLETE")
    case 0x02 => Some("INFORMATION_NOT_FOUND")
    case _ => None
  }

  /** The two switches are inverse to each other on their whole domains. */
  lemma ValiditySwitchesInverse(name: string, bits: int)
    ensures ValidityCode(name).Some? ==> ValidityName(ValidityCode(name).value) == Some(name)
    ensures ValidityName(bits).Some? ==> ValidityCode(ValidityName(bits).value) == Some(bits)
  {
  }

  /** A node number the encoders accept. */
  predicate ValidNodeId(nodeId: int)
    ensures ValidNodeId(nodeId) ==> Low8(nodeId) == nodeId
  {
    1 <= nodeId <= 232
  }

  /** `Math.min`. */
  function Min(a: int, b: int): (m: int)
    ensures m <= a && m <= b && (m == a || m == b)
  {
    if a <= b then a else b
  }

  /** An optional byte array as written: nothing for null. */
  function BytesOrEmpty(data: Option<seq<Byte>>): (s: seq<Byte>)
    ensures data.Some? ==> s == data.value
    ensures data.None? ==> s == []
  {
    if data.Some? then data.value else []
  }

  /** An optional array longer than its bound makes the encoder throw. */
  predicate TooLong(data: Option<seq<Byte>>, bound: nat)
    ensures TooLong(data, bound) <==> |BytesOrEmpty(data)| > bound
  {
    data.Some? && |data.value| > bound
  }

  /** getZipNodeAdvertisement: validity in bits 0-1 and `local` in bit 2, the
      node ID, then the IPv6 address and the home ID as given. An unknown
      validity throws before the node ID is checked; a node ID outside 1..232
      returns null before the arrays are checked; an IPv6 address over 16
      bytes or a home ID over 4 bytes throws. */
  function EncodeAdvertisement(validity: string, local: bool, nodeId: Int32, ipv6Address: Option<seq<Byte>>,
                               homeId: Option<seq<Byte>>): (r: Result<Frame>)
    ensures ValidityCode(validity).None? ==> r == Fail(IllegalArgument)
    ensures ValidityCode(validity).Some? && !ValidNodeId(nodeId) ==> r == Null
    ensures ValidityCode(validity).Some? && ValidNodeId(nodeId) && (TooLong(ipv6Address, 16) || TooLong(homeId, 4))
            ==> r == Fail(IllegalArgument)
    ensures r.Ok? <==> ValidityCode(validity).Some? && ValidNodeId(nodeId)
                       && !TooLong(ipv6Address, 16) && !TooLong(homeId, 4)
    ensures r.Ok? ==> |r.value| == 4 + |BytesOrEmpty(ipv6Address)| + |BytesOrEmpty(homeId)|
                      && r.value[..2] == [CommandClassKey, ZipNodeAdvertisement]
                      && ValidityName(r.value[2] % 4) == Some(validity)
                      && ((r.value[2] / 4) % 2 == 1 <==> local)
                      && r.value[3] == nodeId
                      && r.value[4..] == BytesOrEmpty(ipv6Address) + BytesOrEmpty(homeId)
  {
    match ValidityCode(validity)
    case None => Fail(IllegalArgument)
    case Some(code) =>
      if !ValidNodeId(nodeId) then Null
      else if TooLong(ipv6Address, 16) || TooLong(homeId, 4) then Fail(IllegalArgument)
      else Ok([CommandClassKey, ZipNodeAdvertisement, code % 4 + (if local then 0x04 else 0), nodeId]
              + BytesOrEmpty(ipv6Address) + BytesOrEmpty(homeId))
  }

  /** The VALIDITY entry of an advertisement, if its two validity bits name one. */
  function ValidityEntry(properties: Byte): (m: Record)
    ensures "VALIDITY" in m <==> properties % 4 != 3
    ensures m.Keys <= {"VALIDITY"}
    ensures "VALIDITY" in m ==> m["VALIDITY"] == Str(ValidityName(properties % 4).value)
  {
    match ValidityName(properties % 4)
    case Some(name) => map["VALIDITY" := Str(name)]
    case None => map[]
  }

  /** handleZipNodeAdvertisement: VALIDITY is absent when the validity bits
      are 3; IPV6_ADDRESS takes up to 16 bytes from index 4 and HOME_ID up to 4
      from index 20, so a frame shorter than 20 bytes asks for an array of
      negative length. */
  function DecodeAdvertisement(payload: Frame): (r: Result<Record>)
    ensures |payload| < 4 ==> r == Fail(IndexOutOfBounds)
    ensures 4 <= |payload| < 20 ==> r == Fail(NegativeArraySize)
    ensures r.Ok? <==> |payload| >= 20
    ensures r.Ok? ==> r.value.Keys == (if payload[2] % 4 == 3 then {} else {"VALIDITY"})
                                      + {"LOCAL", "NODE_ID", "IPV6_ADDRESS", "HOME_ID"}
    ensures r.Ok? ==> r.value["IPV6_ADDRESS"] == Bytes(payload[4..20])
                      && r.value["HOME_ID"] == Bytes(payload[20..Min(24, |payload|)])
    ensures r.Ok? && payload[2] % 4 != 3 ==> r.value["VALIDITY"] == Str(ValidityName(payload[2] % 4).value)
    ensures r.Ok? ==> r.value["NODE_ID"] == Int(Signed(payload[3]))
                      && r.value["LOCAL"].Bool? && (r.value["LOCAL"].b <==> (payload[2] / 4) % 2 == 1)
  {
    if |payload| < 4 then Fail(IndexOutOfBounds)
    else if |payload| < 20 then Fail(NegativeArraySize)
    else
      Ok(ValidityEntry(payload[2])["LOCAL" := Bool((payload[2] / 4) % 2 == 1)]
                                  ["NODE_ID" := Int(Signed(payload[3]))]
                                  ["IPV6_ADDRESS" := Bytes(payload[4..4 + Min(16, |payload| - 4)])]
                                  ["HOME_ID" := Bytes(payload[20..20 + Min(4, |payload| - 20)])])
  }

  /** getZipNodeSolicitation: a reserved zero, the node ID, then the IPv6
      address as given; null for a node ID outside 1..232. */
  function EncodeSolicitation(nodeId: Int32, ipv6Address: Option<seq<Byte>>): (r: Result<Frame>)
    ensures !ValidNodeId(nodeId) ==> r == Null
    ensures ValidNodeId(nodeId) && TooLong(ipv6Address, 16) ==> r == Fail(IllegalArgument)
    ensures r.Ok? <==> ValidNodeId(nodeId) && !TooLong(ipv6Address, 16)
    ensures r.Ok? ==> |r.value| == 4 + |BytesOrEmpty(ipv6Address)|
                      && r.value[..4] == [CommandClassKey, ZipNodeSolicitation, 0, nodeId]
                      && r.value[4..] == BytesOrEmpty(ipv6Address)
  {
    if !ValidNodeId(nodeId) then Null
    else if TooLong(ipv6Address, 16) then Fail(IllegalArgument)
    else Ok([CommandClassKey, ZipNodeSolicitation, 0, nodeId] + BytesOrEmpty(ipv6Address))
  }

  /** handleZipNodeSolicitation: skips the reserved byte; IPV6_ADDRESS takes up
      to 16 bytes from index 4. */
  function DecodeSolicitation(payload: Frame): (r: Result<Record>)
    ensures r.Fail? <==> |payload| < 4
    ensures r.Fail? ==> r.error == IndexOutOfBounds
    ensures r.Ok? ==> r.value.Keys == {"NODE_ID", "IPV6_ADDRESS"}
    ensures r.Ok? ==> r.value["IPV6_ADDRESS"] == Bytes(payload[4..Min(20, |payload|)])
    ensures r.Ok? ==> r.value["NODE_ID"] == Int(Signed(payload[3]))
  {
    if |payload| < 4 then Fail(IndexOutOfBounds)
    else Ok(map["NODE_ID" := Int(Signed(payload[3])),
                "IPV6_ADDRESS" := Bytes(payload[4..4 + Min(16, |payload| - 4)])])
  }

  /** getZipInvNodeSolicitation: `local` as 0x04 or 0, then the node ID; null
      for a node ID outside 1..232. */
  function EncodeInvSolicitation(local: bool, nodeId: Int32): (r: Result<Frame>)
    ensures r.Ok? <==> ValidNodeId(nodeId)
    ensures r.Fail? == false
    ensures r.Ok? ==> |r.value| == 4 && r.value[..2] == [CommandClassKey, ZipInvNodeSolicitation]
                      && r.value[2] == (if local then 0x04 else 0) && r.value[3] == nodeId
  {
    if !ValidNodeId(nodeId) then Null
    else Ok([CommandClassKey, ZipInvNodeSolicitation, if local then 0x04 else 0, nodeId])
  }

  /** handleZipInvNodeSolicitation: LOCAL is bit 2 of byte 2. */
  function DecodeInvSolicitation(payload: Frame): (r: Result<Record>)
    ensures r.Fail? <==> |payload| < 4
    ensures r.Fail? ==> r.error == IndexOutOfBounds
    ensures r.Ok? ==> r.value.Keys == {"LOCAL", "NODE_ID"}
    ensures r.Ok? ==> r.value["NODE_ID"] == Int(Signed(payload[3]))
                      && r.value["LOCAL"].Bool? && (r.value["LOCAL"].b <==> (payload[2] / 4) % 2 == 1)
  {
    if |payload| < 4 then Fail(IndexOutOfBounds)
    else Ok(map["LOCAL" := Bool((payload[2] / 4) % 2 == 1), "NODE_ID" := Int(Signed(payload[3]))])
  }

  /** Copies `len` bytes from `from` into a fresh byte[] of that length. */
  method CopyBytes(payload: Frame, from: nat, len: nat) returns (s: seq<Byte>)
    requires from + len <= |payload|
    ensures s == payload[from..from + len]
  {
    var buffer := new Byte[len];
    for cnt := 0 to len
      invariant forall k :: 0 <= k < cnt ==> buffer[k] == payload[from + k]
    {
      buffer[cnt] := payload[from + cnt];
    }
    return buffer[..];
  }

  /** Appends an optional array, throwing when it is longer than `bound`. */
  method WriteBounded(outputData: OutputStream, data: Option<seq<Byte>>, bound: nat) returns (ok: bool)
    modifies outputData
    ensures ok == !TooLong(data, bound)
    ensures ok ==> outputData.buf == old(outputData.buf) + BytesOrEmpty(data)
  {
    if data.Some? {
      if |data.value| > bound {
        return false;
      }
      outputData.WriteBytes(data.value);
    }
    return true;
  }

  /** The advertisement's two optional arrays, the IPv6 address first. */
  method WriteAddresses(outputData: OutputStream, ipv6Address: Option<seq<Byte>>, homeId: Option<seq<Byte>>)
    returns (ok: bool)
    modifies outputData
    ensures ok == (!TooLong(ipv6Address, 16) && !TooLong(homeId, 4))
    ensures ok ==> outputData.buf == old(outputData.buf) + BytesOrEmpty(ipv6Address) + BytesOrEmpty(homeId)
  {
    ok := WriteBounded(outputData, ipv6Address, 16);
    if !ok {
      return false;
    }
    ok := WriteBounded(outputData, homeId, 4);
  }

  method GetZipNodeAdvertisement(validity: string, local: bool, nodeId: Int32, ipv6Address: Option<seq<Byte>>,
                                 homeId: Option<seq<Byte>>) returns (r: Result<Frame>)
    ensures r == EncodeAdvertisement(validity, local, nodeId, ipv6Address, homeId)
  {
    var outputData := new OutputStream();
    outputData.Write(CommandClassKey);
    outputData.Write(ZipNodeAdvertisement);
    var valProperties1 := 0;
    var valvalidity := ValidityCode(validity);
    if valvalidity.None? {
      return Fail(IllegalArgument);
    }
    valProperties1 := valProperties1 + valvalidity.value % 4;
    valProperties1 := valProperties1 + (if local then 0x04 else 0);
    outputData.Write(valProperties1);
    if nodeId < 1 || nodeId > 232 {
      return Null;
    }
    outputData.Write(nodeId);
    assert outputData.buf == [CommandClassKey, ZipNodeAdvertisement,
                              valvalidity.value % 4 + (if local then 0x04 else 0), nodeId];
    var ok := WriteAddresses(outputData, ipv6Address, homeId);
    if !ok {
      return Fail(IllegalArgument);
    }
    return Ok(outputData.buf);
  }

  method HandleZipNodeAdvertisement(payload: Frame) returns (r: Result<Record>)
    ensures r == DecodeAdvertisement(payload)
  {
    if |payload| < 4 {
      return Fail(IndexOutOfBounds);
    }
    var response := new Response();
    var validityName := ValidityName(payload[2] % 4);
    if validityName.Some? {
      response.Put("VALIDITY", Str(validityName.value));
    }
    assert response.entries == ValidityEntry(payload[2]);
    response.Put("LOCAL", Bool((payload[2] / 4) % 2 == 1));
    response.Put("NODE_ID", Int(Signed(payload[3])));
    var lenIpv6Address := Min(16, |payload| - 4);
    var valIpv6Address := CopyBytes(payload, 4, lenIpv6Address);
    response.Put("IPV6_ADDRESS", Bytes(valIpv6Address));
    var lenHomeId := Min(4, |payload| - 20);
    if lenHomeId < 0 {
      return Fail(NegativeArraySize);
    }
    var valHomeId := CopyBytes(payload, 20, lenHomeId);
    response.Put("HOME_ID", Bytes(valHomeId));
    return Ok(response.entries);
  }

  method GetZipNodeSolicitation(nodeId: Int32, ipv6Address: Option<seq<Byte>>) returns (r: Result<Frame>)
    ensures r == EncodeSolicitation(nodeId, ipv6Address)
  {
    var outputData := new OutputStream();
    outputData.Write(CommandClassKey);
    outputData.Write(ZipNodeSolicitation);
    outputData.Write(0);
    if nodeId < 1 || nodeId > 232 {
      return Null;
    }
    outputData.Write(nodeId);
    assert outputData.buf == [CommandClassKey, ZipNodeSolicitation, 0, nodeId];
    var ok := WriteBounded(outputData, ipv6Address, 16);
    if !ok {
      return Fail(IllegalArgument);
    }
    return Ok(outputData.buf);
  }

  method HandleZipNodeSolicitation(payload: Frame) returns (r: Result<Record>)
    ensures r == DecodeSolicitation(payload)
  {
    if |payload| < 4 {
      return Fail(IndexOutOfBounds);
    }
    var response := new Response();
    response.Put("NODE_ID", Int(Signed(payload[3])));
    var lenIpv6Address := Min(16, |payload| - 4);
    var valIpv6Address := CopyBytes(payload, 4, lenIpv6Address);
    response.Put("IPV6_ADDRESS", Bytes(valIpv6Address));
    return Ok(response.entries);
  }

  method GetZipInvNodeSolicitation(local: bool, nodeId: Int32) returns (r: Result<Frame>)
    ensures r == EncodeInvSolicitation(local, nodeId)
  {
    var outputData := new OutputStream();
    outputData.Write(CommandClassKey);
    outputData.Write(ZipInvNodeSolicitation);
    outputData.Write(if local then 0x04 else 0);
    if nodeId < 1 || nodeId > 232 {
      return Null;
    }
    outputData.Write(nodeId);
    assert outputData.buf == [CommandClassKey, ZipInvNodeSolicitation, if local then 0x04 else 0, nodeId];
    return Ok(outputData.buf);
  }

  method HandleZipInvNodeSolicitation(payload: Frame) returns (r: Result<Record>)
    ensures r == DecodeInvSolicitation(payload)
  {
    if |payload| < 4 {
      return Fail(IndexOutOfBounds);
    }
    var response := new Response();
    response.Put("LOCAL", Bool((payload[2] / 4) % 2 == 1));
    response.Put("NODE_ID", Int(Signed(payload[3])));
    return Ok(response.entries);
  }

  /** With a full 16-byte IPv6 address the advertisement survives; the node
      ID comes back as a signed byte, so 128..232 come back 256 lower, and a
      null home ID comes back as an empty one. */
  lemma AdvertisementRoundTrip(validity: string, local: bool, nodeId: Int32, ipv6Address: seq<Byte>,
                               homeId: Option<seq<Byte>>)
    requires EncodeAdvertisement(validity, local, nodeId, Some(ipv6Address), homeId).Ok?
    requires |ipv6Address| == 16
    ensures DecodeAdvertisement(EncodeAdvertisement(validity, local, nodeId, Some(ipv6Address), homeId).value)
            == Ok(map["VALIDITY" := Str(validity), "LOCAL" := Bool(local),
                      "NODE_ID" := Int(if nodeId < 128 then nodeId else nodeId - 256),
                      "IPV6_ADDRESS" := Bytes(ipv6Address), "HOME_ID" := Bytes(BytesOrEmpty(homeId))])
  {
    var p := EncodeAdvertisement(validity, local, nodeId, Some(ipv6Address), homeId).value;
    assert p[4..20] == ipv6Address;
    assert p[20..] == BytesOrEmpty(homeId);
    assert 20 + Min(4, |p| - 20) == |p|;
    assert 4 + Min(16, |p| - 4) == 20;
    assert ValidityName(p[2] % 4) == Some(validity);
    assert (p[2] / 4) % 2 == 1 <==> local;
    assert Signed(p[3]) == if nodeId < 128 then nodeId else nodeId - 256;
    assert ValidityEntry(p[2]) == map["VALIDITY" := Str(validity)];
    var node := Int(if nodeId < 128 then nodeId else nodeId - 256);
    var home := Bytes(BytesOrEmpty(homeId));
    assert |p| >= 20;
    assert Bytes(p[4..4 + Min(16, |p| - 4)]) == Bytes(ipv6Address);
    assert Bytes(p[20..20 + Min(4, |p| - 20)]) == home;
    assert Int(Signed(p[3])) == node;
    assert Bool((p[2] / 4) % 2 == 1) == Bool(local);
    assert DecodeAdvertisement(p) == Ok(map["VALIDITY" := Str(validity)]["LOCAL" := Bool(local)]["NODE_ID" := node]
                                           ["IPV6_ADDRESS" := Bytes(ipv6Address)]["HOME_ID" := home]);
    assert map["VALIDITY" := Str(validity)]["LOCAL" := Bool(local)]["NODE_ID" := node]
                                           ["IPV6_ADDRESS" := Bytes(ipv6Address)]["HOME_ID" := home]
        == map["VALIDITY" := Str(validity), "LOCAL" := Bool(local), "NODE_ID" := node,
               "IPV6_ADDRESS" := Bytes(ipv6Address), "HOME_ID" := home];
  }

  /** A shorter IPv6 address does not survive: with 15 bytes, the first byte
      of the home ID is read back as the address's last byte. */
  lemma AdvertisementShortAddress(nodeId: Int32)
    requires ValidNodeId(nodeId)
    ensures var p := EncodeAdvertisement("INFORMATION_OK", false, nodeId, Some(seq(15, _ => 0)), Some([1, 2, 3, 4])).value;
            DecodeAdvertisement(p).Ok?
            && DecodeAdvertisement(p).value["IPV6_ADDRESS"] == Bytes(seq(15, _ => 0) + [1])
            && DecodeAdvertisement(p).value["HOME_ID"] == Bytes([2, 3, 4])
  {
    var p := EncodeAdvertisement("INFORMATION_OK", false, nodeId, Some(seq(15, _ => 0)), Some([1, 2, 3, 4])).value;
    assert p[4..20] == seq(15, _ => 0) + [1];
    assert p[20..23] == [2, 3, 4];
  }

  /** Without an IPv6 address the encoder's own frame is too short to decode. */
  lemma AdvertisementWithoutAddress(validity: string, local: bool, nodeId: Int32, homeId: Option<seq<Byte>>)
    requires EncodeAdvertisement(validity, local, nodeId, None, homeId).Ok?
    ensures DecodeAdvertisement(EncodeAdvertisement(validity, local, nodeId, None, homeId).value)
            == Fail(NegativeArraySize)
  {
  }

  /** Validity bits of 3 leave VALIDITY out of the map. */
  lemma AdvertisementValidityAbsent(payload: Frame)
    requires |payload| >= 20 && payload[2] % 4 == 3
    ensures DecodeAdvertisement(payload).Ok? && "VALIDITY" !in DecodeAdvertisement(payload).value
  {
  }

  /** The solicitation survives for node IDs below 128 and addresses of at
      most 16 bytes. */
  lemma SolicitationRoundTrip(nodeId: Int32, ipv6Address: Option<seq<Byte>>)
    requires EncodeSolicitation(nodeId, ipv6Address).Ok? && nodeId < 128
    ensures DecodeSolicitation(EncodeSolicitation(nodeId, ipv6Address).value)
            == Ok(map["NODE_ID" := Int(nodeId), "IPV6_ADDRESS" := Bytes(BytesOrEmpty(ipv6Address))])
  {
    var p := EncodeSolicitation(nodeId, ipv6Address).value;
    assert p[4..Min(20, |p|)] == BytesOrEmpty(ipv6Address);
  }

  /** The inverse solicitation survives for node IDs below 128. */
  lemma InvSolicitationRoundTrip(local: bool, nodeId: Int32)
    requires ValidNodeId(nodeId) && nodeId < 128
    ensures DecodeInvSolicitation(EncodeInvSolicitation(local, nodeId).value)
            == Ok(map["LOCAL" := Bool(local), "NODE_ID" := Int(nodeId)])
  {
  }
}
