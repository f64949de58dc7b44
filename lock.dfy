/** COMMAND_CLASS_LOCK, version 1: a lock state carried as one table code. */
module LockV1 {
  import opened Wire
  import opened Streams

  const CommandClassKey: Byte := 0x76
  const LockSet: Byte := 0x01
  const LockGet: Byte := 0x02
  const LockReport: Byte := 0x03

  /** constantLockState.get(code). */
  function LockStateName(code: int): (n: Option<string>)
    ensures n.Some? <==> code in LockStateKeys
  {
    match code
    case 0x00 => Some("UNLOCKED")
    case 0x01 => Some("LOCKED")
    case _ => None
  }

  /** constantLockState.keySet(), in the order a HashMap of small Integer keys
      iterates it. */
  const LockStateKeys: seq<Byte> := [0x00, 0x01]

  /** The key whose table value equals `name`, if there is one. */
  function LockStateCode(name: string): (c: Option<Byte>)
    ensures c.Some? ==> c.value in LockStateKeys && LockStateName(c.value) == Some(name)
    ensures c.None? ==> forall k :: LockStateName(k) != Some(name)
  {
    match name
    case "UNLOCKED" => Some(0x00)
    case "LOCKED" => Some(0x01)
    case _ => None
  }

  /** Codes and names of the table are both unique. */
  lemma LockStateTableUnique(a: int, b: int)
    ensures LockStateName(a).Some? && LockStateName(a) == LockStateName(b) ==> a == b
  {
  }

  /** The frame getLockSet and getLockReport build: the header, then the code
      whose name is `lockState`; an unknown name throws. */
  function LockFrame(command: Byte, lockState: string): (r: Result<Frame>)
    ensures r.Ok? || r == Fail(IllegalArgument)
    ensures r.Ok? <==> lockState in {"UNLOCKED", "LOCKED"}
    ensures r.Ok? ==> |r.value| == 3 && r.value[..2] == [CommandClassKey, command]
                      && LockStateName(r.value[2]) == Some(lockState)
  {
    match LockStateCode(lockState)
    case Some(code) => Ok([CommandClassKey, command, code])
    case None => Fail(IllegalArgument)
  }

  /** What handleLockSet and handleLockReport return: LOCK_STATE is the name of
      the unsigned byte 2, or null when the table has no such code. */
  function DecodeLockState(payload: Frame): (r: Result<Record>)
    ensures r.Fail? <==> |payload| < 3
    ensures r.Fail? ==> r.error == IndexOutOfBounds
    ensures r.Ok? ==> r.value.Keys == {"LOCK_STATE"}
    ensures r.Ok? && payload[2] in LockStateKeys ==> r.value["LOCK_STATE"] == Str(LockStateName(payload[2]).value)
    ensures r.Ok? && payload[2] !in LockStateKeys ==> r.value["LOCK_STATE"] == Nil
  {
    if |payload| < 3 then Fail(IndexOutOfBounds)
    else Ok(map["LOCK_STATE" := NameOrNil(LockStateName(payload[2]))])
  }

  /** Searches the table's key set for the entry named `lockState` and writes
      its code after the header. */
  method WriteLockState(command: Byte, lockState: string) returns (r: Result<Frame>)
    ensures r == LockFrame(command, lockState)
  {
    var outputData := new OutputStream();
    outputData.Write(CommandClassKey);
    outputData.Write(command);
    var foundLockState := false;
    var i := 0;
    while i < |LockStateKeys| && !foundLockState
      invariant 0 <= i <= |LockStateKeys|
      invariant !foundLockState ==> outputData.buf == [CommandClassKey, command]
      invariant !foundLockState ==> forall j :: 0 <= j < i ==> LockStateName(LockStateKeys[j]) != Some(lockState)
      invariant foundLockState ==> 0 < i && LockStateName(LockStateKeys[i - 1]) == Some(lockState)
                                   && outputData.buf == [CommandClassKey, command, LockStateKeys[i - 1]]
    {
      var entry := LockStateKeys[i];
      if LockStateName(entry) == Some(lockState) {
        outputData.Write(entry);
        foundLockState := true;
      }
      i := i + 1;
    }
    if !foundLockState {
      return Fail(IllegalArgument);
    }
    return Ok(outputData.buf);
  }

  method GetLockSet(lockState: string) returns (r: Result<Frame>)
    ensures r == LockFrame(LockSet, lockState)
  {
    r := WriteLockState(LockSet, lockState);
  }

  method HandleLockSet(payload: Frame) returns (r: Result<Record>)
    ensures r == DecodeLockState(payload)
  {
    r := ReadLockState(payload);
  }

  method GetLockGet() returns (r: Frame)
    ensures r == [0x76, 0x02]
  {
    var outputData := new OutputStream();
    outputData.Write(CommandClassKey);
    outputData.Write(LockGet);
    return outputData.buf;
  }

  /** handleLockGet never looks at the payload. */
  method HandleLockGet(payload: Frame) returns (r: Record)
    ensures r == map[]
  {
    var response := new Response();
    return response.entries;
  }

  method GetLockReport(lockState: string) returns (r: Result<Frame>)
    ensures r == LockFrame(LockReport, lockState)
  {
    r := WriteLockState(LockReport, lockState);
  }

  method HandleLockReport(payload: Frame) returns (r: Result<Record>)
    ensures r == DecodeLockState(payload)
  {
    r := ReadLockState(payload);
  }

  /** Puts the name of the unsigned byte 2 under LOCK_STATE. */
  method ReadLockState(payload: Frame) returns (r: Result<Record>)
    ensures r == DecodeLockState(payload)
  {
    if |payload| < 3 {
      return Fail(IndexOutOfBounds);
    }
    var response := new Response();
    response.Put("LOCK_STATE", NameOrNil(LockStateName(payload[2])));
    return Ok(response.entries);
  }

  /** Both lock states survive an encode and a decode, for set and report. */
  lemma LockStateRoundTrip(command: Byte, lockState: string)
    requires LockFrame(command, lockState).Ok?
    ensures DecodeLockState(LockFrame(command, lockState).value) == Ok(map["LOCK_STATE" := Str(lockState)])
  {
  }

  /** Any byte 2 other than 0 and 1 decodes to a null LOCK_STATE, not an error. */
  lemma LockStateUnknownCode(payload: Frame)
    requires |payload| >= 3 && payload[2] >= 2
    ensures DecodeLockState(payload) == Ok(map["LOCK_STATE" := Nil])
  {
  }

  /** getLockReport("LOCKED") is 76 03 01. */
  lemma LockReportExample()
    ensures LockFrame(LockReport, "LOCKED") == Ok([0x76, 0x03, 0x01])
  {
  }
}
