/** COMMAND_CLASS_AV_TAGGING_MD, version 1: two field-less frames. */
module AvTaggingMdV1 {
  import opened Wire
  import opened Streams

  const CommandClassKey: Byte := 0x99
  const AvTaggingMdGet: Byte := 0x01
  const AvTaggingMdReport: Byte := 0x02

  method GetAvTaggingMdGet() returns (r: Frame)
    ensures r == [0x99, 0x01]
  {
    var outputData := new OutputStream();
    outputData.Write(CommandClassKey);
    outputData.Write(AvTaggingMdGet);
    return outputData.buf;
  }

  /** Never indexes the payload, so even an empty array gives an empty map. */
  method HandleAvTaggingMdGet(payload: Frame) returns (r: Record)
    ensures r == map[]
  {
    var response := new Response();
    return response.entries;
  }

  method GetAvTaggingMdReport() returns (r: Frame)
    ensures r == [0x99, 0x02]
  {
    var outputData := new OutputStream();
    outputData.Write(CommandClassKey);
    outputData.Write(AvTaggingMdReport);
    return outputData.buf;
  }

  /** Never indexes the payload, so even an empty array gives an empty map. */
  method HandleAvTaggingMdReport(payload: Frame) returns (r: Record)
    ensures r == map[]
  {
    var response := new Response();
    return response.entries;
  }
}
