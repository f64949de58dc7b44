/** The two mutable collaborators every generated codec uses: the
    java.io.ByteArrayOutputStream an encoder writes its frame into, and the
    HashMap<String, Object> a decoder fills. */
module Streams {
  import opened Wire

  /** java.io.ByteArrayOutputStream: an append-only byte buffer. */
  class OutputStream {
    var buf: Frame

    constructor ()
      ensures buf == []
    {
      buf := [];
    }

    /** write(int): appends the low eight bits of v. */
    method Write(v: int)
      modifies this
      ensures buf == old(buf) + [Low8(v)]
    {
      buf := buf + [Low8(v)];
    }

    /** write(byte[]): appends the array as it is. */
    method WriteBytes(data: seq<Byte>)
      modifies this
      ensures buf == old(buf) + data
    {
      buf := buf + data;
    }
  }

  /** The HashMap<String, Object> a decoder returns. */
  class Response {
    var entries: Record

    constructor ()
      ensures entries == map[]
    {
      entries := map[];
    }

    /** put(key, value): a later put under the same key replaces the earlier. */
    method Put(key: string, v: Value)
      modifies this
      ensures entries == old(entries)[key := v]
    {
      entries := entries[key := v];
    }
  }
}
