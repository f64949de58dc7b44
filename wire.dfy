/** Primitive wire types and the Java arithmetic the generated codecs rely on:
    the byte kept by ByteArrayOutputStream.write, the signed byte that
    Integer.valueOf(payload[i]) reads, big-endian 16-bit fields, Java's 32-bit
    `<<`, single-bit tests, and the "%02X" placeholder of unknown enum codes.
    Also the decoded-value datatype and the outcome of an encode or decode call. */
module Wire {

  datatype Option<+T> = None | Some(value: T)

  /** An unsigned octet as it travels on the wire. */
  type Byte = x: int | 0 <= x < 256

  /** A Java `int` (also the range of a non-null `Integer`). */
  type Int32 = x: int | -0x8000_0000 <= x < 0x8000_0000

  /** A frame: byte 0 is the command-class key, byte 1 the command key. */
  type Frame = seq<Byte>

  /** A value stored in the response map of a decoder. */
  datatype Value =
    | Int(i: int)                                  // Integer
    | Bool(b: bool)                                // Boolean
    | Str(s: string)                               // String
    | Nil                                          // a null stored under a key
    | Bytes(bytes: seq<Byte>)                      // byte[] or ByteArrayOutputStream
    | Ints(ints: seq<int>)                         // int[] or List<Integer>
    | List(items: seq<Value>)                      // List<String>, which may hold null
    | Group(records: seq<map<string, Value>>)      // a variant-group list

  /** The Map<String, Object> a decoder returns. */
  type Record = map<string, Value>

  /** How a call ends when it returns nothing usable. */
  datatype Error =
    | IllegalArgument      // IllegalArgumentException thrown by an encoder
    | IndexOutOfBounds     // ArrayIndexOutOfBoundsException: a read past the payload
    | NegativeArraySize    // NegativeArraySizeException: `new byte[n]` with n < 0
    | NoTermination        // a decoder loop whose offset never moves on: the HRV bitmask loop
                           // spins forever, and a variant-group loop allocates a map per pass
                           // until the JVM throws OutOfMemoryError

  /** Result of an encoder (a frame, `null`, or an exception) or of a decoder
      (a record or an exception). */
  datatype Result<+T> = Ok(value: T) | Null | Fail(error: Error)

  /** ByteArrayOutputStream.write(int): only the low eight bits are kept. */
  function Low8(v: int): (b: Byte)
    ensures 0 <= v < 256 ==> b == v
    ensures (v - b) % 256 == 0
  {
    v % 256
  }

  /** The value of a Java `byte` holding the octet b (two's complement). */
  function Signed(b: Byte): (v: int)
    ensures -128 <= v < 128
    ensures Low8(v) == b
    ensures b < 128 ==> v == b
    ensures b >= 128 ==> v == b - 256
  {
    if b < 128 then b else b - 256
  }

  /** `(v >> 8) & 0xff`: Java's `>>` on int is floor division by 256. */
  function High8(v: int): (b: Byte)
    ensures 0 <= v < 65536 ==> b == v / 256
  {
    (v / 256) % 256
  }

  /** `((hi & 0xff) << 8) + (lo & 0xff)`: a big-endian 16-bit field. */
  function Be16(hi: Byte, lo: Byte): (v: int)
    ensures 0 <= v < 65536
    ensures High8(v) == hi && Low8(v) == lo
  {
    hi * 256 + lo
  }

  /** Every value in 0..65535 survives the big-endian split. */
  lemma Be16RoundTrip(v: int)
    requires 0 <= v < 65536
    ensures Be16(High8(v), Low8(v)) == v
  {
  }

  /** The two bytes written for any int are its value modulo 65536, big-endian. */
  lemma Be16Wrap(v: int)
    ensures Be16(High8(v), Low8(v)) == v % 65536
  {
    var q := v / 65536;
    var m := v % 65536;
    assert v == q * 65536 + m;
    assert v / 256 == q * 256 + m / 256;
    assert (v / 256) % 256 == m / 256;
    assert v % 256 == m % 256;
  }

  /** A properties byte holding a 7-bit value and a flag in bit 7:
      `(v & 0x7F) | (flag ? 0x80 : 0)`; the two parts are disjoint, so `|` adds. */
  function Pack7(v: int, flag: bool): (b: Byte)
    ensures b % 128 == v % 128
    ensures b >= 128 <==> flag
  {
    v % 128 + (if flag then 0x80 else 0)
  }

  function Pow2(n: nat): (p: nat)
    ensures p >= 1
  {
    if n == 0 then 1 else 2 * Pow2(n - 1)
  }

  /** The bit values a mask byte is built from. */
  lemma Pow2Byte()
    ensures Pow2(0) == 1 && Pow2(1) == 2 && Pow2(2) == 4 && Pow2(3) == 8
    ensures Pow2(4) == 16 && Pow2(5) == 32 && Pow2(6) == 64 && Pow2(7) == 128 && Pow2(8) == 256
  {
    assert Pow2(2) == 4;
    assert Pow2(4) == 16;
    assert Pow2(6) == 64;
  }

  /** Reduces an integer to the Java int with the same low 32 bits. */
  function Wrap32(x: int): (r: Int32)
    ensures (x - r) % 0x1_0000_0000 == 0
    ensures -0x8000_0000 <= x < 0x8000_0000 ==> r == x
  {
    (x + 0x8000_0000) % 0x1_0000_0000 - 0x8000_0000
  }

  /** Java `a << d` on int: the distance is masked to its low five bits and the
      result keeps the low 32 bits. */
  function ShiftLeft(a: Int32, d: int): (r: Int32)
    ensures a == 0 ==> r == 0
  {
    Wrap32(a * Pow2(d % 32))
  }

  /** The generated decoders' `payload[i] << 8 + payload[i + 1]` for a 16-bit
      field: `+` binds tighter than `<<`, so the signed high byte is shifted
      by 8 plus the signed low byte. */
  function Be16AsRead(hi: Byte, lo: Byte): (v: Int32)
    ensures hi == 0 ==> v == 0
  {
    ShiftLeft(Signed(hi), 8 + Signed(lo))
  }

  /** `(b & (1 << i)) != 0` for a bit position below 8. */
  predicate BitSet(b: Byte, i: nat)
    requires i < 8
  {
    (b / Pow2(i)) % 2 == 1
  }

  /** A set bit i means the byte is at least 2^i. */
  lemma BitSetAtLeast(b: Byte, i: nat)
    requires i < 8
    ensures BitSet(b, i) ==> Pow2(i) <= b
  {
    if b < Pow2(i) {
      DivUnique(b, Pow2(i), 0, b);
    }
  }

  /** A mask byte assembled from `flags[0..n)` by `mask |= flags[k] ? (1 << k) : 0`
      in ascending k; the bits are disjoint, so each `|=` adds its bit. */
  function Flags(flags: seq<bool>, n: nat): (m: nat)
    requires n <= |flags|
    ensures m < Pow2(n)
  {
    if n == 0 then 0 else Flags(flags, n - 1) + (if flags[n - 1] then Pow2(n - 1) else 0)
  }

  lemma DivUnique(x: int, d: int, q: int, r: int)
    requires d > 0 && x == q * d + r && 0 <= r < d
    ensures x / d == q
  {
    var q', r' := x / d, x % d;
    assert (q - q') * d == r' - r;
    if q > q' {
      MulAtLeast(q - q', d);
    } else if q < q' {
      MulAtLeast(q' - q, d);
    }
  }

  lemma MulAtLeast(a: int, d: int)
    requires a >= 1 && d > 0
    ensures a * d >= d
  {
  }

  /** Bit i of x + 2^k, for x < 2^k, is bit i of x below k, and set at k. */
  lemma {:induction false} BitOfTopAdd(x: nat, k: nat, i: nat)
    requires x < Pow2(k)
    ensures i < k ==> ((x + Pow2(k)) / Pow2(i)) % 2 == (x / Pow2(i)) % 2
    ensures i == k ==> ((x + Pow2(k)) / Pow2(i)) % 2 == 1 && (x / Pow2(i)) % 2 == 0
  {
    if i < k {
      PowSplit(i, k - i);
      PowEven(k - i);
      AddEvenMultiple(x, Pow2(i), Pow2(k - i));
    } else if i == k {
      DivUnique(x + Pow2(k), Pow2(k), 1, x);
      DivUnique(x, Pow2(k), 0, x);
    }
  }

  /** Adding an even multiple of p leaves the parity of the quotient by p. */
  lemma AddEvenMultiple(x: nat, p: nat, m: nat)
    requires p > 0 && m % 2 == 0
    ensures ((x + p * m) / p) % 2 == (x / p) % 2
  {
    var q, r := x / p, x % p;
    assert x + p * m == (q + m) * p + r;
    DivUnique(x + p * m, p, q + m, r);
  }

  lemma {:induction false} PowSplit(a: nat, b: nat)
    ensures Pow2(a + b) == Pow2(a) * Pow2(b)
  {
    if b > 0 {
      PowSplit(a, b - 1);
    }
  }

  lemma PowEven(n: nat)
    requires n > 0
    ensures Pow2(n) % 2 == 0
  {
  }

  /** Bit i of an assembled mask is set exactly when flag i was set. */
  lemma {:induction false} FlagsBit(flags: seq<bool>, n: nat, i: nat)
    requires n <= |flags| && n <= 8 && i < 8
    ensures Flags(flags, n) < 256
    ensures BitSet(Flags(flags, n), i) <==> i < n && flags[i]
  {
    PowMonotone(n, 8);
    if n > 0 {
      FlagsBit(flags, n - 1, i);
      var x := Flags(flags, n - 1);
      if flags[n - 1] {
        BitOfTopAdd(x, n - 1, i);
        if i > n - 1 {
          BitsAbove(x + Pow2(n - 1), n, i);
        }
      }
    } else {
      BitsAbove(0, 0, i);
    }
  }

  lemma {:induction false} PowMonotone(a: nat, b: nat)
    requires a <= b
    ensures Pow2(a) <= Pow2(b)
  {
    if a < b {
      PowMonotone(a, b - 1);
    }
  }

  /** A value below 2^n has no bit set at position n or above. */
  lemma BitsAbove(x: nat, n: nat, i: nat)
    requires x < Pow2(n) && n <= i
    ensures (x / Pow2(i)) % 2 == 0
  {
    PowMonotone(n, i);
    DivUnique(x, Pow2(i), 0, x);
  }

  /** The list a bitmask decoder builds: for every bit position k below n, in
      ascending order, whose bit is set in `mask`, the table's name for k, or
      null when the table has none. */
  function MaskList(name: int -> Option<string>, mask: seq<Byte>, n: nat): (l: seq<Value>)
    requires n <= |mask| * 8
    ensures |l| <= n
  {
    if n == 0 then []
    else
      MaskList(name, mask, n - 1)
      + (if BitSet(mask[(n - 1) / 8], (n - 1) % 8) then [NameOrNil(name(n - 1))] else [])
  }

  /** The list is empty exactly when no bit below n is set. */
  lemma {:induction false} MaskListEmpty(name: int -> Option<string>, mask: seq<Byte>, n: nat)
    requires n <= |mask| * 8
    ensures MaskList(name, mask, n) == [] <==> forall k :: 0 <= k < n ==> !BitSet(mask[k / 8], k % 8)
  {
    if n > 0 {
      MaskListEmpty(name, mask, n - 1);
    }
  }

  /** The table names, in ascending code order below n, that `names` contains. */
  function NamesIn(name: int -> Option<string>, names: seq<string>, n: nat): (l: seq<Value>)
    ensures |l| <= n
  {
    if n == 0 then []
    else
      NamesIn(name, names, n - 1)
      + (if name(n - 1).Some? && name(n - 1).value in names then [Str(name(n - 1).value)] else [])
  }

  /** When bit k of a mask is set exactly for the codes below n whose names are
      listed, decoding the mask lists those names in code order. */
  lemma {:induction false} MaskListOfNames(name: int -> Option<string>, mask: seq<Byte>, names: seq<string>, n: nat)
    requires n <= |mask| * 8
    requires forall k :: 0 <= k < n ==> (BitSet(mask[k / 8], k % 8) <==> name(k).Some? && name(k).value in names)
    ensures MaskList(name, mask, n) == NamesIn(name, names, n)
  {
    if n > 0 {
      MaskListOfNames(name, mask, names, n - 1);
    }
  }

  /** The loop of a bitmask decoder: every bit of payload[2..] in ascending
      order, adding the table's entry for each set bit. */
  method ReadBitMask(name: int -> Option<string>, payload: Frame) returns (l: seq<Value>)
    ensures |payload| < 2 ==> l == []
    ensures |payload| >= 2 ==> l == MaskList(name, payload[2..], (|payload| - 2) * 8)
  {
    var responseBitMask: seq<Value> := [];
    var cntBitMask := 0;
    while cntBitMask < (|payload| - 2) * 8
      invariant 0 <= cntBitMask
      invariant |payload| < 2 ==> cntBitMask == 0 && responseBitMask == []
      invariant |payload| >= 2 ==> cntBitMask <= (|payload| - 2) * 8
      invariant |payload| >= 2 ==> responseBitMask == MaskList(name, payload[2..], cntBitMask)
    {
      if BitSet(payload[2 + cntBitMask / 8], cntBitMask % 8) {
        responseBitMask := responseBitMask + [NameOrNil(name(cntBitMask))];
      }
      cntBitMask := cntBitMask + 1;
    }
    return responseBitMask;
  }

  /** A table lookup as the decoders store it: the name, or null. */
  function NameOrNil(n: Option<string>): (v: Value)
    ensures v.Str? || v.Nil?
  {
    match n
    case Some(s) => Str(s)
    case None => Nil
  }

  function HexDigit(d: int): (c: char)
    requires 0 <= d < 16
    ensures d < 10 ==> c == ('0' as int + d) as char
    ensures d >= 10 ==> c == ('A' as int + d - 10) as char
  {
    if d < 10 then ('0' as int + d) as char else ('A' as int + d - 10) as char
  }

  /** String.format("%02X", b) for a Java byte: two upper-case hexadecimal
      digits of its unsigned value. */
  function Hex2(b: Byte): (s: string)
    ensures |s| == 2
  {
    [HexDigit(b / 16), HexDigit(b % 16)]
  }

  /** The placeholder name a decoder stores for a code missing from its switch. */
  function Unknown(b: Byte): (s: string)
    ensures |s| == 10 && s[..8] == "UNKNOWN_"
  {
    "UNKNOWN_" + Hex2(b)
  }

  /** Distinct codes give distinct placeholders, so the raw code stays visible. */
  lemma UnknownInjective(a: Byte, b: Byte)
    ensures Unknown(a) == Unknown(b) ==> a == b
  {
    if Unknown(a) == Unknown(b) {
      assert Unknown(a)[8] == Unknown(b)[8] && Unknown(a)[9] == Unknown(b)[9];
      assert HexDigit(a / 16) == HexDigit(b / 16);
      assert HexDigit(a % 16) == HexDigit(b % 16);
    }
  }

  /** `UNKNOWN_FF` for the octet 0xFF (printed from a negative Java byte). */
  lemma UnknownExample()
    ensures Unknown(0xFF) == "UNKNOWN_FF" && Unknown(0x0A) == "UNKNOWN_0A"
  {
  }
}
