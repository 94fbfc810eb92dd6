/** Big-endian integers on the wire. Shifts and masks of disjoint bit fields are
    written as the arithmetic they perform. */
module Wire {

  type byte = b: int | 0 <= b < 256

  const TWO_32: int := 0x1_0000_0000

  predicate IsInt24(v: int) {
    -0x80_0000 <= v < 0x80_0000
  }

  /** `(byte)((v >> 16) & 0xff)` and so on: an arithmetic shift floors. */
  function Be24(v: int): (b: seq<byte>)
    ensures |b| == 3
  {
    [v / 0x1_0000 % 256, v / 256 % 256, v % 256]
  }

  function Be32(v: int): (b: seq<byte>)
    ensures |b| == 4
  {
    [v / 0x100_0000 % 256, v / 0x1_0000 % 256, v / 256 % 256, v % 256]
  }

  function Be16(v: int): (b: seq<byte>)
    ensures |b| == 2
  {
    [v / 256 % 256, v % 256]
  }

  function ReadBe32(b: seq<byte>): (v: int)
    requires |b| == 4
    ensures 0 <= v < TWO_32
  {
    var b0: int, b1: int, b2: int, b3: int := b[0], b[1], b[2], b[3];
    b0 * 0x100_0000 + b1 * 0x1_0000 + b2 * 256 + b3
  }

  function ReadBe16(b: seq<byte>): (v: int)
    requires |b| == 2
    ensures 0 <= v < 0x1_0000
  {
    var b0: int, b1: int := b[0], b[1];
    b0 * 256 + b1
  }

  /** The sign byte of the `sbyte` cast. */
  function Signed(b: int): int {
    if b < 128 then b else b - 256
  }

  /** The high byte read as signed, the others as unsigned. */
  function ReadInt24BigEndian(b: seq<byte>): int
    requires |b| == 3
  {
    var b0: int, b1: int, b2: int := b[0], b[1], b[2];
    Signed(b0) * 0x1_0000 + b1 * 256 + b2
  }

  /** Three bytes as an unsigned 24-bit field. */
  function Raw24(b: seq<byte>): int
    requires |b| == 3
  {
    var b0: int, b1: int, b2: int := b[0], b[1], b[2];
    b0 * 0x1_0000 + b1 * 256 + b2
  }

  /** The other decoder: assemble 24 bits, then extend bit 23. */
  function SignExtend24(raw: int): int {
    if raw / 0x80_0000 % 2 == 1 then raw - 0x100_0000 else raw
  }

  /** On the wire the most significant byte comes first, and a negative number is its
      two's complement. */
  lemma MostSignificantFirst(v: int)
    ensures var b := Be24(v);
            (b[0] as int * 0x1_0000 + b[1] as int * 0x100 + b[2] as int) % 0x100_0000 == v % 0x100_0000
    ensures var b := Be32(v);
            (b[0] as int * 0x100_0000 + b[1] as int * 0x1_0000 + b[2] as int * 0x100 + b[3] as int) % TWO_32 == v % TWO_32
    ensures var b := Be16(v); (b[0] as int * 0x100 + b[1] as int) % 0x1_0000 == v % 0x1_0000
  {
    var h, m := v / 0x1_0000, v / 256;
    assert m == 256 * h + m % 256;
    assert v == 256 * m + v % 256;
    assert h == 256 * (v / 0x100_0000) + h % 256;
  }

  /** Encoding and decoding 24-bit samples are inverse on all int24 values and all
      byte triples, and both decoders agree. */
  lemma Int24RoundTrip(v: int, b: seq<byte>)
    requires |b| == 3
    ensures IsInt24(v) ==> ReadInt24BigEndian(Be24(v)) == v
    ensures Be24(ReadInt24BigEndian(b)) == b && IsInt24(ReadInt24BigEndian(b))
    ensures SignExtend24(Raw24(b)) == ReadInt24BigEndian(b)
  {
    if IsInt24(v) {
      ValueRoundTrip(v);
    }
    BytesRoundTrip(b);
    DecodersAgree(b);
  }

  lemma ValueRoundTrip(v: int)
    requires IsInt24(v)
    ensures ReadInt24BigEndian(Be24(v)) == v
  {
    var hi, mid := v / 0x1_0000, v / 256;
    assert mid == 256 * hi + mid % 256;
    assert v == 256 * mid + v % 256;
    assert hi % 256 == if hi >= 0 then hi else hi + 256;
  }

  lemma BytesRoundTrip(b: seq<byte>)
    requires |b| == 3
    ensures Be24(ReadInt24BigEndian(b)) == b && IsInt24(ReadInt24BigEndian(b))
  {
    var b0: int, b1: int, b2: int := b[0], b[1], b[2];
    var w := ReadInt24BigEndian(b);
    assert w % 256 == b2;
    assert w / 256 == Signed(b0) * 256 + b1;
    assert w / 0x1_0000 == Signed(b0);
  }

  lemma DecodersAgree(b: seq<byte>)
    requires |b| == 3
    ensures SignExtend24(Raw24(b)) == ReadInt24BigEndian(b)
  {
    var b0: int := b[0];
    assert Raw24(b) / 0x80_0000 == b0 / 128;
  }

  lemma Be32RoundTrip(v: int)
    requires 0 <= v < TWO_32
    ensures ReadBe32(Be32(v)) == v
  {
    assert v / 0x1_0000 == 256 * (v / 0x100_0000) + v / 0x1_0000 % 256;
    assert v / 256 == 256 * (v / 0x1_0000) + v / 256 % 256;
  }
}
