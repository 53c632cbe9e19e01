/** Bytes and little-endian integers, as the packed structures of the firmware lay them out in memory. */
module LittleEndian {
  import opened Common

  type Byte = b: nat | b < 0x100
  type Bytes = seq<Byte>

  function Put16(x: uint16): (b: Bytes)
    ensures |b| == 2
  {
    [x % 0x100, x / 0x100]
  }

  function Put32(x: uint32): (b: Bytes)
    ensures |b| == 4
  {
    Put16(x % 0x1_0000) + Put16(x / 0x1_0000)
  }

  function Get16(b: Bytes, at: nat): uint16
    requires at + 2 <= |b|
  {
    var low: nat, high: nat := b[at], b[at + 1];
    low + 0x100 * high
  }

  function Get32(b: Bytes, at: nat): uint32
    requires at + 4 <= |b|
  {
    var low: nat, high: nat := Get16(b, at), Get16(b, at + 2);
    low + 0x1_0000 * high
  }

  /** Byte by byte, the lowest first. */
  lemma Put32Bytes(x: uint32)
    ensures Put32(x) == [x % 0x100, x / 0x100 % 0x100, x / 0x1_0000 % 0x100, x / 0x100_0000]
  {
    var low, high: nat := x % 0x1_0000, x / 0x1_0000;
    assert x == low + 0x1_0000 * high;
    assert low % 0x100 == x % 0x100 && low / 0x100 == x / 0x100 % 0x100;
    assert high / 0x100 == x / 0x100_0000;
  }

  lemma Get16OfPut(b: Bytes, at: nat, x: uint16)
    requires at + 2 <= |b|
    ensures b[at..at + 2] == Put16(x) <==> Get16(b, at) == x
  {
    assert b[at..at + 2] == [b[at], b[at + 1]];
  }

  /** Reading gives x back exactly from the four bytes that writing x makes. */
  lemma Get32OfPut(b: Bytes, at: nat, x: uint32)
    requires at + 4 <= |b|
    ensures b[at..at + 4] == Put32(x) <==> Get32(b, at) == x
  {
    var low: uint16, high: uint16 := x % 0x1_0000, x / 0x1_0000;
    Get16OfPut(b, at, low);
    Get16OfPut(b, at + 2, high);
    var w := b[at..at + 4];
    assert w == b[at..at + 2] + b[at + 2..at + 4];
    assert w == Put32(x) <==> b[at..at + 2] == Put16(low) && b[at + 2..at + 4] == Put16(high) by {
      assert w[..2] == b[at..at + 2] && w[2..] == b[at + 2..at + 4];
      assert Put32(x)[..2] == Put16(low) && Put32(x)[2..] == Put16(high);
    }
    Words(Get16(b, at), Get16(b, at + 2), low, high);
  }

  lemma Words(a: uint16, b: uint16, low: uint16, high: uint16)
    ensures a + 0x1_0000 * b == low + 0x1_0000 * high <==> a == low && b == high
  {
  }
}
