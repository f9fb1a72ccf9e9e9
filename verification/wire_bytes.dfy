/** Fixed-width unsigned integers and their byte orders. */
module WireBytes {
  type uint8 = x: nat | x < 256
  type uint16 = x: nat | x < 65536
  type uint32 = x: nat | x < 0x1_0000_0000
  type bytes = seq<uint8>

  function Uint16BE(x: uint16): (b: bytes)
    ensures |b| == 2
  {
    [x / 256, x % 256]
  }

  function Uint32BE(x: uint32): (b: bytes)
    ensures |b| == 4
  {
    Uint16BE(x / 65536) + Uint16BE(x % 65536)
  }

  function ReadUint16BE(b: bytes, at: nat): uint16
    requires at + 2 <= |b|
  {
    (b[at] as int) * 256 + b[at + 1]
  }

  function ReadUint32BE(b: bytes, at: nat): uint32
    requires at + 4 <= |b|
  {
    (ReadUint16BE(b, at) as int) * 65536 + ReadUint16BE(b, at + 2)
  }

  lemma ReadBack16(x: uint16, b: bytes, at: nat)
    requires at + 2 <= |b| && b[at..at + 2] == Uint16BE(x)
    ensures ReadUint16BE(b, at) == x
  {
    assert b[at] == b[at..at + 2][0] && b[at + 1] == b[at..at + 2][1];
  }

  lemma ReadBack32(x: uint32, b: bytes, at: nat)
    requires at + 4 <= |b| && b[at..at + 4] == Uint32BE(x)
    ensures ReadUint32BE(b, at) == x
  {
    assert b[at..at + 2] == b[at..at + 4][..2] == Uint16BE(x / 65536);
    assert b[at + 2..at + 4] == b[at..at + 4][2..] == Uint16BE(x % 65536);
    ReadBack16(x / 65536, b, at);
    ReadBack16(x % 65536, b, at + 2);
  }

  /** Two byte strings with the same value at a field hold the same bytes there. */
  lemma SameField16(b: bytes, at: nat)
    requires at + 2 <= |b|
    ensures Uint16BE(ReadUint16BE(b, at)) == b[at..at + 2]
  {
  }

  lemma SameField32(b: bytes, at: nat)
    requires at + 4 <= |b|
    ensures Uint32BE(ReadUint32BE(b, at)) == b[at..at + 4]
  {
    SameField16(b, at);
    SameField16(b, at + 2);
    assert b[at..at + 4] == b[at..at + 2] + b[at + 2..at + 4];
  }
}
