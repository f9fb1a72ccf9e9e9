/** The bottom-up BMP image made from a top-down frame of 4-byte pixels: a 54-byte header, then the rows of
    the frame from the last to the first. Sizes are 32-bit unsigned. */
module BmpWriter {
  import opened WireBytes
  import OpenMessage

  const UINT_RANGE := 0x1_0000_0000
  const BMP_HEADER_SIZE := 54
  const DIB_HEADER_SIZE := 40
  const DIB_BITS_PER_PIXEL := 32

  function Unsigned32(n: nat): uint32
  {
    n % UINT_RANGE
  }

  function SrcRowSize(width: uint32): uint32
  {
    Unsigned32(DIB_BITS_PER_PIXEL * width) / 8
  }

  /** Rows padded to 32 bits. */
  function DestRowSize(width: uint32): uint32
  {
    Unsigned32(Unsigned32(Unsigned32(DIB_BITS_PER_PIXEL * width) + 31) / 32 * 4)
  }

  function ImageSize(width: uint32, height: uint32): uint32
  {
    Unsigned32(DestRowSize(width) * height)
  }

  /** Four-byte pixels need no padding, whatever the width, also when the products wrap. */
  lemma NoPadding(width: uint32)
    ensures DestRowSize(width) == SrcRowSize(width)
    ensures 32 * width < UINT_RANGE ==> SrcRowSize(width) == 4 * width
    ensures SrcRowSize(width) == 4 * (width % 0x800_0000)
    ensures SrcRowSize(width) == 0 <==> width % 0x800_0000 == 0
  {
    var k := width / 0x800_0000;
    assert 32 * width == 32 * (width % 0x800_0000) + k * UINT_RANGE;
    Wraps(32 * (width % 0x800_0000), k);
  }

  lemma Wraps(n: nat, k: nat)
    requires n < UINT_RANGE
    ensures Unsigned32(n + k * UINT_RANGE) == n
  {
  }

  // ----- Rows -----

  predicate WholeRows(n: nat, row: nat)
  {
    row > 0 && n % row == 0
  }

  /** The rows of a frame in reverse order. */
  function FlipRows(s: bytes, row: nat): (r: bytes)
    requires WholeRows(|s|, row)
    ensures |r| == |s|
  {
    if s == [] then []
    else
      RestDivides(s, row);
      FlipRows(s[row..], row) + s[..row]
  }

  lemma RestDivides(s: bytes, row: nat)
    requires WholeRows(|s|, row) && s != []
    ensures row <= |s| && WholeRows(|s| - row, row)
  {
    var n := |s| / row;
    assert |s| == n * row;
    if n == 0 { assert false; }
    assert |s| - row == (n - 1) * row;
    Divides(n - 1, row);
  }

  lemma Divides(n: nat, row: nat)
    requires row > 0
    ensures (n * row) % row == 0 && (n * row) / row == n
  {
    if n > 0 {
      Divides(n - 1, row);
      assert n * row == (n - 1) * row + row;
      NextMultiple((n - 1) * row, row);
    }
  }

  lemma NextMultiple(n: nat, row: nat)
    requires row > 0
    ensures (n + row) % row == n % row && (n + row) / row == n / row + 1
  {
    var q, r := n / row, n % row;
    assert n + row == (q + 1) * row + r;
    QuotientIs(n + row, row, q + 1, r);
  }

  lemma QuotientIs(n: nat, row: nat, q: nat, r: nat)
    requires row > 0 && n == q * row + r && r < row
    ensures n / row == q && n % row == r
  {
    Remainder(n, row);
    var d := q - n / row;
    Distribute(n / row, d, row);
    AtLeast(d, row);
  }

  lemma Remainder(n: nat, row: nat)
    requires row > 0
    ensures n == (n / row) * row + n % row
  {
  }

  lemma Distribute(a: int, b: int, row: nat)
    ensures (a + b) * row == a * row + b * row
  {
  }

  lemma AtLeast(d: int, row: nat)
    ensures d >= 1 ==> d * row >= row
    ensures d <= -1 ==> d * row + row <= 0
  {
    if d >= 1 { Distribute(1, d - 1, row); }
    if d <= -1 { Distribute(-1, d + 1, row); }
  }

  lemma SumDivides(a: nat, b: nat, row: nat)
    requires WholeRows(a, row) && WholeRows(b, row)
    ensures WholeRows(a + b, row)
  {
    assert a + b == (a / row + b / row) * row;
    Divides(a / row + b / row, row);
  }

  lemma {:induction false} FlipAppend(a: bytes, b: bytes, row: nat)
    requires WholeRows(|a|, row) && WholeRows(|b|, row)
    ensures WholeRows(|a + b|, row)
    ensures FlipRows(a + b, row) == FlipRows(b, row) + FlipRows(a, row)
    decreases |a|
  {
    SumDivides(|a|, |b|, row);
    if a == [] {
      assert a + b == b;
    } else {
      RestDivides(a, row);
      FlipAppend(a[row..], b, row);
      assert (a + b)[row..] == a[row..] + b && (a + b)[..row] == a[..row];
    }
  }

  lemma FlipOneRow(s: bytes, row: nat)
    requires row > 0 && |s| == row
    ensures WholeRows(row, row) && FlipRows(s, row) == s
  {
    Divides(1, row);
    assert s[row..] == [] && s[..row] == s;
  }

  /** Flipping a second time gives the frame back. */
  lemma {:induction false} FlipTwice(s: bytes, row: nat)
    requires WholeRows(|s|, row)
    ensures FlipRows(FlipRows(s, row), row) == s
    decreases |s|
  {
    if s != [] {
      RestDivides(s, row);
      var rest, first := s[row..], s[..row];
      FlipOneRow(first, row);
      FlipAppend(FlipRows(rest, row), first, row);
      FlipTwice(rest, row);
      assert s == first + rest;
    }
  }

  lemma FlipSplit(s: bytes, row: nat, j: nat)
    requires WholeRows(|s|, row) && j < |s|
    ensures row <= |s| && WholeRows(|s| - row, row)
    ensures FlipRows(s, row)[j] == if j < |s| - row then FlipRows(s[row..], row)[j] else s[j - (|s| - row)]
  {
    RestDivides(s, row);
  }

  /** Every byte goes to the same place in the mirrored row. */
  lemma {:induction false} FlippedAt(s: bytes, row: nat, rows: nat, x: nat, y: nat)
    requires row > 0 && |s| == rows * row && x < row && y < rows
    ensures WholeRows(|s|, row)
    ensures 0 <= (rows - 1 - y) * row + x < |s| && 0 <= y * row + x < |s|
    ensures FlipRows(s, row)[(rows - 1 - y) * row + x] == s[y * row + x]
    decreases rows
  {
    hide FlipRows;
    Divides(rows, row);
    InRange(row, rows, x, y);
    InRange(row, rows, x, rows - 1 - y);
    var rest, j := s[row..], (rows - 1 - y) * row + x;
    FlipSplit(s, row, j);
    hide WholeRows;
    Distribute(rows - 1, 1, row);
    Distribute(y - 1, 1, row);
    if y > 0 {
      FlippedAt(rest, row, rows - 1, x, y - 1);
      assert (rows - 1) - 1 - (y - 1) == rows - 1 - y;
    }
  }

  lemma InRange(row: nat, rows: nat, x: nat, y: nat)
    requires x < row && y < rows
    ensures 0 <= y * row + x < rows * row
  {
    Distribute(rows - 1 - y, y + 1, row);
    Distribute(y, 1, row);
    assert (rows - 1 - y) * row >= 0;
  }

  // ----- The header -----

  function Uint16LE(x: uint16): (b: bytes)
    ensures |b| == 2
  {
    [x % 256, x / 256]
  }

  function Uint32LE(x: uint32): (b: bytes)
    ensures |b| == 4
  {
    Uint16LE(x % 65536) + Uint16LE(x / 65536)
  }

  function ReadUint32LE(b: bytes, at: nat): uint32
    requires at + 4 <= |b|
  {
    (b[at] as int) + (b[at + 1] as int) * 256 + (b[at + 2] as int) * 65536 + (b[at + 3] as int) * 0x100_0000
  }

  function FileHeader(size: uint32): (b: bytes)
    ensures |b| == 14
  {
    [66, 77] + Uint32LE(size) + Uint16LE(0) + Uint16LE(0) + Uint32LE(BMP_HEADER_SIZE)
  }

  function DibPicture(width: uint32, height: uint32): (b: bytes)
    ensures |b| == 16
  {
    Uint32LE(DIB_HEADER_SIZE) + Uint32LE(width) + Uint32LE(height) + Uint16LE(1) + Uint16LE(DIB_BITS_PER_PIXEL)
  }

  function DibPixels(size: uint32): (b: bytes)
    ensures |b| == 24
  {
    Uint32LE(0) + Uint32LE(size) + Uint32LE(0) + Uint32LE(0) + Uint32LE(0) + Uint32LE(0)
  }

  function DibHeader(width: uint32, height: uint32, size: uint32): (b: bytes)
    ensures |b| == 40
  {
    DibPicture(width, height) + DibPixels(size)
  }

  function BmpHeader(width: uint32, height: uint32): (b: bytes)
    ensures |b| == BMP_HEADER_SIZE
  {
    var size := ImageSize(width, height);
    FileHeader(Unsigned32(BMP_HEADER_SIZE + size)) + DibHeader(width, height, size)
  }

  lemma ReadBack(x: uint32, b: bytes, at: nat)
    requires at + 4 <= |b| && b[at..at + 4] == Uint32LE(x)
    ensures ReadUint32LE(b, at) == x
  {
    var field := b[at..at + 4];
    assert b[at] == field[0] && b[at + 1] == field[1] && b[at + 2] == field[2] && b[at + 3] == field[3];
  }

  lemma LowByteFirst(b: bytes, at: nat)
    requires at + 4 <= |b|
    ensures ReadUint32LE(b, at)
         == b[at] as int + b[at + 1] as int * 0x100 + b[at + 2] as int * 0x1_0000 + b[at + 3] as int * 0x100_0000
  {
  }

  lemma HeaderFields(width: uint32, height: uint32)
    ensures var b := BmpHeader(width, height);
      && ReadUint32LE(b, 2) == Unsigned32(54 + ImageSize(width, height)) && ReadUint32LE(b, 10) == 54
      && ReadUint32LE(b, 18) == width && ReadUint32LE(b, 22) == height && ReadUint32LE(b, 34) == ImageSize(width, height)
      && width == b[18] as int + b[19] as int * 0x100 + b[20] as int * 0x1_0000 + b[21] as int * 0x100_0000
  {
    hide Uint32LE, Uint16LE, ReadUint32LE, ImageSize, Unsigned32;
    var b, size := BmpHeader(width, height), ImageSize(width, height);
    assert b[2..6] == Uint32LE(Unsigned32(BMP_HEADER_SIZE + size));
    ReadBack(Unsigned32(BMP_HEADER_SIZE + size), b, 2);
    assert b[10..14] == Uint32LE(BMP_HEADER_SIZE);
    ReadBack(BMP_HEADER_SIZE, b, 10);
    assert b[18..22] == Uint32LE(width);
    ReadBack(width, b, 18);
    LowByteFirst(b, 18);
    assert b[22..26] == Uint32LE(height);
    ReadBack(height, b, 22);
    assert b[34..38] == Uint32LE(size);
    ReadBack(size, b, 34);
  }

  /** The bytes that do not depend on the picture: "BM", a 40-byte header, one plane, 32 bits, and zeros. */
  lemma FixedFields(width: uint32, height: uint32)
    ensures var b := BmpHeader(width, height);
      && |b| == 54 && b[0] == 66 && b[1] == 77 && ReadUint32LE(b, 14) == 40 && b[26..30] == [1, 0, 32, 0]
      && forall i :: 6 <= i < 10 || 30 <= i < 34 || 38 <= i < 54 ==> b[i] == 0
  {
    hide ImageSize, Unsigned32;
    var b := BmpHeader(width, height);
    assert b[14..18] == Uint32LE(DIB_HEADER_SIZE);
    ReadBack(DIB_HEADER_SIZE, b, 14);
  }

  /** The whole image of a frame. */
  function BmpImage(frame: bytes, width: uint32, height: uint32): bytes
    requires WholeRows(|frame|, SrcRowSize(width))
  {
    BmpHeader(width, height) + FlipRows(frame, SrcRowSize(width))
  }

  /** The header tells the sizes of the file, of the pixels and of the picture, and where the pixels begin. */
  predicate TellsSizes(image: bytes, frame: bytes, width: uint32, height: uint32)
    requires |image| >= BMP_HEADER_SIZE
  {
    && ReadUint32LE(image, 2) == |image| && ReadUint32LE(image, 34) == |frame|
    && ReadUint32LE(image, 18) == width && ReadUint32LE(image, 22) == height && ReadUint32LE(image, 10) == BMP_HEADER_SIZE
  }

  /** For whole rows the frame can be had back from the image. */
  lemma FrameComesBack(frame: bytes, width: uint32, height: uint32)
    requires WholeRows(|frame|, SrcRowSize(width)) && BMP_HEADER_SIZE + |frame| < UINT_RANGE
    ensures var image := BmpImage(frame, width, height);
      && |image| == BMP_HEADER_SIZE + |frame|
      && FlipRows(image[BMP_HEADER_SIZE..], SrcRowSize(width)) == frame
      && (TellsSizes(image, frame, width, height) <==> ImageSize(width, height) == |frame|)
  {
    hide SrcRowSize, DestRowSize, ImageSize, BmpHeader, FlipRows, TellsSizes;
    var header, flipped := BmpHeader(width, height), FlipRows(frame, SrcRowSize(width));
    assert (header + flipped)[BMP_HEADER_SIZE..] == flipped;
    FlipTwice(frame, SrcRowSize(width));
    HeaderFields(width, height);
    Telling(header, flipped, frame, width, height, ImageSize(width, height));
  }

  lemma Telling(header: bytes, flipped: bytes, frame: bytes, width: uint32, height: uint32, size: uint32)
    requires |header| == BMP_HEADER_SIZE && |flipped| == |frame| && BMP_HEADER_SIZE + |frame| < UINT_RANGE
    requires ReadUint32LE(header, 2) == Unsigned32(BMP_HEADER_SIZE + size) && ReadUint32LE(header, 10) == BMP_HEADER_SIZE
    requires ReadUint32LE(header, 18) == width && ReadUint32LE(header, 22) == height && ReadUint32LE(header, 34) == size
    ensures TellsSizes(header + flipped, frame, width, height) <==> size == |frame|
  {
    hide ReadUint32LE;
    SameField(header, header + flipped, 2);
    SameField(header, header + flipped, 10);
    SameField(header, header + flipped, 18);
    SameField(header, header + flipped, 22);
    SameField(header, header + flipped, 34);
  }

  /** For a frame of exactly its pixels the header is right if and only if the bits of a row are counted
      without overflow. */
  lemma HeaderRightIff(frame: bytes, width: uint32, height: uint32, size: nat)
    requires |frame| == size == 4 * width * height && height > 0 && BMP_HEADER_SIZE + size < UINT_RANGE
    requires WholeRows(size, SrcRowSize(width))
    ensures TellsSizes(BmpImage(frame, width, height), frame, width, height) <==> 32 * width < UINT_RANGE
  {
    RowsMakeSize(width, height, size);
    hide SrcRowSize, DestRowSize, ImageSize, BmpImage, FlipRows, TellsSizes;
    FrameComesBack(frame, width, height);
  }

  lemma RowsMakeSize(width: uint32, height: uint32, size: nat)
    requires size == 4 * width * height && height > 0 && size < UINT_RANGE && SrcRowSize(width) > 0
    ensures ImageSize(width, height) == size <==> 32 * width < UINT_RANGE
  {
    NoPadding(width);
    var row: nat := DestRowSize(width);
    var w: nat := 4 * width;
    if 32 * width < UINT_RANGE {
      SizeIsExact(width, height, size);
    } else {
      hide SrcRowSize, DestRowSize;
      assert row < w;
      Smaller(row, w, height);
      assert w * height == size;
      assert ImageSize(width, height) == Unsigned32(row * height);
    }
  }

  lemma Smaller(a: nat, b: nat, n: nat)
    requires a < b && n > 0
    ensures a * n < b * n
  {
    Distribute(a, b - a, n);
    AtLeast(b - a, n);
  }

  /** For a frame of exactly its pixels, and without overflow, all is right. */
  lemma ImageIsRight(frame: bytes, width: uint32, height: uint32, size: nat)
    requires width > 0 && 32 * width < UINT_RANGE && size == 4 * width * height && BMP_HEADER_SIZE + size < UINT_RANGE
    requires |frame| == size
    ensures SrcRowSize(width) == 4 * width && WholeRows(size, SrcRowSize(width))
    ensures var image := BmpImage(frame, width, height);
      |image| == BMP_HEADER_SIZE + size && TellsSizes(image, frame, width, height)
  {
    SizeIsExact(width, height, size);
    hide SrcRowSize, DestRowSize, ImageSize, BmpImage, FlipRows, TellsSizes;
    FrameComesBack(frame, width, height);
  }

  lemma SameField(b: bytes, c: bytes, at: nat)
    requires at + 4 <= |b| <= |c| && forall i :: 0 <= i < |b| ==> b[i] == c[i]
    ensures ReadUint32LE(b, at) == ReadUint32LE(c, at)
  {
  }

  lemma SizeIsExact(width: uint32, height: uint32, size: nat)
    requires width > 0 && 32 * width < UINT_RANGE && size == 4 * width * height && size < UINT_RANGE
    ensures ImageSize(width, height) == size && SrcRowSize(width) == 4 * width && WholeRows(size, SrcRowSize(width))
  {
    NoPadding(width);
    Divides(height, 4 * width);
    assert height * (4 * width) == size == DestRowSize(width) * height;
  }

  // ----- The positions of the loop -----

  /** Where the loop reads next, from the beginning of the frame, and where it wrote last, from that of the
      image; the latter can leave the image. */
  datatype Positions = Positions(src: nat, dest: int)

  function AfterTurns(turns: nat, total: nat, row: nat): Positions
  {
    if turns == 0 then Positions(0, total)
    else
      var before := AfterTurns(turns - 1, total, row);
      Positions(before.src + row, before.dest - row)
  }

  /** The loop has come to its end after so many turns. */
  predicate IsOver(turns: nat, size: nat, row: nat)
  {
    AfterTurns(turns, BMP_HEADER_SIZE + size, row).src >= size
  }

  lemma {:induction false} PositionsAre(turns: nat, total: nat, row: nat)
    ensures AfterTurns(turns, total, row) == Positions(turns * row, total - turns * row)
  {
    if turns > 0 {
      PositionsAre(turns - 1, total, row);
      Distribute(turns - 1, 1, row);
    }
  }

  /** The loop ends if and only if the frame is empty or the rows have a size, that is, if the width is not
      a multiple of 2^27. It does not for the width 0 that stands for caps without dimensions. */
  lemma LoopEndsIff(size: nat, width: uint32)
    ensures (exists turns: nat :: IsOver(turns, size, SrcRowSize(width))) <==> size == 0 || width % 0x800_0000 != 0
  {
    NoPadding(width);
    hide SrcRowSize;
    var row := SrcRowSize(width);
    if size == 0 {
      assert IsOver(0, size, row);
    } else if row > 0 {
      OverInTime(size, row);
    } else {
      forall turns: nat ensures !IsOver(turns, size, row) { PositionsAre(turns, BMP_HEADER_SIZE + size, row); }
    }
  }

  lemma OverInTime(size: nat, row: nat)
    requires row > 0
    ensures IsOver(size, size, row)
  {
    PositionsAre(size, BMP_HEADER_SIZE + size, row);
    Distribute(1, row - 1, size);
    assert (row - 1) * size >= 0;
  }

  /** When it ends, its last row is behind the header if and only if whole rows fill the frame. */
  lemma HeaderIsSafeIff(turns: nat, size: nat, row: nat)
    requires row > 0 && IsOver(turns, size, row) && (turns > 0 ==> !IsOver(turns - 1, size, row))
    ensures AfterTurns(turns, BMP_HEADER_SIZE + size, row).dest >= BMP_HEADER_SIZE <==> WholeRows(size, row)
  {
    var at, total := turns * row, BMP_HEADER_SIZE + size;
    PositionsAre(turns, total, row);
    Divides(turns, row);
    hide WholeRows;
    if turns > 0 {
      var previous := (turns - 1) * row;
      PositionsAre(turns - 1, total, row);
      Divides(turns - 1, row);
      Distribute(turns - 1, 1, row);
      assert WholeRows(at, row) && WholeRows(previous, row) by { MultipleIsWhole(turns, row); MultipleIsWhole(turns - 1, row); }
      LastRowFitsIff(previous, size, row);
    } else {
      MultipleIsWhole(0, row);
    }
  }

  lemma MultipleIsWhole(n: nat, row: nat)
    requires row > 0
    ensures WholeRows(n * row, row)
  {
    Divides(n, row);
  }

  lemma LastRowFitsIff(previous: nat, size: nat, row: nat)
    requires WholeRows(previous, row) && WholeRows(previous + row, row) && previous < size <= previous + row
    ensures previous + row <= size <==> WholeRows(size, row)
  {
    if WholeRows(size, row) { WholeRowsLeft(size, previous, row); }
  }

  // ----- The writer -----

  /** Writes bytes at a position and moves it on. */
  method Put(image: array<uint8>, at: nat, b: bytes) returns (next: nat)
    requires at + |b| <= image.Length
    modifies image
    ensures next == at + |b|
    ensures image[..next] == old(image[..at]) + b && forall i :: next <= i < image.Length ==> image[i] == old(image[i])
  {
    OpenMessage.Memcpy(image, at, b);
    next := at + |b|;
  }

  method FillFileHeader(image: array<uint8>, size: uint32) returns (at: nat)
    requires image.Length >= 14
    modifies image
    ensures at == 14 && image[..14] == FileHeader(size) && forall i :: 14 <= i < image.Length ==> image[i] == old(image[i])
  {
    hide Uint16LE, Uint32LE;
    at := Put(image, 0, [66, 77]);
    at := Put(image, at, Uint32LE(size));
    at := Put(image, at, Uint16LE(0));
    at := Put(image, at, Uint16LE(0));
    at := Put(image, at, Uint32LE(BMP_HEADER_SIZE));
  }

  method FillDibPicture(image: array<uint8>, start: nat, width: uint32, height: uint32) returns (at: nat)
    requires start + 16 <= image.Length
    modifies image
    ensures at == start + 16 && image[..at] == old(image[..start]) + DibPicture(width, height)
    ensures forall i :: at <= i < image.Length ==> image[i] == old(image[i])
  {
    hide Uint16LE, Uint32LE;
    at := Put(image, start, Uint32LE(DIB_HEADER_SIZE));
    at := Put(image, at, Uint32LE(width));
    at := Put(image, at, Uint32LE(height));
    at := Put(image, at, Uint16LE(1));
    at := Put(image, at, Uint16LE(DIB_BITS_PER_PIXEL));
    assert image[..at] == old(image[..start]) + DibPicture(width, height);
  }

  method FillDibPixels(image: array<uint8>, start: nat, size: uint32) returns (at: nat)
    requires start + 24 <= image.Length
    modifies image
    ensures at == start + 24 && image[..at] == old(image[..start]) + DibPixels(size)
    ensures forall i :: at <= i < image.Length ==> image[i] == old(image[i])
  {
    hide Uint16LE, Uint32LE;
    at := Put(image, start, Uint32LE(0));
    at := Put(image, at, Uint32LE(size));
    at := Put(image, at, Uint32LE(0));
    at := Put(image, at, Uint32LE(0));
    at := Put(image, at, Uint32LE(0));
    at := Put(image, at, Uint32LE(0));
    assert image[..at] == old(image[..start]) + DibPixels(size);
  }

  method FillBmpHeader(image: array<uint8>, width: uint32, height: uint32)
    requires image.Length >= BMP_HEADER_SIZE
    modifies image
    ensures image[..BMP_HEADER_SIZE] == BmpHeader(width, height)
    ensures forall i :: BMP_HEADER_SIZE <= i < image.Length ==> image[i] == old(image[i])
  {
    hide FileHeader, DibPicture, DibPixels, ImageSize, DestRowSize;
    var size := ImageSize(width, height);
    var at := FillFileHeader(image, Unsigned32(BMP_HEADER_SIZE + size));
    at := FillDibPicture(image, at, width, height);
    at := FillDibPixels(image, at, size);
    assert image[..at] == FileHeader(Unsigned32(BMP_HEADER_SIZE + size)) + DibHeader(width, height, size);
  }

  /** _owr_image_renderer_pull_bmp_image, from the mapped frame on. Whole rows must fill a frame that is
      copied, which the source leaves to the caps negotiation: LoopEndsIff and HeaderIsSafeIff say what its
      loop does with others. */
  method PullBmpImage(frame: array<uint8>, width: uint32, height: uint32, disabled: bool) returns (image: array<uint8>)
    requires BMP_HEADER_SIZE + frame.Length < UINT_RANGE
    requires disabled || frame.Length == 0 || WholeRows(frame.Length, SrcRowSize(width))
    ensures fresh(image) && frame[..] == old(frame[..])
    ensures !disabled && frame.Length > 0 ==> image[..] == BmpImage(frame[..], width, height)
    ensures !disabled && frame.Length == 0 ==> image[..] == BmpHeader(width, height)
    ensures disabled ==> image[..] == BmpHeader(width, height) + seq(frame.Length, _ => 0)
  {
    hide BmpHeader;
    var totalSize := BMP_HEADER_SIZE + frame.Length;
    image := new uint8[totalSize];
    if disabled {
      Clear(image);
    }
    FillBmpHeader(image, width, height);
    if disabled {
      assert image[..] == image[..BMP_HEADER_SIZE] + image[BMP_HEADER_SIZE..];
      return;
    }
    if frame.Length > 0 {
      CopyRows(frame, image, width);
    }
    assert image[..] == image[..BMP_HEADER_SIZE] + image[BMP_HEADER_SIZE..];
  }

  method Clear(image: array<uint8>)
    modifies image
    ensures forall i :: 0 <= i < image.Length ==> image[i] == 0
  {
    var i := 0;
    while i < image.Length
      invariant 0 <= i <= image.Length && forall k :: 0 <= k < i ==> image[k] == 0
    {
      image[i] := 0;
      i := i + 1;
    }
  }

  /** The loop: the source position moves up by rows, the destination comes down from the end. */
  method CopyRows(frame: array<uint8>, image: array<uint8>, width: uint32)
    requires frame != image && image.Length == BMP_HEADER_SIZE + frame.Length
    requires WholeRows(frame.Length, SrcRowSize(width))
    modifies image
    ensures image[..BMP_HEADER_SIZE] == old(image[..BMP_HEADER_SIZE])
    ensures image[BMP_HEADER_SIZE..] == FlipRows(frame[..], SrcRowSize(width))
  {
    NoPadding(width);
    var srcRowSize, destRowSize := SrcRowSize(width), DestRowSize(width);
    assert WholeRows(0, srcRowSize) && FlipRows([], srcRowSize) == [];
    hide SrcRowSize, DestRowSize, WholeRows, FlipRows;
    var src, dest := 0, image.Length;
    ghost var turns := 0;
    assert frame[..0] == [] && image[dest..] == [];
    while src < frame.Length
      invariant src <= frame.Length && WholeRows(src, srcRowSize) && dest == image.Length - src
      invariant image[..BMP_HEADER_SIZE] == old(image[..BMP_HEADER_SIZE])
      invariant image[dest..] == FlipRows(frame[..src], srcRowSize)
      invariant AfterTurns(turns, image.Length, srcRowSize) == Positions(src, dest)
      decreases frame.Length - src
    {
      NextRow(frame[..], src, srcRowSize);
      dest := dest - destRowSize;
      CopyRow(frame, image, src, dest, srcRowSize);
      src := src + srcRowSize;
      turns := turns + 1;
    }
    assert frame[..src] == frame[..];
  }

  method CopyRow(frame: array<uint8>, image: array<uint8>, src: nat, dest: nat, row: nat)
    requires frame != image && src + row <= frame.Length && BMP_HEADER_SIZE <= dest && dest + row <= image.Length
    modifies image
    ensures image[dest..] == frame[src..src + row] + old(image[dest + row..])
    ensures image[..BMP_HEADER_SIZE] == old(image[..BMP_HEADER_SIZE])
  {
    OpenMessage.Memcpy(image, dest, frame[src..src + row]);
  }

  lemma NextRow(s: bytes, at: nat, row: nat)
    requires at < |s| && WholeRows(at, row) && WholeRows(|s|, row)
    ensures at + row <= |s| && WholeRows(at + row, row)
    ensures FlipRows(s[..at + row], row) == s[at..at + row] + FlipRows(s[..at], row)
  {
    WholeRowsLeft(|s|, at, row);
    FlipOneRow(s[at..at + row], row);
    FlipAppend(s[..at], s[at..at + row], row);
    assert s[..at] + s[at..at + row] == s[..at + row];
  }

  lemma WholeRowsLeft(n: nat, at: nat, row: nat)
    requires at < n && WholeRows(at, row) && WholeRows(n, row)
    ensures at + row <= n && WholeRows(at + row, row)
  {
    NextMultiple(at, row);
    Remainder(n, row);
    Remainder(at, row);
    Distribute(at / row, n / row - at / row, row);
    AtLeast(n / row - at / row, row);
  }
}
