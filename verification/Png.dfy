/** Building a PNG file: chunks with their length and checksum, and the image's filtered scanlines. */
module Png {
  import opened Wrappers
  import opened Bytes
  import opened Crc

  const WIDTH: nat := 1_000
  const HEIGHT: nat := 300
  const ROW: nat := WIDTH * 3

  // ---- 32-bit numbers, most significant byte first ----

  lemma IncrementedValue(b: Byte)
    requires b != 255
    ensures (b + 1) as int == b as int + 1
  {
  }

  /** The byte of that value. */
  function ByteOf(x: nat): (b: Byte)
    requires x < 0x100
    ensures b as int == x
  {
    if x == 0 then 0
    else
      IncrementedValue(ByteOf(x - 1));
      ByteOf(x - 1) + 1
  }

  function BigEndian(n: nat): (bytes: seq<Byte>)
    requires n < 0x1_0000_0000
    ensures |bytes| == 4
  {
    [ByteOf(n / 0x100_0000), ByteOf(n / 0x1_0000 % 0x100), ByteOf(n / 0x100 % 0x100), ByteOf(n % 0x100)]
  }

  function Value(bytes: seq<Byte>): (n: nat)
    requires |bytes| == 4
  {
    (bytes[0] as int) * 0x100_0000 + (bytes[1] as int) * 0x1_0000 + (bytes[2] as int) * 0x100 + (bytes[3] as int)
  }

  lemma Digits(n: nat)
    requires n < 0x1_0000_0000
    ensures n / 0x100_0000 * 0x100_0000 + n / 0x1_0000 % 0x100 * 0x1_0000 + n / 0x100 % 0x100 * 0x100 + n % 0x100 == n
  {
    var a, b := n / 0x100, n / 0x1_0000;
    assert b == a / 0x100 && n / 0x100_0000 == b / 0x100;
    assert n == a * 0x100 + n % 0x100 && a == b * 0x100 + a % 0x100 && b == b / 0x100 * 0x100 + b % 0x100;
  }

  lemma ValueOfFour(bytes: seq<Byte>, a: nat, b: nat, c: nat, d: nat)
    requires |bytes| == 4 && bytes[0] as int == a && bytes[1] as int == b && bytes[2] as int == c && bytes[3] as int == d
    ensures Value(bytes) == a * 0x100_0000 + b * 0x1_0000 + c * 0x100 + d
  {
  }

  lemma ValueOfBigEndian(n: nat)
    requires n < 0x1_0000_0000
    ensures Value(BigEndian(n)) == n
  {
    Digits(n);
    ValueOfFour(BigEndian(n), n / 0x100_0000, n / 0x1_0000 % 0x100, n / 0x100 % 0x100, n % 0x100);
  }

  function WordBytes(w: bv32): (bytes: seq<Byte>)
    ensures |bytes| == 4
  {
    [(w >> 24) as Byte, ((w >> 16) & 0xFF) as Byte, ((w >> 8) & 0xFF) as Byte, (w & 0xFF) as Byte]
  }

  lemma WordBytesApart(a: bv32, b: bv32)
    ensures WordBytes(a) == WordBytes(b) ==> a == b
  {
    if WordBytes(a) == WordBytes(b) {
      assert WordBytes(a)[0] == WordBytes(b)[0] && WordBytes(a)[1] == WordBytes(b)[1];
      assert WordBytes(a)[2] == WordBytes(b)[2] && WordBytes(a)[3] == WordBytes(b)[3];
    }
  }

  // ---- chunks: section 3.2 of RFC 2083 ----

  datatype Chunk = Chunk(kind: seq<Byte>, data: seq<Byte>)

  predicate Fits(c: Chunk) {
    |c.kind| == 4 && |c.data| < 0x1_0000_0000
  }

  /** A length that does not fit 32 bits would wrap around. */
  function EncodeChunk(c: Chunk): seq<Byte> {
    BigEndian(|c.data| % 0x1_0000_0000) + c.kind + c.data + WordBytes(Checksum(c.kind + c.data))
  }

  predicate SumIsRight(bytes: seq<Byte>, n: nat)
    requires 12 + n <= |bytes|
  {
    bytes[8 + n..12 + n] == WordBytes(Checksum(bytes[4..8 + n]))
  }

  /** The first chunk of the bytes, if it is complete and its checksum is right. */
  function DecodeChunk(bytes: seq<Byte>): Option<Chunk> {
    if |bytes| < 12 then None
    else
      var n := Value(bytes[..4]);
      if 12 + n <= |bytes| && SumIsRight(bytes, n) then Some(Chunk(bytes[4..8], bytes[8..8 + n])) else None
  }

  function DecodeChunks(bytes: seq<Byte>): Option<seq<Chunk>> {
    if bytes == [] then Some([])
    else
      var first := DecodeChunk(bytes);
      if first.None? then None
      else
        var rest := DecodeChunks(bytes[12 + |first.value.data|..]);
        if rest.None? then None else Some([first.value] + rest.value)
  }

  function EncodeEach(chunks: seq<Chunk>): seq<seq<Byte>> {
    seq(|chunks|, (i: nat) requires i < |chunks| => EncodeChunk(chunks[i]))
  }

  lemma FiveParts<T>(a: seq<T>, b: seq<T>, c: seq<T>, d: seq<T>, tail: seq<T>)
    requires |a| == 4 && |b| == 4 && |d| == 4
    ensures var s, n := a + b + c + d + tail, |c|;
      && |s| == 12 + n + |tail|
      && s[..4] == a && s[4..8] == b && s[8..8 + n] == c && s[4..8 + n] == b + c && s[8 + n..12 + n] == d && s[12 + n..] == tail
  {
  }

  /** How the bytes of a chunk lie before what follows it. */
  predicate Laid(s: seq<Byte>, c: Chunk, tail: seq<Byte>)
    requires Fits(c)
  {
    var n := |c.data|;
    && |s| == 12 + n + |tail|
    && s[..4] == BigEndian(n) && s[4..8] == c.kind && s[8..8 + n] == c.data && s[4..8 + n] == c.kind + c.data
    && s[8 + n..12 + n] == WordBytes(Checksum(c.kind + c.data))
    && s[12 + n..] == tail
  }

  lemma EncodedIsLaid(c: Chunk, tail: seq<Byte>)
    requires Fits(c)
    ensures Laid(EncodeChunk(c) + tail, c, tail)
  {
    assert |c.data| % 0x1_0000_0000 == |c.data|;
    FiveParts(BigEndian(|c.data|), c.kind, c.data, WordBytes(Checksum(c.kind + c.data)), tail);
  }

  lemma LaidComesBack(s: seq<Byte>, c: Chunk, tail: seq<Byte>)
    requires Fits(c) && Laid(s, c, tail)
    ensures DecodeChunk(s) == Some(c)
  {
    ValueOfBigEndian(|c.data|);
  }

  lemma DecodeStep(s: seq<Byte>, c: Chunk, rest: seq<Chunk>)
    requires DecodeChunk(s) == Some(c) && 12 + |c.data| <= |s| && DecodeChunks(s[12 + |c.data|..]) == Some(rest)
    ensures DecodeChunks(s) == Some([c] + rest)
  {
  }

  lemma EncodedStep(s: seq<Byte>, c: Chunk, tail: seq<Byte>, rest: seq<Chunk>)
    requires Fits(c) && s == EncodeChunk(c) + tail && DecodeChunks(tail) == Some(rest)
    ensures DecodeChunks(s) == Some([c] + rest)
  {
    EncodedIsLaid(c, tail);
    LaidComesBack(s, c, tail);
    assert 12 + |c.data| <= |s| && s[12 + |c.data|..] == tail;
    DecodeStep(s, c, rest);
  }

  lemma FlattenChunks(chunks: seq<Chunk>)
    requires chunks != []
    ensures Flatten(EncodeEach(chunks)) == EncodeChunk(chunks[0]) + Flatten(EncodeEach(chunks[1..]))
  {
    assert EncodeEach(chunks) == [EncodeChunk(chunks[0])] + EncodeEach(chunks[1..]);
    FlattenCons(EncodeChunk(chunks[0]), EncodeEach(chunks[1..]));
  }

  lemma NoChunks()
    ensures DecodeChunks(Flatten(EncodeEach([]))) == Some([])
  {
    assert EncodeEach([]) == [];
  }

  /** Decoding a concatenation of chunks gives exactly those chunks, in their order. */
  lemma {:induction false} ChunksComeBack(chunks: seq<Chunk>)
    requires forall i :: 0 <= i < |chunks| ==> Fits(chunks[i])
    ensures DecodeChunks(Flatten(EncodeEach(chunks))) == Some(chunks)
  {
    if chunks == [] {
      NoChunks();
    } else {
      var rest := chunks[1..];
      ChunksComeBack(rest);
      FlattenChunks(chunks);
      EncodedStep(Flatten(EncodeEach(chunks)), chunks[0], Flatten(EncodeEach(rest)), rest);
      assert chunks == [chunks[0]] + rest;
    }
  }

  // ---- a damaged chunk ----

  /** A chunk with one byte of its type, data or checksum changed is refused. */
  lemma OneBadByteIsRefused(c: Chunk, bad: seq<Byte>, i: nat)
    requires Fits(c) && |bad| == |EncodeChunk(c)| && 4 <= i < |bad| && bad[i] != EncodeChunk(c)[i]
    requires forall j :: 0 <= j < |bad| && j != i ==> bad[j] == EncodeChunk(c)[j]
    ensures DecodeChunk(bad).None?
  {
    EncodedIsLaid(c, []);
    assert EncodeChunk(c) + [] == EncodeChunk(c);
    DamageIsRefused(c, EncodeChunk(c), bad, i);
  }

  lemma DamageIsRefused(c: Chunk, s: seq<Byte>, bad: seq<Byte>, i: nat)
    requires Fits(c) && Laid(s, c, []) && |bad| == |s| && 4 <= i < |bad| && bad[i] != s[i]
    requires forall j :: 0 <= j < |bad| && j != i ==> bad[j] == s[j]
    ensures DecodeChunk(bad).None?
  {
    assert Value(bad[..4]) == |c.data| by {
      assert bad[..4] == s[..4];
      ValueOfBigEndian(|c.data|);
    }
    DamageShows(s, bad, |c.data|, i);
  }

  /** Between what is summed and its checksum a single changed byte shows. */
  lemma DamageShows(s: seq<Byte>, bad: seq<Byte>, n: nat, i: nat)
    requires |s| == |bad| == 12 + n && SumIsRight(s, n) && 4 <= i < |bad| && bad[i] != s[i]
    requires forall j :: 0 <= j < |bad| && j != i ==> bad[j] == s[j]
    ensures !SumIsRight(bad, n)
  {
    var summed, wasSummed := bad[4..8 + n], s[4..8 + n];
    var sum, wasSum := bad[8 + n..12 + n], s[8 + n..12 + n];
    if i < 8 + n {
      assert sum == wasSum;
      ChecksumNoticesOneByte(summed, wasSummed, i - 4);
      WordBytesApart(Checksum(summed), Checksum(wasSummed));
    } else {
      assert summed == wasSummed;
      assert sum[i - 8 - n] != wasSum[i - 8 - n];
    }
  }

  // ---- the builder ----

  method PngChunk(kind: seq<Byte>, data: seq<Byte>) returns (chunk: array<Byte>)
    requires |kind| == 4
    ensures fresh(chunk) && chunk[..] == EncodeChunk(Chunk(kind, data))
  {
    chunk := new Byte[12 + |data|];
    var length := BigEndian(|data| % 0x1_0000_0000);
    SetAt(chunk, length, 0);
    assert chunk[..4] == length;
    SetAt(chunk, kind, 4);
    assert chunk[..8] == length + kind;
    SetAt(chunk, data, 8);
    assert chunk[..8 + |data|] == length + kind + data;
    var crc := Crc32(kind + data);
    SetAt(chunk, WordBytes(crc), 8 + |data|);
    assert chunk[..] == chunk[..12 + |data|];
  }

  /** Every row of pixels after a filter byte of 0. */
  function Filtered(pixels: seq<Byte>, rows: nat): (lines: seq<Byte>)
    requires rows * ROW <= |pixels|
    ensures |lines| == rows * (1 + ROW)
  {
    if rows == 0 then [] else Filtered(pixels, rows - 1) + [0] + pixels[(rows - 1) * ROW..rows * ROW]
  }

  function Unfiltered(lines: seq<Byte>, rows: nat): seq<Byte>
    requires rows * (1 + ROW) <= |lines|
  {
    if rows == 0 then [] else Unfiltered(lines, rows - 1) + lines[(rows - 1) * (1 + ROW) + 1..rows * (1 + ROW)]
  }

  lemma {:induction false} UnfilteredIgnoresTheRest(lines: seq<Byte>, more: seq<Byte>, rows: nat)
    requires rows * (1 + ROW) <= |lines|
    ensures Unfiltered(lines + more, rows) == Unfiltered(lines, rows)
  {
    if rows > 0 {
      UnfilteredIgnoresTheRest(lines, more, rows - 1);
      assert (lines + more)[(rows - 1) * (1 + ROW) + 1..rows * (1 + ROW)] == lines[(rows - 1) * (1 + ROW) + 1..rows * (1 + ROW)];
    }
  }

  /** Stripping the filter bytes gives back the pixels. */
  lemma {:induction false} PixelsComeBack(pixels: seq<Byte>, rows: nat)
    requires rows * ROW <= |pixels|
    ensures Unfiltered(Filtered(pixels, rows), rows) == pixels[..rows * ROW]
  {
    if rows > 0 {
      var before, row := Filtered(pixels, rows - 1), pixels[(rows - 1) * ROW..rows * ROW];
      PixelsComeBack(pixels, rows - 1);
      UnfilteredIgnoresTheRest(before, [0] + row, rows - 1);
      assert Filtered(pixels, rows) == before + ([0] + row);
      assert Filtered(pixels, rows)[(rows - 1) * (1 + ROW) + 1..rows * (1 + ROW)] == row;
    }
  }

  method BuildScanlines(pixels: array<Byte>) returns (scanlines: array<Byte>)
    requires pixels.Length == HEIGHT * ROW
    ensures fresh(scanlines) && scanlines[..] == Filtered(pixels[..], HEIGHT)
  {
    scanlines := new Byte[HEIGHT * (1 + ROW)];
    for y := 0 to HEIGHT
      invariant scanlines[..y * (1 + ROW)] == Filtered(pixels[..], y)
    {
      var scanlineOffset := y * (1 + ROW);
      scanlines[scanlineOffset] := 0;
      assert scanlines[..scanlineOffset + 1] == Filtered(pixels[..], y) + [0];
      SetAt(scanlines, pixels[y * ROW..(y + 1) * ROW], scanlineOffset + 1);
    }
  }

  // ---- the file ----

  const SIGNATURE: seq<Byte> := [137, 80, 78, 71, 13, 10, 26, 10]
  const IHDR: seq<Byte> := [73, 72, 68, 82]
  const IDAT: seq<Byte> := [73, 68, 65, 84]
  const IEND: seq<Byte> := [73, 69, 78, 68]

  /** Width, height, bit depth 8, colour type 2 (true colour), and the standard's only methods. */
  function Header(width: nat, height: nat): (header: seq<Byte>)
    requires width < 0x1_0000_0000 && height < 0x1_0000_0000
    ensures |header| == 13
  {
    BigEndian(width) + BigEndian(height) + [8, 2, 0, 0, 0]
  }

  function FileChunks(pixels: seq<Byte>, deflate: seq<Byte> -> seq<Byte>): seq<Chunk>
    requires |pixels| == HEIGHT * ROW
  {
    [Chunk(IHDR, Header(WIDTH, HEIGHT)), Chunk(IDAT, deflate(Filtered(pixels, HEIGHT))), Chunk(IEND, [])]
  }

  function DecodeFile(file: seq<Byte>): Option<seq<Chunk>> {
    if SIGNATURE <= file then DecodeChunks(file[|SIGNATURE|..]) else None
  }

  method BuildHeader(width: nat, height: nat) returns (header: array<Byte>)
    requires width < 0x1_0000_0000 && height < 0x1_0000_0000
    ensures fresh(header) && header[..] == Header(width, height)
  {
    header := new Byte[13](_ => 0);
    assert header[4..][4..] == [0, 0, 0, 0, 0];
    SetAt(header, BigEndian(width), 0);
    assert header[8..] == header[4..][4..];
    SetAt(header, BigEndian(height), 4);
    header[8], header[9] := 8, 2;
    assert header[..] == header[..8] + header[8..];
  }

  lemma FileParts(chunks: seq<seq<Byte>>)
    requires |chunks| == 3
    ensures Flatten([SIGNATURE, chunks[0], chunks[1], chunks[2]]) == SIGNATURE + Flatten(chunks)
  {
    assert [SIGNATURE, chunks[0], chunks[1], chunks[2]] == [SIGNATURE] + chunks;
    FlattenCons(SIGNATURE, chunks);
  }

  method CreatePng(pixels: array<Byte>, deflate: seq<Byte> -> seq<Byte>) returns (file: array<Byte>)
    requires pixels.Length == HEIGHT * ROW
    ensures fresh(file) && file[..] == SIGNATURE + Flatten(EncodeEach(FileChunks(pixels[..], deflate)))
  {
    var scanlines := BuildScanlines(pixels);
    var header := BuildHeader(WIDTH, HEIGHT);
    var first := PngChunk(IHDR, header[..]);
    var second := PngChunk(IDAT, deflate(scanlines[..]));
    var third := PngChunk(IEND, []);
    file := Concat([SIGNATURE, first[..], second[..], third[..]]);
    FileParts(EncodeEach(FileChunks(pixels[..], deflate)));
  }

  lemma FileComesBack(pixels: seq<Byte>, deflate: seq<Byte> -> seq<Byte>)
    requires |pixels| == HEIGHT * ROW && |deflate(Filtered(pixels, HEIGHT))| < 0x1_0000_0000
    ensures DecodeFile(SIGNATURE + Flatten(EncodeEach(FileChunks(pixels, deflate)))) == Some(FileChunks(pixels, deflate))
  {
    var chunks := FileChunks(pixels, deflate);
    var rest := Flatten(EncodeEach(chunks));
    ChunksComeBack(chunks);
    assert SIGNATURE <= SIGNATURE + rest && (SIGNATURE + rest)[|SIGNATURE|..] == rest;
  }

  lemma HeaderComesBack(width: nat, height: nat)
    requires width < 0x1_0000_0000 && height < 0x1_0000_0000
    ensures Value(Header(width, height)[..4]) == width && Value(Header(width, height)[4..8]) == height
  {
    ValueOfBigEndian(width);
    ValueOfBigEndian(height);
    assert Header(width, height)[..4] == BigEndian(width) && Header(width, height)[4..8] == BigEndian(height);
  }

  /** The size is in the header, and behind the compression are the very pixels. */
  lemma ImageComesBack(pixels: seq<Byte>, deflate: seq<Byte> -> seq<Byte>, inflate: seq<Byte> -> seq<Byte>)
    requires |pixels| == HEIGHT * ROW && inflate(deflate(Filtered(pixels, HEIGHT))) == Filtered(pixels, HEIGHT)
    ensures var chunks := FileChunks(pixels, deflate);
      && Value(chunks[0].data[..4]) == WIDTH && Value(chunks[0].data[4..8]) == HEIGHT
      && Unfiltered(inflate(chunks[1].data), HEIGHT) == pixels
  {
    HeaderComesBack(WIDTH, HEIGHT);
    PixelsComeBack(pixels, HEIGHT);
    assert pixels[..HEIGHT * ROW] == pixels;
  }
}
