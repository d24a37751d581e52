/**
 * The PNG writer of the model build: stored DEFLATE blocks in a zlib stream in PNG chunks, and a
 * reader written from the standards that takes every file it writes back to the same pixels.
 */
module Png {
  import opened Wrappers
  import opened Binary
  import opened Checksums

  datatype Image = Image(width: u32, height: u32, rgba: Bytes)

  const BLOCK := 65535

  /** The longest chunk that the PNG specification allows. */
  const MAX_CHUNK := 0x7FFF_FFFF

  const SIGNATURE: Bytes := [0x89, 0x50, 0x4E, 0x47, 0x0D, 0x0A, 0x1A, 0x0A]
  const IHDR: Bytes := [0x49, 0x48, 0x44, 0x52]
  const IDAT: Bytes := [0x49, 0x44, 0x41, 0x54]
  const IEND: Bytes := [0x49, 0x45, 0x4E, 0x44]

  // ---- what the writer puts out -------------------------------------------------------------

  /** Each row behind a filter-type byte of zero. */
  function Scanlines(rows: seq<Bytes>): Bytes {
    if rows == [] then [] else [0] + rows[0] + Scanlines(rows[1..])
  }

  function Block(last: bool, data: Bytes): (b: Bytes)
    requires |data| <= BLOCK
    ensures |b| == 5 + |data|
  {
    [if last then 1 else 0] + Le16(|data|) + Le16(0xFFFF - |data|) + data
  }

  function Blocks(pieces: seq<Bytes>): Bytes
    requires forall k :: 0 <= k < |pieces| ==> |pieces[k]| <= BLOCK
  {
    if pieces == [] then [] else Block(|pieces| == 1, pieces[0]) + Blocks(pieces[1..])
  }

  function StoredBlocks(raw: Bytes): Bytes {
    ChunksPartition(raw, BLOCK);
    Blocks(Chunks(raw, BLOCK))
  }

  function Zlib(raw: Bytes): Bytes {
    [0x78, 0x01] + StoredBlocks(raw) + Be32(Adler(raw))
  }

  function Chunk(kind: Bytes, data: Bytes): Bytes
    requires |kind| == 4 && |data| < 0x1_0000_0000
  {
    Be32(|data|) + kind + data + Be32(Crc(kind + data))
  }

  function Header(width: u32, height: u32): (b: Bytes)
    ensures |b| == 13
  {
    Be32(width) + Be32(height) + [8, 6, 0, 0, 0]
  }

  /** The zlib stream of an image whose rows are `width` pixels of four bytes. */
  function PixelStream(width: u32, rgba: Bytes): Bytes
    requires width > 0
  {
    Zlib(Scanlines(Chunks(rgba, width * 4)))
  }

  function File(width: u32, height: u32, rgba: Bytes): Bytes
    requires width > 0 && |PixelStream(width, rgba)| < 0x1_0000_0000
  {
    SIGNATURE + Chunk(IHDR, Header(width, height)) + Chunk(IDAT, PixelStream(width, rgba)) + Chunk(IEND, [])
  }

  // ---- a reader written from the standards --------------------------------------------------

  datatype RawChunk = RawChunk(kind: Bytes, data: Bytes)

  /**
   * Section 5.3 of the PNG specification: length, type, data, CRC, to the end of the file. The
   * specification caps a length at 2^31 - 1; `limit` is the cap of the reader.
   */
  function ReadChunks(b: Bytes, limit: u32): Option<seq<RawChunk>> {
    if b == [] then Some([])
    else if |b| < 12 then None
    else
      var length := FromBe32(b[..4]);
      if length > limit || |b| < 12 + length then None
      else
        var kind, data := b[4..8], b[8..8 + length];
        if FromBe32(b[8 + length..12 + length]) != Crc(kind + data) then None
        else
          match ReadChunks(b[12 + length..], limit)
          case None => None
          case Some(rest) => Some([RawChunk(kind, data)] + rest)
  }

  datatype Inflated = Inflated(blocks: seq<Bytes>, rest: Bytes)

  /** Sections 3.2.3 and 3.2.4 of RFC 1951, for stored blocks; reading stops at the first BFINAL. */
  function ReadBlocks(b: Bytes): Option<Inflated> {
    if |b| < 5 then None
    else
      var final, kind := b[0] % 2 == 1, b[0] / 2 % 4;
      var len, nlen := FromLe16(b[1..3]), FromLe16(b[3..5]);
      if kind != 0 || nlen != 0xFFFF - len || |b| < 5 + len then None
      else if final then Some(Inflated([b[5..5 + len]], b[5 + len..]))
      else
        match ReadBlocks(b[5 + len..])
        case None => None
        case Some(more) => Some(Inflated([b[5..5 + len]] + more.blocks, more.rest))
  }

  /** Section 2.2 of RFC 1950: CMF, FLG, the compressed data and the Adler-32 of the result. */
  function Unzlib(z: Bytes): Option<Bytes> {
    if |z| < 2 || z[0] % 16 != 8 || z[0] / 16 > 7
       || ((z[0] as int) * 0x100 + z[1]) % 31 != 0 || z[1] / 32 % 2 == 1 then None
    else
      match ReadBlocks(z[2..])
      case None => None
      case Some(body) =>
        if |body.rest| == 4 && FromBe32(body.rest) == Adler(Joined(body.blocks)) then Some(Joined(body.blocks))
        else None
  }

  /** Scanlines of filter type None, exactly `height` of them. */
  function Unfilter(raw: Bytes, stride: nat, height: nat): Option<Bytes>
    decreases height
  {
    if height == 0 then if raw == [] then Some([]) else None
    else if |raw| < 1 + stride || raw[0] != 0 then None
    else
      match Unfilter(raw[1 + stride..], stride, height - 1)
      case None => None
      case Some(rest) => Some(raw[1..1 + stride] + rest)
  }

  /** The data of consecutive IDAT chunks; any other chunk between IHDR and IEND is refused. */
  function ImageData(chunks: seq<RawChunk>): Option<Bytes> {
    if chunks == [] then Some([])
    else if chunks[0].kind != IDAT then None
    else
      match ImageData(chunks[1..])
      case None => None
      case Some(rest) => Some(chunks[0].data + rest)
  }

  function ReadPixels(header: Bytes, zlib: Bytes): Option<Image>
    requires |header| == 13
  {
    var width, height := FromBe32(header[..4]), FromBe32(header[4..8]);
    if width == 0 || height == 0 || header[8..] != [8, 6, 0, 0, 0] then None
    else
      match Unzlib(zlib)
      case None => None
      case Some(raw) =>
        match Unfilter(raw, width * 4, height)
        case None => None
        case Some(rgba) => Some(Image(width, height, rgba))
  }

  function Read(file: Bytes, limit: u32): Option<Image> {
    if |file| < 8 || file[..8] != SIGNATURE then None
    else
      match ReadChunks(file[8..], limit)
      case None => None
      case Some(chunks) =>
        if |chunks| < 2 || chunks[0].kind != IHDR || |chunks[0].data| != 13
           || chunks[|chunks| - 1] != RawChunk(IEND, []) then None
        else
          match ImageData(chunks[1..|chunks| - 1])
          case None => None
          case Some(zlib) => ReadPixels(chunks[0].data, zlib)
  }

  // ---- each layer is undone -----------------------------------------------------------------

  lemma BlockHeader(last: bool, data: Bytes, tail: Bytes)
    requires |data| <= BLOCK
    ensures var b := Block(last, data) + tail;
      |b| == 5 + |data| + |tail| && b[0] == (if last then 1 else 0)
      && b[1..3] == Le16(|data|) && b[3..5] == Le16(0xFFFF - |data|)
      && b[5..5 + |data|] == data && b[5 + |data|..] == tail
  {
  }

  lemma BlockIsRead(last: bool, data: Bytes, tail: Bytes)
    requires |data| <= BLOCK
    ensures ReadBlocks(Block(last, data) + tail) ==
      if last then Some(Inflated([data], tail))
      else
        match ReadBlocks(tail)
        case None => None
        case Some(more) => Some(Inflated([data] + more.blocks, more.rest))
  {
    hide Block, Le16, FromLe16;
    BlockHeader(last, data, tail);
    Le16RoundTrip(|data|);
    Le16RoundTrip(0xFFFF - |data|);
  }

  lemma {:induction false} BlocksAreRead(pieces: seq<Bytes>, tail: Bytes)
    requires pieces != []
    requires forall k :: 0 <= k < |pieces| ==> |pieces[k]| <= BLOCK
    ensures ReadBlocks(Blocks(pieces) + tail) == Some(Inflated(pieces, tail))
    decreases |pieces|
  {
    var last, data, others := |pieces| == 1, pieces[0], pieces[1..];
    FirstBlock(pieces, tail);
    hide Block, ReadBlocks, Blocks;
    BlockIsRead(last, data, Blocks(others) + tail);
    assert pieces == [data] + others;
    if last {
      assert others == [] && pieces == [data];
      NoBlocks(tail);
    } else {
      BlocksAreRead(others, tail);
    }
  }

  lemma FirstBlock(pieces: seq<Bytes>, tail: Bytes)
    requires pieces != []
    requires forall k :: 0 <= k < |pieces| ==> |pieces[k]| <= BLOCK
    ensures Blocks(pieces) + tail == Block(|pieces| == 1, pieces[0]) + (Blocks(pieces[1..]) + tail)
  {
    hide Block;
  }

  lemma NoBlocks(tail: Bytes)
    ensures Blocks([]) + tail == tail
  {
  }

  /**
   * A DEFLATE reader finds exactly the 65535-byte pieces, so BFINAL is on the last and on no
   * other, and every LEN matches its NLEN; the stream of no data at all has no block to find.
   */
  lemma StoredBlocksAreRead(raw: Bytes, tail: Bytes)
    ensures raw != [] ==> ReadBlocks(StoredBlocks(raw) + tail) == Some(Inflated(Chunks(raw, BLOCK), tail))
    ensures forall k :: 0 <= k < |Chunks(raw, BLOCK)| - 1 ==> |Chunks(raw, BLOCK)[k]| == BLOCK
    ensures raw == [] ==> StoredBlocks(raw) == []
  {
    ChunksPartition(raw, BLOCK);
    if raw != [] {
      BlocksAreRead(Chunks(raw, BLOCK), tail);
    }
  }

  /** The zlib stream is undone exactly when there was something to compress. */
  lemma ZlibRoundTrip(raw: Bytes)
    ensures Unzlib(Zlib(raw)) == if raw != [] then Some(raw) else None
  {
    hide StoredBlocks, Adler, Be32, FromBe32, Chunks, Joined, ReadBlocks;
    var sum := Adler(raw);
    StoredBlocksAreRead(raw, Be32(sum));
    ChunksPartition(raw, BLOCK);
    Be32RoundTrip(sum);
    ZlibHeader(StoredBlocks(raw), Be32(sum));
    if raw == [] {
      TooShort(Be32(sum));
    }
  }

  lemma ZlibHeader(blocks: Bytes, sum: Bytes)
    ensures var z := [0x78, 0x01] + blocks + sum;
      |z| >= 2 && z[0] == 0x78 && z[1] == 0x01 && z[2..] == blocks + sum
  {
  }

  lemma TooShort(sum: Bytes)
    requires |sum| == 4
    ensures ReadBlocks([] + sum) == None
  {
  }

  lemma LineIsUnfiltered(row: Bytes, more: Bytes, height: nat)
    requires height > 0
    ensures Unfilter([0] + row + more, |row|, height) ==
      match Unfilter(more, |row|, height - 1)
      case None => None
      case Some(rest) => Some(row + rest)
  {
    var raw := [0] + row + more;
    assert raw[1..1 + |row|] == row && raw[1 + |row|..] == more;
  }

  lemma FirstRow(rgba: Bytes, stride: nat)
    requires 0 < stride <= |rgba|
    ensures Chunks(rgba, stride) == [rgba[..stride]] + Chunks(rgba[stride..], stride)
    ensures Scanlines(Chunks(rgba, stride)) == [0] + rgba[..stride] + Scanlines(Chunks(rgba[stride..], stride))
  {
    var rows := Chunks(rgba, stride);
    assert rows[1..] == Chunks(rgba[stride..], stride);
    assert rows[0] == rgba[..stride];
  }

  lemma {:induction false} ScanlinesAreUnfiltered(rgba: Bytes, stride: nat, height: nat)
    requires stride > 0 && |rgba| == height * stride
    ensures Unfilter(Scanlines(Chunks(rgba, stride)), stride, height) == Some(rgba)
    decreases height
  {
    hide Chunks, Scanlines;
    if height == 0 {
      NoRowsNoLines(stride);
    } else {
      OneRowFewer(height, stride);
      FirstRow(rgba, stride);
      ScanlinesAreUnfiltered(rgba[stride..], stride, height - 1);
      LineIsUnfiltered(rgba[..stride], Scanlines(Chunks(rgba[stride..], stride)), height);
      assert rgba == rgba[..stride] + rgba[stride..];
    }
  }

  lemma NoRowsNoLines(stride: nat)
    requires stride > 0
    ensures Scanlines(Chunks([], stride)) == []
  {
  }

  lemma OneRowFewer(height: nat, stride: nat)
    requires height > 0
    ensures height * stride == (height - 1) * stride + stride >= stride
  {
  }

  lemma ChunkFields(kind: Bytes, data: Bytes, tail: Bytes)
    requires |kind| == 4 && |data| < 0x1_0000_0000
    ensures var b := Chunk(kind, data) + tail;
      |b| == 12 + |data| + |tail| && b[..4] == Be32(|data|) && b[4..8] == kind && b[8..8 + |data|] == data
      && b[8 + |data|..12 + |data|] == Be32(Crc(kind + data)) && b[12 + |data|..] == tail
  {
  }

  /** One chunk is read back, with its CRC, exactly when its length is within the reader's cap. */
  lemma ChunkIsRead(kind: Bytes, data: Bytes, tail: Bytes, limit: u32)
    requires |kind| == 4 && |data| < 0x1_0000_0000
    ensures ReadChunks(Chunk(kind, data) + tail, limit) ==
      if |data| > limit then None
      else
        match ReadChunks(tail, limit)
        case None => None
        case Some(rest) => Some([RawChunk(kind, data)] + rest)
  {
    hide Chunk, Be32, FromBe32, Crc;
    ChunkFields(kind, data, tail);
    Be32RoundTrip(|data|);
    Be32RoundTrip(Crc(kind + data));
  }

  lemma HeaderFields(width: u32, height: u32)
    ensures var h := Header(width, height);
      FromBe32(h[..4]) == width && FromBe32(h[4..8]) == height && h[8..] == [8, 6, 0, 0, 0]
  {
    hide Be32, FromBe32;
    var h := Header(width, height);
    assert h[..4] == Be32(width) && h[4..8] == Be32(height);
    Be32RoundTrip(width);
    Be32RoundTrip(height);
  }

  lemma PixelsAreRead(width: u32, height: u32, rgba: Bytes)
    requires width > 0 && |rgba| == height * (width * 4)
    ensures ReadPixels(Header(width, height), PixelStream(width, rgba)) ==
      if height > 0 then Some(Image(width, height, rgba)) else None
  {
    hide Header, FromBe32, Zlib, Unzlib, Chunks, Scanlines, Unfilter;
    HeaderFields(width, height);
    if height > 0 {
      ZlibRoundTrip(Scanlines(Chunks(rgba, width * 4)));
      ScanlinesAreUnfiltered(rgba, width * 4, height);
      NotEmpty(rgba, width * 4, height);
    }
  }

  lemma NotEmpty(rgba: Bytes, stride: nat, height: nat)
    requires stride > 0 && height > 0 && |rgba| == height * stride
    ensures Scanlines(Chunks(rgba, stride)) != []
  {
    assert |rgba| == (height - 1) * stride + stride;
    assert (height - 1) * stride >= 0;
  }

  lemma KindLengths()
    ensures |IEND| == |IDAT| == |IHDR| == 4
  {
  }

  lemma NothingToRead(limit: u32)
    ensures ReadChunks([], limit) == Some([])
  {
  }

  lemma ChunksOfFile(width: u32, height: u32, zlib: Bytes, limit: u32)
    requires |zlib| < 0x1_0000_0000 && limit >= 13
    ensures ReadChunks(Chunk(IHDR, Header(width, height)) + (Chunk(IDAT, zlib) + Chunk(IEND, [])), limit) ==
      if |zlib| <= limit
      then Some([RawChunk(IHDR, Header(width, height)), RawChunk(IDAT, zlib), RawChunk(IEND, [])]) else None
  {
    hide *;
    KindLengths();
    var header, none := Header(width, height), [];
    var end := Chunk(IEND, none);
    var tail := Chunk(IDAT, zlib) + end;
    assert end + [] == end;
    ChunkIsRead(IEND, none, [], limit);
    ChunkIsRead(IDAT, zlib, end, limit);
    ChunkIsRead(IHDR, header, tail, limit);
    NothingToRead(limit);
    var c, d, e := RawChunk(IHDR, header), RawChunk(IDAT, zlib), RawChunk(IEND, none);
    assert [e] + [] == [e] && [d] + [e] == [d, e] && [c] + [d, e] == [c, d, e];
    assert ReadChunks(end, limit) == Some([e]);
  }

  /**
   * A reader of any cap recovers the width, the height and every pixel of what the writer writes,
   * if and only if there is at least one row and the zlib stream fits the cap.
   */
  lemma RoundTrip(width: u32, height: u32, rgba: Bytes, limit: u32)
    requires width > 0 && |rgba| == height * (width * 4)
    requires |PixelStream(width, rgba)| < 0x1_0000_0000 && limit >= 13
    ensures Read(File(width, height, rgba), limit) ==
      if height > 0 && |PixelStream(width, rgba)| <= limit then Some(Image(width, height, rgba)) else None
  {
    hide Chunk, Header, ReadChunks, PixelStream, ReadPixels;
    var zlib := PixelStream(width, rgba);
    var file := File(width, height, rgba);
    var body := Chunk(IHDR, Header(width, height)) + (Chunk(IDAT, zlib) + Chunk(IEND, []));
    assert file == SIGNATURE + body;
    assert file[..8] == SIGNATURE && file[8..] == body;
    ChunksOfFile(width, height, zlib, limit);
    PixelsAreRead(width, height, rgba);
    assert ImageData([RawChunk(IDAT, zlib)]) == Some(zlib) by {
      assert ImageData([]) == Some([]);
      assert zlib + [] == zlib;
    }
    if |zlib| <= limit {
      var chunks := [RawChunk(IHDR, Header(width, height)), RawChunk(IDAT, zlib), RawChunk(IEND, [])];
      assert chunks[1..2] == [RawChunk(IDAT, zlib)];
    }
  }

  lemma {:induction false} BlocksLength(raw: Bytes)
    ensures |Zlib(raw)| == 6 + |raw| + 5 * ((|raw| + BLOCK - 1) / BLOCK)
  {
    hide Block, Adler;
    if raw != [] {
      if |raw| <= BLOCK {
        assert Blocks([raw]) == Block(true, raw) + Blocks([]);
        assert (|raw| + BLOCK - 1) / BLOCK == 1;
      } else {
        BlocksLength(raw[BLOCK..]);
        assert Chunks(raw, BLOCK)[1..] == Chunks(raw[BLOCK..], BLOCK);
        assert (|raw| + BLOCK - 1) / BLOCK == 1 + (|raw[BLOCK..]| + BLOCK - 1) / BLOCK;
      }
    }
  }

  // ---- the writer ---------------------------------------------------------------------------

  method PushChunk(png: Bytes, kind: Bytes, data: Bytes) returns (r: Bytes)
    requires |kind| == 4 && |data| < 0x1_0000_0000
    ensures r == png + Chunk(kind, data)
  {
    hide Crc;
    r := png + Be32(|data|);
    r := r + kind;
    r := r + data;
    var crc := Crc32(kind + data);
    r := r + Be32(crc);
  }

  method PushScanlines(rgba: Bytes, stride: nat) returns (raw: Bytes)
    requires stride > 0
    ensures raw == Scanlines(Chunks(rgba, stride))
  {
    hide Chunks;
    var rows := Chunks(rgba, stride);
    raw := [];
    for i := 0 to |rows|
      invariant raw + Scanlines(rows[i..]) == Scanlines(rows)
    {
      assert rows[i..][1..] == rows[i + 1..];
      ghost var rest := Scanlines(rows[i + 1..]);
      assert raw + ([0] + rows[i] + rest) == raw + [0] + rows[i] + rest;
      raw := raw + [0];
      raw := raw + rows[i];
    }
  }

  method PushBlocks(zlib0: Bytes, raw: Bytes) returns (zlib: Bytes)
    ensures zlib == zlib0 + StoredBlocks(raw)
  {
    hide Chunks, Le16;
    ChunksPartition(raw, BLOCK);
    var pieces := Chunks(raw, BLOCK);
    zlib := zlib0;
    for i := 0 to |pieces|
      invariant zlib + Blocks(pieces[i..]) == zlib0 + StoredBlocks(raw)
    {
      var last := (i + 1) * BLOCK >= |raw|;
      ChunkPosition(raw, BLOCK, i);
      var piece := pieces[i];
      assert pieces[i..][1..] == pieces[i + 1..];
      ghost var was, rest := zlib, Blocks(pieces[i + 1..]);
      zlib := zlib + [if last then 1 else 0];
      zlib := zlib + Le16(|piece|);
      zlib := zlib + Le16(0xFFFF - |piece|);
      zlib := zlib + piece;
      assert zlib + rest == was + (Block(last, piece) + rest);
    }
  }

  method EncodePng(width: u32, height: u32, rgba: Bytes) returns (png: Bytes)
    requires width > 0 && |rgba| == height * (width * 4) < 0x1_0000_0000
    requires |PixelStream(width, rgba)| < 0x1_0000_0000
    ensures png == File(width, height, rgba)
    ensures Read(png, MAX_CHUNK) ==
      if height > 0 && |PixelStream(width, rgba)| <= MAX_CHUNK then Some(Image(width, height, rgba)) else None
    ensures height > 0 ==> Read(png, 0xFFFF_FFFF) == Some(Image(width, height, rgba))
  {
    hide Chunks, Scanlines, StoredBlocks, Adler, Chunk, Read;
    var raw := PushScanlines(rgba, width * 4);
    var zlib := PushBlocks([0x78, 0x01], raw);
    var sum := Adler32(raw);
    zlib := zlib + Be32(sum);
    png := SIGNATURE;
    var ihdr := Be32(width);
    ihdr := ihdr + Be32(height);
    ihdr := ihdr + [8, 6, 0, 0, 0];
    png := PushChunk(png, IHDR, ihdr);
    png := PushChunk(png, IDAT, zlib);
    png := PushChunk(png, IEND, []);
    RoundTrip(width, height, rgba, MAX_CHUNK);
    RoundTrip(width, height, rgba, 0xFFFF_FFFF);
  }
}
