/** ContentManager: the .xnb container a compiled effect is shipped in. The
    header names the format and the target platform; a version byte, a flags
    byte and the file length follow. A compressed payload is a run of LZX
    blocks, each behind a two- or five-byte big-endian header. The model
    follows the reads and the framing; the LZX decoder itself and the
    ContentReader that consumes the result are not part of this model, so
    each decoder call is recorded as a `Block` instead of being carried out. */
module ContentManagement {
  import opened Wrappers
  import opened Bytes
  import opened Streams

  /** The target-platform identifiers the fourth header byte may hold. */
  const Platforms: seq<char> := ['w', 'x', 'm', 'i', 'a', 'd', 'X', 'W', 'n', 'u', 'p', 'M', 'r', 'P', 'g', 'l']

  /** The four header bytes ReadAsset accepts: 'X', 'N', 'B', then a platform. */
  predicate IsXnbHeader(header: seq<Byte>)
    requires |header| == 4
    ensures IsXnbHeader(header) ==> header[..3] == [0x58, 0x4E, 0x42] && header[3] as char in Platforms
  {
    header[0] == 'X' as int && header[1] == 'N' as int && header[2] == 'B' as int &&
    header[3] as char in Platforms
  }

  /** A file that starts with an accepted header. */
  predicate HasSignature(file: seq<Byte>)
    ensures HasSignature(file) <==> |file| >= 4 && IsXnbHeader(file[..4])
  {
    |file| >= 4 && file[0] == 'X' as int && file[1] == 'N' as int && file[2] == 'B' as int &&
    file[3] as char in Platforms
  }

  /** `flags & 0x80`: the compressed bit, which is the top bit of the byte. */
  predicate IsCompressed(flags: Byte)
    ensures IsCompressed(flags) <==> flags >= 0x80
  {
    (flags as bv8) & 0x80 != 0
  }

  /** One call of the LZX decoder: `blockSize` compressed bytes from `offset`
      of the compressed payload, expanding to a frame of `frameSize` bytes. */
  datatype Block = Block(offset: int, frameSize: int, blockSize: int)

  /** A block header: how many bytes it takes and the two sizes it gives. */
  datatype BlockHeader = BlockHeader(length: int, frameSize: int, blockSize: int)

  /** Where the content that follows the header comes from. */
  datatype Payload =
    | Plain(start: int)    // read straight from the file, from `start` on
    | Compressed(compressedSize: int, decompressedSize: int, blocks: seq<Block>)

  /** What GetContentReaderFromXNB establishes before it builds the reader. */
  datatype Envelope = Envelope(platform: char, version: Byte, length: int, payload: Payload)

  /* ----- The block framing ----- */

  /** `(hi << 8) | lo` on two ints that are each a byte or the -1 that
      Stream.ReadByte returns at the end: -1 << 8 is -256, and any value
      OR -1 is -1. */
  function ShiftOr(hi: int, lo: int): (v: int)
    requires -1 <= hi < 256 && -1 <= lo < 256
    ensures -256 <= v < 65536
    ensures 0 <= hi && 0 <= lo ==> v / 256 == hi && v % 256 == lo
    ensures lo == -1 ==> v == -1
    ensures hi == -1 && 0 <= lo ==> v < 0
  {
    if lo == -1 then -1 else hi * 256 + lo
  }

  /** The unchecked `(byte)` cast of a Stream.ReadByte result: -1 becomes 255. */
  function AsByte(b: int): (r: Byte)
    requires -1 <= b < 256
    ensures 0 <= b ==> r == b
    ensures b == -1 ==> r == 255
  {
    if b < 0 then 255 else b
  }

  /** The block header at `pos`, a position inside the compressed payload.
      A first byte of 0xFF announces the long form: frame size, then block
      size, both big-endian. Otherwise the two bytes are the big-endian block
      size of a 0x8000-byte frame. Reads past the end give -1. */
  function BlockHeaderAt(buf: seq<Byte>, pos: nat): (h: BlockHeader)
    requires pos < |buf|
    ensures buf[pos] != 0xFF ==> h.length == 2 && h.frameSize == 0x8000
    ensures buf[pos] != 0xFF && pos + 2 <= |buf| ==> h.blockSize == buf[pos] as int * 256 + buf[pos + 1] as int
    ensures buf[pos] != 0xFF && pos + 2 > |buf| ==> h.blockSize == -1
    ensures buf[pos] == 0xFF ==> h.length == 5 && 0 <= h.blockSize < 65536
    ensures buf[pos] == 0xFF && pos + 5 <= |buf| ==>
              h.frameSize == buf[pos + 1] as int * 256 + buf[pos + 2] as int &&
              h.blockSize == buf[pos + 3] as int * 256 + buf[pos + 4] as int
    ensures h.blockSize >= -1
  {
    var hi := buf[pos];
    var lo := ByteOrEnd(buf, pos + 1);
    if hi != 0xFF then BlockHeader(2, 0x8000, ShiftOr(hi, lo))
    else
      BlockHeader(5, ShiftOr(lo, AsByte(ByteOrEnd(buf, pos + 2))),
                  ShiftOr(AsByte(ByteOrEnd(buf, pos + 3)), AsByte(ByteOrEnd(buf, pos + 4))))
  }

  /** The decoder calls the framing loop makes from `pos` on: it stops at the
      end of the payload or at a zero size; moving the stream past
      int.MaxValue throws. */
  function FramesFrom(buf: seq<Byte>, pos: nat): (r: Result<seq<Block>, Fault>)
    ensures r.Err? ==> r.fault == ArgumentOutOfRange
    decreases |buf| - pos
  {
    if pos >= |buf| then Ok([])
    else
      var header := BlockHeaderAt(buf, pos);
      if header.blockSize == 0 || header.frameSize == 0 then Ok([])
      else
        var start := pos + header.length;
        var next := start + header.blockSize;
        if next > MaxInt32 then Err(ArgumentOutOfRange)
        else
          var rest :- FramesFrom(buf, next);
          Ok([Block(start, header.frameSize, header.blockSize)] + rest)
  }

  /** `blocks` in front of the blocks of `rest`, or the fault of `rest`. */
  function Prepend(blocks: seq<Block>, rest: Result<seq<Block>, Fault>): Result<seq<Block>, Fault>
  {
    if rest.Ok? then Ok(blocks + rest.value) else rest
  }

  /** Prepending in two steps is prepending the concatenation. */
  lemma PrependTwice(blocks: seq<Block>, more: seq<Block>, rest: Result<seq<Block>, Fault>)
    ensures Prepend(blocks, Prepend(more, rest)) == Prepend(blocks + more, rest)
  {
    if rest.Ok? {
      assert blocks + (more + rest.value) == (blocks + more) + rest.value;
    }
  }

  /** One turn of the framing loop at `at`: a header with two non-zero
      sizes adds its block to those found so far, and a position beyond
      int.MaxValue ends the loop with the fault. */
  lemma FramesNext(buf: seq<Byte>, at: nat, blocks: seq<Block>)
    requires at < |buf|
    requires FramesFrom(buf, 0) == Prepend(blocks, FramesFrom(buf, at))
    ensures var h := BlockHeaderAt(buf, at);
            h.blockSize != 0 && h.frameSize != 0 ==>
              var next := at + h.length + h.blockSize;
              0 <= next &&
              (next <= MaxInt32 ==>
                 FramesFrom(buf, 0) == Prepend(blocks + [Block(at + h.length, h.frameSize, h.blockSize)], FramesFrom(buf, next))) &&
              (next > MaxInt32 ==> FramesFrom(buf, 0) == Err(ArgumentOutOfRange))
  {
    var h := BlockHeaderAt(buf, at);
    if h.blockSize != 0 && h.frameSize != 0 {
      var next := at + h.length + h.blockSize;
      if next <= MaxInt32 {
        PrependTwice(blocks, [Block(at + h.length, h.frameSize, h.blockSize)], FramesFrom(buf, next));
      }
    }
  }

  /* ----- The container ----- */

  /** GetContentReaderFromXNB on `file`, whose stream stands just after the
      header: the version and flags bytes, the version check, the length and,
      for a compressed payload, its two sizes and its blocks. When the framing
      makes no decoder call, the decompressed stream stays at position 0, so
      the size check throws unless the declared decompressed size is 0. */
  function EnvelopeOf(file: seq<Byte>, platform: char): Result<Envelope, Fault>
  {
    var version :- ByteAt(file, 4);
    var flags :- ByteAt(file, 5);
    if version != 5 && version != 4 then Err(ContentLoad)
    else
      var length :- I32At(file, 6);
      if !IsCompressed(flags) then Ok(Envelope(platform, version, length, Plain(10)))
      else
        var compressedSize := WrapI32(length - 14);
        var decompressedSize :- I32At(file, 10);
        if decompressedSize < 0 || compressedSize < 0 then Err(Overflow)
        else
          var blocks :- FramesFrom(ReadInto(file, 14, compressedSize), 0);
          if blocks == [] && decompressedSize != 0 then Err(ContentLoad)
          else Ok(Envelope(platform, version, length, Compressed(compressedSize, decompressedSize, blocks)))
  }

  /** ReadAsset on `file`: nothing (null) when the header is not accepted. */
  function AssetOf(file: seq<Byte>): Result<Option<Envelope>, Fault>
  {
    var header := ReadInto(file, 0, 4);
    if !IsXnbHeader(header) then Ok(None)
    else
      var envelope :- EnvelopeOf(file, header[3] as char);
      Ok(Some(envelope))
  }

  /* ----- The methods ----- */

  /** ReadAsset: the file's first four bytes are read into a zeroed array;
      the rest is read only when they form an accepted header. */
  method ReadAsset(file: ByteArray) returns (r: Result<Option<Envelope>, Fault>)
    ensures r == AssetOf(file)
  {
    var stream := new BinaryStream(file);
    var header := stream.Read(4);
    if !IsXnbHeader(header) {
      return Ok(None);
    }
    var envelope :- GetContentReaderFromXnb(stream, header[3] as char);
    return Ok(Some(envelope));
  }

  /** GetContentReaderFromXNB: the version and flags are both read before the
      version is checked; a negative size fails the array allocation; without
      a decoder call the decompressed size must be 0. */
  method GetContentReaderFromXnb(stream: BinaryStream, platform: char) returns (r: Result<Envelope, Fault>)
    requires stream.Valid() && stream.position == 4
    modifies stream
    ensures r == EnvelopeOf(stream.data, platform)
  {
    var version :- stream.ReadByte();
    var flags :- stream.ReadByte();
    var compressed := IsCompressed(flags);
    if version != 5 && version != 4 {
      return Err(ContentLoad);
    }
    var length :- stream.ReadInt32();
    if !compressed {
      return Ok(Envelope(platform, version, length, Plain(stream.position)));
    }
    var compressedSize := WrapI32(length - 14);
    var decompressedSize :- stream.ReadInt32();
    if decompressedSize < 0 || compressedSize < 0 {
      return Err(Overflow);
    }
    var buffer := stream.Read(compressedSize);
    var compressedStream := new BinaryStream(buffer);
    var blocks :- ReadBlocks(compressedStream);
    if blocks == [] && decompressedSize != 0 {
      // No decoder call: the decompressed stream is still at 0.
      return Err(ContentLoad);
    }
    return Ok(Envelope(platform, version, length, Compressed(compressedSize, decompressedSize, blocks)));
  }

  /** The header reads at the top of the framing loop: two bytes, and three
      more when the first is 0xFF. A read past the end gives -1, which the
      `(byte)` casts of the long form turn into 255. */
  method ReadBlockHeader(compressed: BinaryStream) returns (header: BlockHeader)
    requires compressed.Valid() && compressed.position < |compressed.data|
    modifies compressed
    ensures compressed.Valid()
    ensures header == BlockHeaderAt(compressed.data, old(compressed.position))
  {
    var hi := compressed.ReadByteOrEnd();
    var lo := compressed.ReadByteOrEnd();
    var blockSize := ShiftOr(hi, lo);
    var frameSize := 0x8000;
    var length := 2;
    if hi == 0xFF {
      hi := lo;
      var b := compressed.ReadByteOrEnd();
      lo := AsByte(b);
      frameSize := ShiftOr(hi, lo);
      b := compressed.ReadByteOrEnd();
      hi := AsByte(b);
      b := compressed.ReadByteOrEnd();
      lo := AsByte(b);
      blockSize := ShiftOr(hi, lo);
      length := 5;
    }
    header := BlockHeader(length, frameSize, blockSize);
  }

  /** The framing loop over the compressed payload: the decoder calls it
      makes, in order. The stream is moved to `pos` after every block. */
  method ReadBlocks(compressed: BinaryStream) returns (r: Result<seq<Block>, Fault>)
    requires compressed.Valid() && compressed.position == 0
    modifies compressed
    ensures r == FramesFrom(compressed.data, 0)
  {
    var compressedSize := |compressed.data|;
    var blocks: seq<Block> := [];
    var pos := 0;
    assert Prepend([], FramesFrom(compressed.data, 0)) == FramesFrom(compressed.data, 0) by {
      if FramesFrom(compressed.data, 0).Ok? {
        assert [] + FramesFrom(compressed.data, 0).value == FramesFrom(compressed.data, 0).value;
      }
    }
    while pos < compressedSize
      invariant compressed.Valid() && compressed.position == pos
      invariant FramesFrom(compressed.data, 0) == Prepend(blocks, FramesFrom(compressed.data, pos))
      decreases compressedSize - pos
    {
      ghost var at := pos;
      var header := ReadBlockHeader(compressed);
      var blockSize, frameSize := header.blockSize, header.frameSize;
      pos := pos + header.length;
      if blockSize == 0 || frameSize == 0 {
        assert FramesFrom(compressed.data, at) == Ok([]);
        assert blocks + [] == blocks;
        break;
      }
      FramesNext(compressed.data, at, blocks);
      blocks := blocks + [Block(pos, frameSize, blockSize)];
      pos := pos + blockSize;
      var moved :- compressed.Seek(pos);
    }
    assert blocks + [] == blocks;
    return Ok(blocks);
  }


  /* ----- Lemmas ----- */

  /** ReadAsset returns null, without throwing, exactly when the file does not
      start with 'X', 'N', 'B' and a platform identifier; a file shorter than
      four bytes never does, because the missing bytes stay zero. */
  lemma NullExactlyWithoutSignature(file: seq<Byte>)
    ensures AssetOf(file) == Ok(None) <==> !HasSignature(file)
  {
    var header := ReadInto(file, 0, 4);
    if |file| >= 4 {
      assert header == file[..4];
    } else {
      assert header[3] == 0;
      assert !IsXnbHeader(header);
    }
  }

  /** A compressed file whose sizes are both non-negative, whose framing
      makes no decoder call, and which declares a non-zero decompressed size:
      the decompressed stream is still at 0 when its position is compared
      with that size. */
  predicate NothingDecoded(file: seq<Byte>)
  {
    |file| >= 14 && IsCompressed(file[5]) &&
    var compressedSize := WrapI32(I32At(file, 6).value - 14);
    var decompressedSize := I32At(file, 10).value;
    0 <= compressedSize && 0 < decompressedSize &&
    FramesFrom(ReadInto(file, 14, compressedSize), 0) == Ok([])
  }

  /** The faults GetContentReaderFromXNB can end in. ContentLoadException
      comes from the version check, or from the size check when no block was
      decoded and the declared decompressed size is not 0. */
  lemma EnvelopeFaults(file: seq<Byte>, platform: char)
    ensures EnvelopeOf(file, platform) == Err(ContentLoad) <==>
              |file| >= 6 && ((file[4] != 4 && file[4] != 5) || NothingDecoded(file))
    ensures EnvelopeOf(file, platform).Err? ==>
              EnvelopeOf(file, platform).fault in {ContentLoad, EndOfStream, Overflow, ArgumentOutOfRange}
  {
  }

  /** ReadAsset throws ContentLoadException exactly for an accepted header
      followed by a flags byte and either a version other than 4 or 5
      ("Invalid XNB version") or a compressed payload that decodes no block
      although its declared decompressed size is not 0 ("Decompression
      failed"). */
  lemma VersionChecked(file: seq<Byte>)
    ensures AssetOf(file) == Err(ContentLoad) <==>
              HasSignature(file) && |file| >= 6 && ((file[4] != 4 && file[4] != 5) || NothingDecoded(file))
  {
    NullExactlyWithoutSignature(file);
    if HasSignature(file) {
      assert ReadInto(file, 0, 4) == file[..4];
      EnvelopeFaults(file, file[3] as char);
    }
  }

  /** The file "XNBw", version 5, compressed, a length of 14 and a declared
      decompressed size of 5: the empty payload decodes nothing, so the size
      check fails. */
  lemma EmptyPayloadFailsSizeCheck()
    ensures AssetOf([0x58, 0x4E, 0x42, 0x77, 5, 0x80, 14, 0, 0, 0, 5, 0, 0, 0]) == Err(ContentLoad)
  {
    var file: seq<Byte> := [0x58, 0x4E, 0x42, 0x77, 5, 0x80, 14, 0, 0, 0, 5, 0, 0, 0];
    assert ReadInto(file, 0, 4) == file[..4];
    assert I32At(file, 6) == Ok(14);
    assert I32At(file, 10) == Ok(5);
  }

  /** What an accepted file gives: the platform byte, a version of 4 or 5,
      the int32 length at 6, and, exactly when the flags byte has its top bit
      set, a compressed payload of `length - 14` bytes (as unchecked int
      arithmetic computes it) whose blocks are the framing of the bytes from
      14 on; otherwise the content starts at 10. */
  lemma AcceptedEnvelope(file: seq<Byte>)
    requires AssetOf(file).Ok? && AssetOf(file).value.Some?
    ensures var e := AssetOf(file).value.value;
            HasSignature(file) && |file| >= 10 &&
            e.platform == file[3] as char && e.platform in Platforms &&
            (e.version == 4 || e.version == 5) && e.version == file[4] &&
            e.length == I32At(file, 6).value &&
            (e.payload.Compressed? <==> file[5] >= 0x80) &&
            (e.payload.Plain? ==> e.payload.start == 10)
  {
    NullExactlyWithoutSignature(file);
    assert ReadInto(file, 0, 4) == file[..4];
  }

  /** The sizes of a compressed payload: the compressed size is the length
      minus the 14 header bytes, wrapped to an int; the decompressed size is
      the int32 at 10; both are non-negative, and the decompressed size is 0
      when no block is decoded. */
  lemma CompressedSizes(file: seq<Byte>)
    requires AssetOf(file).Ok? && AssetOf(file).value.Some?
    requires AssetOf(file).value.value.payload.Compressed?
    ensures var e := AssetOf(file).value.value;
            var p := e.payload;
            |file| >= 14 && p.decompressedSize == I32At(file, 10).value && 0 <= p.decompressedSize &&
            0 <= p.compressedSize && (p.blocks == [] ==> p.decompressedSize == 0) &&
            (e.length >= 14 ==> p.compressedSize == e.length - 14) &&
            (e.length < 14 ==> e.length < -0x8000_0000 + 14 && p.compressedSize == e.length - 14 + TwoTo32) &&
            FramesFrom(ReadInto(file, 14, p.compressedSize), 0) == Ok(p.blocks)
  {
    NullExactlyWithoutSignature(file);
    assert ReadInto(file, 0, 4) == file[..4];
  }

  /** A compressed file whose header, version and sizes are all present fails
      with OverflowException exactly when one of the two sizes is negative:
      the arrays for the payloads cannot be allocated. */
  lemma NegativeSizeOverflows(file: seq<Byte>)
    requires HasSignature(file) && |file| >= 14 && (file[4] == 4 || file[4] == 5) && file[5] >= 0x80
    ensures AssetOf(file) == Err(Overflow) <==>
              I32At(file, 10).value < 0 || WrapI32(I32At(file, 6).value - 14) < 0
  {
    NullExactlyWithoutSignature(file);
    assert ReadInto(file, 0, 4) == file[..4];
  }

  /** The framing moves strictly forward: every block handed to the decoder
      has two non-zero sizes, a block size of at least -1, and starts after a
      header at or beyond `pos`; each block starts after the previous block
      and a header of at least two bytes, so the offsets strictly increase. */
  lemma {:induction false} BlocksInOrder(buf: seq<Byte>, pos: nat)
    requires FramesFrom(buf, pos).Ok?
    ensures var blocks := FramesFrom(buf, pos).value;
            (forall i :: 0 <= i < |blocks| ==> blocks[i].blockSize != 0 && blocks[i].frameSize != 0 && blocks[i].blockSize >= -1) &&
            (forall i :: 0 <= i < |blocks| ==> pos + 2 <= blocks[i].offset) &&
            (forall i :: 0 < i < |blocks| ==>
               blocks[i - 1].offset + blocks[i - 1].blockSize + 2 <= blocks[i].offset && blocks[i - 1].offset < blocks[i].offset)
    decreases |buf| - pos
  {
    if pos < |buf| {
      var header := BlockHeaderAt(buf, pos);
      if header.blockSize != 0 && header.frameSize != 0 {
        var next := pos + header.length + header.blockSize;
        BlocksInOrder(buf, next);
        var rest := FramesFrom(buf, next).value;
        var blocks := FramesFrom(buf, pos).value;
        assert blocks == [Block(pos + header.length, header.frameSize, header.blockSize)] + rest;
        forall i | 0 < i < |blocks|
          ensures blocks[i - 1].offset + blocks[i - 1].blockSize + 2 <= blocks[i].offset
        {
          assert blocks[i] == rest[i - 1];
          if i > 1 {
            assert blocks[i - 1] == rest[i - 2];
          }
        }
      }
    }
  }

  /** Sixteen platforms are accepted, each under its own identifier. */
  lemma SixteenPlatforms()
    ensures |Platforms| == 16
    ensures forall i, j :: 0 <= i < j < |Platforms| ==> Platforms[i] != Platforms[j]
  {
  }

  /** The framing stops without a block once `pos` reaches the compressed
      size, at a short header of two zero bytes, and at a long header whose
      frame size or block size is zero. */
  lemma ZeroSizeEndsFraming(buf: seq<Byte>, pos: nat)
    ensures pos >= |buf| ==> FramesFrom(buf, pos) == Ok([])
    ensures pos + 2 <= |buf| && buf[pos] == 0 && buf[pos + 1] == 0 ==> FramesFrom(buf, pos) == Ok([])
    ensures pos + 5 <= |buf| && buf[pos] == 0xFF &&
            ((buf[pos + 1] == 0 && buf[pos + 2] == 0) || (buf[pos + 3] == 0 && buf[pos + 4] == 0)) ==>
              FramesFrom(buf, pos) == Ok([])
  {
  }

  /** A short block of one byte, a long block of two bytes with a 16-byte
      frame, then a zero header: two decoder calls. */
  lemma FramingExample()
    ensures FramesFrom([0x00, 0x01, 0xAA, 0xFF, 0x00, 0x10, 0x00, 0x02, 0xBB, 0xCC, 0x00, 0x00], 0) ==
              Ok([Block(2, 0x8000, 1), Block(8, 0x10, 2)])
  {
    var buf: seq<Byte> := [0x00, 0x01, 0xAA, 0xFF, 0x00, 0x10, 0x00, 0x02, 0xBB, 0xCC, 0x00, 0x00];
    assert BlockHeaderAt(buf, 10).blockSize == 0;
    assert FramesFrom(buf, 10) == Ok([]);
    assert BlockHeaderAt(buf, 3) == BlockHeader(5, 0x10, 2);
    assert [Block(8, 0x10, 2)] + [] == [Block(8, 0x10, 2)];
    assert FramesFrom(buf, 3) == Ok([Block(8, 0x10, 2)]);
    assert BlockHeaderAt(buf, 0) == BlockHeader(2, 0x8000, 1);
    assert [Block(2, 0x8000, 1)] + [Block(8, 0x10, 2)] == [Block(2, 0x8000, 1), Block(8, 0x10, 2)];
  }
}
