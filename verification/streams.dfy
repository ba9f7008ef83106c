/** A .NET stream over a byte array with a BinaryReader on it: the bytes and
    the one position that every read advances. The effect parser reads its
    code through a MemoryStream; the content manager reads the .xnb file
    through a FileStream and the compressed payload through a MemoryStream. */
module Streams {
  import opened Wrappers
  import opened Bytes

  /** The `count` bytes of `data` from `pos`, gathered one at a time. */
  function Span(data: seq<Byte>, pos: nat, count: nat): (bytes: seq<Byte>)
    requires pos + count <= |data|
    ensures |bytes| == count
    decreases count
  {
    if count == 0 then [] else [data[pos]] + Span(data, pos + 1, count - 1)
  }

  /** The gathered bytes are the slice of `data` they cover. */
  lemma {:induction false} SpanIsSlice(data: seq<Byte>, pos: nat, count: nat)
    requires pos + count <= |data|
    ensures Span(data, pos, count) == data[pos..pos + count]
    decreases count
  {
    if count > 0 {
      SpanIsSlice(data, pos + 1, count - 1);
      assert data[pos..pos + count] == [data[pos]] + data[pos + 1..pos + count];
    }
  }

  /** BinaryReader.ReadBytes(count) at position `pos`: the bytes there, fewer
      when the stream ends first, or an exception for a negative count. */
  function BytesAt(data: seq<Byte>, pos: int, count: int): (r: Result<seq<Byte>, Fault>)
    requires 0 <= pos
    ensures r.Ok? <==> 0 <= count
    ensures r.Err? ==> r.fault == ArgumentOutOfRange
    ensures r.Ok? && pos + count <= |data| ==> |r.value| == count
    ensures r.Ok? && pos + count > |data| ==> |r.value| == if pos < |data| then |data| - pos else 0
  {
    if count < 0 then Err(ArgumentOutOfRange)
    else if pos >= |data| then Ok([])
    else if pos + count <= |data| then Ok(Span(data, pos, count))
    else Ok(Span(data, pos, |data| - pos))
  }

  /** What ReadBytes returns is the slice of the stream from `pos`, cut short
      at its end. */
  lemma BytesAtIsSlice(data: seq<Byte>, pos: int, count: int)
    requires 0 <= pos && 0 <= count
    ensures BytesAt(data, pos, count).value ==
      if pos + count <= |data| then data[pos..pos + count]
      else if pos < |data| then data[pos..]
      else []
  {
    if pos + count <= |data| {
      SpanIsSlice(data, pos, count);
    } else if pos < |data| {
      SpanIsSlice(data, pos, |data| - pos);
    }
  }

  /** BinaryReader.ReadByte at `pos`: the byte there, or EndOfStreamException
      at the end of the stream. */
  function ByteAt(data: seq<Byte>, pos: int): (r: Result<Byte, Fault>)
    ensures r.Ok? <==> 0 <= pos < |data|
    ensures r.Ok? ==> r.value == data[pos]
    ensures r.Err? ==> r.fault == EndOfStream
  {
    if 0 <= pos < |data| then Ok(data[pos]) else Err(EndOfStream)
  }

  /** Stream.ReadByte at `pos`: the byte there, or -1 at the end of the stream. */
  function ByteOrEnd(data: seq<Byte>, pos: int): (b: int)
    requires 0 <= pos
    ensures -1 <= b < 256
    ensures b == -1 <==> pos >= |data|
    ensures pos < |data| ==> b == data[pos]
  {
    if pos < |data| then data[pos] else -1
  }

  /** Stream.Read(buffer, 0, count) into a fresh zeroed array of `count`
      bytes: the bytes from `pos` as far as the stream goes, and zeros after. */
  function ReadInto(data: seq<Byte>, pos: nat, count: nat): (buffer: seq<Byte>)
    ensures |buffer| == count
  {
    seq(count, k requires 0 <= k < count => if pos + k < |data| then data[pos + k] else 0)
  }

  /** What Stream.Read fills in is what ReadBytes returns, and the rest of
      the buffer is left zero. */
  lemma ReadIntoIsBytesThenZeros(data: seq<Byte>, pos: nat, count: nat)
    ensures var read := BytesAt(data, pos, count).value;
            |read| <= count &&
            ReadInto(data, pos, count)[..|read|] == read &&
            forall k :: |read| <= k < count ==> ReadInto(data, pos, count)[k] == 0
  {
    BytesAtIsSlice(data, pos, count);
  }

  class BinaryStream {
    const data: ByteArray
    var position: int

    ghost predicate Valid()
      reads this
    {
      0 <= position <= MaxInt32
    }

    constructor(data: ByteArray)
      ensures this.data == data && position == 0 && Valid()
    {
      this.data := data;
      position := 0;
    }

    /** BinaryReader.ReadByte: on success the position has moved by one. */
    method ReadByte() returns (r: Result<Byte, Fault>)
      requires Valid()
      modifies this
      ensures Valid()
      ensures r == ByteAt(data, old(position))
      ensures position == if r.Ok? then old(position) + 1 else old(position)
    {
      r := ByteAt(data, position);
      if r.Ok? {
        position := position + 1;
      }
    }

    /** Stream.ReadByte: the position moves only when a byte was there. */
    method ReadByteOrEnd() returns (b: int)
      requires Valid()
      modifies this
      ensures Valid()
      ensures b == ByteOrEnd(data, old(position))
      ensures position == if old(position) < |data| then old(position) + 1 else old(position)
    {
      b := ByteOrEnd(data, position);
      if position < |data| {
        position := position + 1;
      }
    }

    /** ReadUInt32: on success the position has moved by four. */
    method ReadUInt32() returns (r: Result<U32, Fault>)
      requires Valid()
      modifies this
      ensures Valid()
      ensures r == U32At(data, old(position))
      ensures r.Ok? ==> position == old(position) + 4
    {
      r := U32At(data, position);
      if r.Ok? {
        position := position + 4;
      }
    }

    /** ReadInt32: on success the position has moved by four. */
    method ReadInt32() returns (r: Result<int, Fault>)
      requires Valid()
      modifies this
      ensures Valid()
      ensures r == I32At(data, old(position))
      ensures r.Ok? ==> position == old(position) + 4
    {
      r := I32At(data, position);
      if r.Ok? {
        position := position + 4;
      }
    }

    /** ReadBytes(count): on success the position has moved past the bytes read. */
    method ReadBytes(count: int) returns (r: Result<seq<Byte>, Fault>)
      requires Valid()
      modifies this
      ensures Valid()
      ensures r == BytesAt(data, old(position), count)
      ensures r.Ok? ==> position == old(position) + |r.value|
    {
      r := BytesAt(data, position, count);
      if r.Ok? {
        position := position + |r.value|;
      }
    }

    /** Stream.Read into a fresh array of `count` bytes: the position moves
        past the bytes that were there. */
    method Read(count: nat) returns (buffer: seq<Byte>)
      requires Valid()
      modifies this
      ensures Valid()
      ensures buffer == ReadInto(data, old(position), count)
      ensures position == old(position) + |BytesAt(data, old(position), count).value|
    {
      buffer := ReadInto(data, position, count);
      var read := BytesAt(data, position, count).value;
      position := position + |read|;
    }

    /** Assigning Stream.Position: a MemoryStream refuses a negative position
        or one beyond int.MaxValue; any other, even past the end, is kept. */
    method Seek(target: int) returns (r: Result<int, Fault>)
      requires Valid()
      modifies this
      ensures Valid()
      ensures r.Ok? <==> 0 <= target <= MaxInt32
      ensures r.Ok? ==> position == target && r.value == target
      ensures r.Err? ==> position == old(position) && r.fault == ArgumentOutOfRange
    {
      if target < 0 || target > MaxInt32 {
        return Err(ArgumentOutOfRange);
      }
      position := target;
      return Ok(target);
    }
  }
}
