/** BinReader: a cursor over an immutable byte array. The array is never
    written; only the 32-bit `index` moves. Typed reads go through an
    unchecked pointer, so the model states their bounds as preconditions;
    reads that go through Array.Copy or Encoding.GetString are range-checked
    by the runtime, so the model returns their exceptions. */
module BinReading {
  import opened Wrappers
  import opened Bytes

  /** Encoding.ASCII.GetString(bytes, start, count), with the text kept as
      its bytes: an exception unless the range lies inside the array. */
  function GetString(bytes: seq<Byte>, start: int, count: int): (r: Result<seq<Byte>, Fault>)
    ensures r.Ok? <==> 0 <= start && 0 <= count && start + count <= |bytes|
    ensures r.Ok? ==> |r.value| == count && forall k :: 0 <= k < count ==> r.value[k] == bytes[start + k]
    ensures r.Err? ==> r.fault == ArgumentOutOfRange
  {
    if start < 0 || count < 0 || start + count > |bytes| then Err(ArgumentOutOfRange)
    else Ok(bytes[start..start + count])
  }

  /** What ReadString(offset) returns when the length field sits at `at`:
      the uint32 length there, then that many bytes straight after it. */
  function LengthPrefixedAt(bytes: seq<Byte>, at: nat): (r: Result<seq<Byte>, Fault>)
    requires at + 4 <= |bytes| <= MaxInt32
    ensures U32At(bytes, at).Ok?
    ensures r.Ok? <==> at + 4 + U32At(bytes, at).value <= |bytes|
    ensures r.Ok? ==> r.value == bytes[at + 4..at + 4 + U32At(bytes, at).value]
  {
    U32AtIsLittleEndian(bytes, at);
    var len := LittleEndian(bytes[at..at + 4]);
    GetString(bytes, ToInt32(at + 4), ToInt32(len))
  }

  /** `index + offset` as the reader's unchecked uint addition computes it;
      a slice starts there. */
  function SliceStart(index: U32, offset: U32): (start: U32)
    ensures index + offset < TwoTo32 ==> start == index + offset
    ensures index + offset >= TwoTo32 ==> start == index + offset - TwoTo32
  {
    WrapU32(index + offset)
  }

  /** Slicing twice starts where one slice by the (wrapped) sum of the two
      offsets starts. */
  lemma SliceOfSlice(index: U32, a: U32, b: U32)
    ensures SliceStart(SliceStart(index, a), b) == SliceStart(index, SliceStart(a, b))
  {
    var ab := SliceStart(a, b);
    if index + a < TwoTo32 {
      if a + b < TwoTo32 {
      } else {
        assert ab == a + b - TwoTo32;
      }
    } else {
      assert SliceStart(index, a) == index + a - TwoTo32;
    }
  }

  class BinReader {
    const data: ByteArray
    var index: U32

    constructor(data: ByteArray, index: U32)
      ensures this.data == data && this.index == index
    {
      this.data := data;
      this.index := index;
    }

    /** Read<T>(offset): the `width` bytes at index + offset, read without
        moving the index (width is sizeof(T)). */
    function Peek(offset: U32, width: nat): (value: nat)
      reads this
      requires index + offset + width <= |data|
      ensures value < Pow256(width)
    {
      LittleEndian(data[index + offset..index + offset + width])
    }

    /** Read<T>(): the value at index, after which the index has moved past it. */
    method Read(width: nat) returns (value: nat)
      requires index + width <= |data|
      modifies this
      ensures value == old(Peek(0, width)) && value < Pow256(width)
      ensures index == old(index) + width
    {
      value := LittleEndian(data[index..index + width]);
      index := WrapU32(index + width);
    }

    /** Skip(length): the index moves on by `length`, modulo 2^32. */
    method Skip(length: U32)
      modifies this
      ensures index == WrapU32(old(index) + length)
    {
      index := WrapU32(index + length);
    }

    /** Skip<T>(): the index moves on by sizeof(T), modulo 2^32. */
    method SkipWidth(width: U32)
      modifies this
      ensures index == WrapU32(old(index) + width)
    {
      index := WrapU32(index + width);
    }

    /** ReadBytes(offset, count): a copy of `count` bytes from index + offset
        (a uint sum). The uint arguments select Array.Copy's long overload,
        which throws ArgumentOutOfRangeException for a start or a count beyond
        int.MaxValue, and ArgumentException when the bytes run past the end
        of the array. */
    function PeekBytes(offset: U32, count: U32): (r: Result<seq<Byte>, Fault>)
      reads this
      ensures r.Ok? <==> SliceStart(index, offset) + count <= |data|
      ensures r.Ok? ==> r.value == data[SliceStart(index, offset)..SliceStart(index, offset) + count]
      ensures r.Err? ==> (r.fault == ArgumentOutOfRange <==> SliceStart(index, offset) > MaxInt32 || count > MaxInt32)
      ensures r.Err? ==> (r.fault == Argument <==> SliceStart(index, offset) <= MaxInt32 && count <= MaxInt32)
    {
      var start := WrapU32(index + offset);
      if start > MaxInt32 || count > MaxInt32 then Err(ArgumentOutOfRange)
      else if start + count > |data| then Err(Argument)
      else Ok(data[start..start + count])
    }

    /** ReadBytes(count): the `count` bytes at index, after which the index
        has moved by exactly `count`; on the exception it has not moved. */
    method ReadBytes(count: U32) returns (r: Result<seq<Byte>, Fault>)
      modifies this
      ensures r == old(PeekBytes(0, count))
      ensures r.Ok? ==> index == old(index) + count && r.value == data[old(index)..index]
      ensures r.Err? ==> index == old(index)
    {
      r := PeekBytes(0, count);
      if r.Ok? {
        index := WrapU32(index + count);
      }
    }

    /** ReadString(offset): the length-prefixed string whose length field is
        at index + offset. The index is back where it was on return; when
        Encoding.GetString throws, it is left just after the length field. */
    method ReadString(offset: U32) returns (r: Result<seq<Byte>, Fault>)
      requires SliceStart(index, offset) + 4 <= |data|
      modifies this
      ensures r == LengthPrefixedAt(data, SliceStart(old(index), offset))
      ensures r.Ok? ==> index == old(index)
      ensures r.Err? ==> index == SliceStart(old(index), offset) + 4
    {
      var oldIndex := index;
      index := WrapU32(index + offset);
      var len := Read(4);
      LittleEndianFour(data[index - 4..index]);
      r := GetString(data, ToInt32(index), ToInt32(len));
      if r.Err? {
        return;
      }
      index := oldIndex;
    }

    /** ReadString(offset, length): `length` bytes at index + offset, without
        moving the index; a zero length gives the empty string without
        looking at the array. */
    function ReadFixedString(offset: U32, length: U32): (r: Result<seq<Byte>, Fault>)
      reads this
      ensures length == 0 ==> r == Ok([])
      ensures length > 0 ==>
                var start, count := ToInt32(SliceStart(index, offset)), ToInt32(length);
                (r.Ok? <==> 0 <= start && 0 <= count && start + count <= |data|) &&
                (r.Ok? ==> r.value == data[start..start + count]) &&
                (r.Err? ==> r.fault == ArgumentOutOfRange)
    {
      if length == 0 then Ok([])
      else GetString(data, ToInt32(WrapU32(index + offset)), ToInt32(length))
    }

    /** Slice(offset): a new reader over the same array starting at
        index + offset; this reader's index does not move. */
    method Slice(offset: U32) returns (slice: BinReader)
      ensures fresh(slice)
      ensures slice.data == data && slice.index == SliceStart(index, offset)
    {
      slice := new BinReader(data, WrapU32(index + offset));
    }
  }

  /** The two string forms agree: the length-prefixed string whose length
      field is at index + offset is the fixed-length string of that length
      four bytes further on. */
  lemma LengthPrefixedIsFixedString(reader: BinReader, offset: U32)
    requires SliceStart(reader.index, offset) + 4 <= |reader.data|
    ensures var at := SliceStart(reader.index, offset);
            var len := U32At(reader.data, at).value;
            LengthPrefixedAt(reader.data, at) == reader.ReadFixedString(SliceStart(offset, 4), len)
  {
    var at := SliceStart(reader.index, offset);
    SliceOfSlice(reader.index, offset, 4);
    assert SliceStart(at, 4) == at + 4;
  }
}
