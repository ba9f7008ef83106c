/** Failure-compatible wrappers shared by every reader in the model. */
module Wrappers {

  datatype Option<+T> = None | Some(value: T)

  /** The value of a read, or the exception that aborted it. */
  datatype Result<+T, +E> = Ok(value: T) | Err(fault: E) {
    predicate IsFailure() { Err? }

    function PropagateFailure<U>(): Result<U, E>
      requires Err?
    {
      Err(fault)
    }

    function Extract(): T
      requires Ok?
    {
      value
    }
  }
}

/** Bytes, fixed-width little-endian integers, .NET integer wrap-around and
    the exceptions the readers can raise. */
module Bytes {
  import opened Wrappers

  type Byte = b: int | 0 <= b < 256

  /** int.MaxValue: the longest .NET array and the furthest MemoryStream position. */
  const MaxInt32: int := 0x7FFF_FFFF
  const TwoTo32: int := 0x1_0000_0000

  type U32 = n: int | 0 <= n < 0x1_0000_0000

  /** A .NET byte[]: never longer than int.MaxValue. */
  type ByteArray = s: seq<Byte> | |s| <= 0x7FFF_FFFF

  /** The exceptions of the modelled code, one variant per .NET exception type. */
  datatype Fault =
    | ContentLoad          // ContentLoadException ("Invalid Effect!", "Invalid XNB version")
    | EndOfStream          // EndOfStreamException
    | ArgumentOutOfRange   // ArgumentOutOfRangeException (stream positions, counts, indices)
    | Argument             // ArgumentException (Array.Copy past the end of the source)
    | Overflow             // OverflowException (an array of negative length)

  function Pow256(n: nat): (p: nat)
    ensures p >= 1
  {
    if n == 0 then 1 else 256 * Pow256(n - 1)
  }

  /** The unsigned little-endian value of `bytes` (least significant byte first). */
  function LittleEndian(bytes: seq<Byte>): (v: nat)
    ensures v < Pow256(|bytes|)
  {
    if |bytes| == 0 then 0
    else
      var rest := LittleEndian(bytes[1..]);
      assert rest <= Pow256(|bytes| - 1) - 1;
      bytes[0] + 256 * rest
  }

  lemma LittleEndianFour(bytes: seq<Byte>)
    requires |bytes| == 4
    ensures LittleEndian(bytes) == bytes[0] as int + 256 * bytes[1] as int + 65536 * bytes[2] as int + 16777216 * bytes[3] as int
    ensures LittleEndian(bytes) < TwoTo32
  {
    var tail1, tail2, tail3 := bytes[1..], bytes[2..], bytes[3..];
    assert tail1[1..] == tail2 && tail2[1..] == tail3 && tail3[1..] == [];
    assert LittleEndian(tail3) == bytes[3] as int;
    assert LittleEndian(tail2) == bytes[2] as int + 256 * bytes[3] as int;
    assert LittleEndian(tail1) == bytes[1] as int + 256 * bytes[2] as int + 65536 * bytes[3] as int;
  }

  /** `x` reduced to 32 bits, as unchecked `uint` arithmetic does. */
  function WrapU32(x: int): (r: U32)
    ensures 0 <= x < TwoTo32 ==> r == x
    ensures -TwoTo32 <= x < 0 ==> r == x + TwoTo32
    ensures TwoTo32 <= x < 2 * TwoTo32 ==> r == x - TwoTo32
  {
    x % TwoTo32
  }

  /** The `int` whose bit pattern is the `uint` `u` (an unchecked cast). */
  function ToInt32(u: U32): (r: int)
    ensures -0x8000_0000 <= r <= MaxInt32
    ensures u <= MaxInt32 ==> r == u
    ensures u > MaxInt32 ==> r < 0
    ensures WrapU32(r) == u
  {
    if u <= MaxInt32 then u else u - TwoTo32
  }

  /** `x` reduced to a signed 32-bit value, as unchecked `int` arithmetic does. */
  function WrapI32(x: int): (r: int)
    ensures -0x8000_0000 <= x <= MaxInt32 ==> r == x
    ensures -0x8000_0000 <= r <= MaxInt32
  {
    ToInt32(WrapU32(x))
  }

  /** BinaryReader.ReadUInt32 at stream position `pos`: four bytes, least
      significant first, or EndOfStreamException when fewer than four remain. */
  function U32At(data: seq<Byte>, pos: int): (r: Result<U32, Fault>)
    ensures r.Ok? <==> 0 <= pos && pos + 4 <= |data|
    ensures r.Err? ==> r.fault == EndOfStream
  {
    if 0 <= pos && pos + 4 <= |data| then
      Ok(data[pos] as int + 256 * data[pos + 1] as int + 65536 * data[pos + 2] as int + 16777216 * data[pos + 3] as int)
    else Err(EndOfStream)
  }

  /** ReadUInt32 is the four-byte case of the little-endian reading. */
  lemma U32AtIsLittleEndian(data: seq<Byte>, pos: int)
    requires 0 <= pos && pos + 4 <= |data|
    ensures U32At(data, pos).value == LittleEndian(data[pos..pos + 4])
  {
    LittleEndianFour(data[pos..pos + 4]);
  }

  /** BinaryReader.ReadInt32: the same four bytes read as a signed value. */
  function I32At(data: seq<Byte>, pos: int): (r: Result<int, Fault>)
    ensures r.Ok? <==> U32At(data, pos).Ok?
    ensures r.Ok? ==> -0x8000_0000 <= r.value <= MaxInt32 && WrapU32(r.value) == U32At(data, pos).value
  {
    var u :- U32At(data, pos);
    Ok(ToInt32(u))
  }
}
