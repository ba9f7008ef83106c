# XNAShaderDecompiler effect and container reader, modelled in Dafny

XNAShaderDecompiler reads compiled XNA effects.

- **`ContentManager`** opens the `.xnb` container. It checks the `XNB` signature, the platform character and the version byte. For a compressed file it walks the LZX block headers and hands each block to the decoder.
- **`EffectParser`** walks the effect binary. It checks the magic word, which may follow a legacy preamble. It fixes the origin that name offsets are measured from (`_startPos`). Then it reads the parameter and technique tables record by record, with one stream position that every read advances.
- **`BinReader`** is a small cursor over an immutable byte array.
- **`RenderStateType`** and **`SymbolClass`** are the integer code tables the parser's records use.

The project has these modules:

- `bytes.dfy`
  - `Wrappers`: the `Result` type that carries a .NET exception as a `Fault`.
  - `Bytes`: bytes, little-endian words, and unchecked `uint`/`int` wrap-around.
- `streams.dfy`
  - `Streams`: a stream with a `BinaryReader` on it, as the class `BinaryStream` with one `position`.
  - The specification functions of its reads: `BytesAt`, `ByteAt`, `ByteOrEnd`, `ReadInto`.
- `bin_reader.dfy`
  - `BinReading`: the `BinReader` class.
- `effect_parser.dfy`
  - `EffectParsing`: the record structs and the class `EffectParser`.
  - Its loop methods are each proved against a specification function of the bytes and a start position: `ParamsAt`, `TechniquesAt`, `PassesAt`, `StatesAt`, `AnnotationsAt`, `NameAt`, `ParseEffect`.
- `content_manager.dfy`
  - `ContentManagement`: `ReadAsset`, `GetContentReaderFromXnb` and the framing loop `ReadBlocks`.
  - These are proved against `AssetOf`, `EnvelopeOf` and `FramesFrom`.
- `render_state.dfy`, `symbol_class.dfy`
  - `RenderStates`, `SymbolClasses`: the two enums, with their numbering pinned down.

Each specification function returns `Ok(Parsed(value, next))`: the value read and the stream position after it. If a read throws, it returns `Err(fault)` instead. A method `Agrees` with its specification function when it returns the same value or fault and leaves the stream at `next`.

Where the code and a plain description of the format differ, the model follows the code:

- **Name offsets.** Name offsets are not counted from the start of the effect. They count from `_startPos`, the position just after the table-offset field (`EffectParser.cs:106`, `:267`).
- **Framing loop.** The framing loop does not simply read bytes. `Stream.ReadByte` gives -1 at the end of the payload, and that -1 goes through `(hi << 8) | lo` and the `(byte)` casts as .NET computes them.

## Model

| member | source | states |
|---|---|---|
| Bytes.WrapU32 | XNAShaderDecompiler/EffectParser.cs:96 | unchecked `uint` arithmetic: the identity on 0..2^32-1; one wrap adds or subtracts 2^32 |
| Bytes.ToInt32 | XNAShaderDecompiler/EffectParser.cs:246 | the unchecked `uint`-to-`int` cast: unchanged up to int.MaxValue, negative above it, and wrapping back gives the `uint` |
| Bytes.WrapI32 | XNAShaderDecompiler/ContentManager.cs:66 | unchecked `int` subtraction: the identity inside the `int` range, and always an `int` |
| Bytes.U32At | XNAShaderDecompiler/EffectParser.cs:93 | `ReadUInt32` succeeds exactly when four bytes remain, and otherwise throws EndOfStreamException |
| Bytes.U32AtIsLittleEndian | XNAShaderDecompiler/EffectParser.cs:93 | the word read is the little-endian value of those four bytes |
| Bytes.LittleEndianFour | XNAShaderDecompiler/BinReader.cs:21 | a four-byte little-endian value, byte by byte; it is below 2^32 |
| Bytes.I32At | XNAShaderDecompiler/EffectParser.cs:268 | `ReadInt32` succeeds exactly when `ReadUInt32` would; its value is the `int` with that bit pattern |
| Streams.BytesAt | XNAShaderDecompiler/EffectParser.cs:269 | `ReadBytes(count)`: a negative count throws ArgumentOutOfRangeException; otherwise it returns `count` bytes, or all that remain when fewer do |
| Streams.BytesAtIsSlice | XNAShaderDecompiler/EffectParser.cs:269 | the bytes returned are the slice from the position, cut off at the end of the stream |
| Streams.ByteAt | XNAShaderDecompiler/ContentManager.cs:54-55 | `BinaryReader.ReadByte`: the byte there; EndOfStreamException exactly at or past the end |
| Streams.ByteOrEnd | XNAShaderDecompiler/ContentManager.cs:92-93 | `Stream.ReadByte`: a byte inside the stream, and -1 exactly at or past its end |
| Streams.ReadIntoIsBytesThenZeros | XNAShaderDecompiler/ContentManager.cs:84 | `Stream.Read` into a fresh array fills in the bytes `ReadBytes` would return and leaves the rest zero |
| Streams.BinaryStream.constructor | XNAShaderDecompiler/EffectParser.cs:88-89 | a `MemoryStream` over the bytes, with a `BinaryReader` on it, stands at position 0 |
| Streams.BinaryStream.ReadByte | XNAShaderDecompiler/ContentManager.cs:54-55 | returns `ByteAt` at the position and moves one byte only on success |
| Streams.BinaryStream.ReadByteOrEnd | XNAShaderDecompiler/ContentManager.cs:92-93 | returns `ByteOrEnd` at the position; the position moves only when a byte was there |
| Streams.BinaryStream.ReadUInt32 | XNAShaderDecompiler/EffectParser.cs:93 | returns `U32At` at the position and moves four bytes on success |
| Streams.BinaryStream.ReadInt32 | XNAShaderDecompiler/EffectParser.cs:268 | returns `I32At` at the position and moves four bytes on success |
| Streams.BinaryStream.ReadBytes | XNAShaderDecompiler/EffectParser.cs:269 | returns `BytesAt` and moves past exactly the bytes returned |
| Streams.BinaryStream.Read | XNAShaderDecompiler/ContentManager.cs:84 | returns the zero-padded buffer `ReadInto` and moves past the bytes that were there |
| Streams.BinaryStream.Seek | XNAShaderDecompiler/EffectParser.cs:110 | setting the position succeeds exactly for 0..int.MaxValue, even past the end; otherwise it throws ArgumentOutOfRangeException and the position is unchanged |
| BinReading.GetString | XNAShaderDecompiler/BinReader.cs:64 | `Encoding.GetString(data, start, count)` succeeds exactly when the range lies inside the array, and gives those bytes; otherwise ArgumentOutOfRangeException |
| BinReading.LengthPrefixedAt | XNAShaderDecompiler/BinReader.cs:59-67 | the string whose `uint` length is at `at`: present exactly when the length fits, and equal to the bytes right after the length field |
| BinReading.SliceStart | XNAShaderDecompiler/BinReader.cs:75 | `index + offset` as unchecked `uint` arithmetic |
| BinReading.SliceOfSlice | XNAShaderDecompiler/BinReader.cs:75 | `Slice(a).Slice(b)` starts where `Slice(a + b)` starts, with the sum wrapped |
| BinReading.BinReader.constructor | XNAShaderDecompiler/BinReader.cs:11-15 | a reader over `data` at `index` |
| BinReading.BinReader.Peek | XNAShaderDecompiler/BinReader.cs:27-33 | `Read<T>(offset)`: the little-endian value of `sizeof(T)` bytes at `index + offset`; the index does not move |
| BinReading.BinReader.Read | XNAShaderDecompiler/BinReader.cs:17-25 | `Read<T>()`: returns what `Peek(0)` gave and moves the index by exactly `sizeof(T)` |
| BinReading.BinReader.Skip | XNAShaderDecompiler/BinReader.cs:40-43 | the index moves by `length`, modulo 2^32; the data is untouched |
| BinReading.BinReader.SkipWidth | XNAShaderDecompiler/BinReader.cs:35-38 | `Skip<T>()`: the index moves by `sizeof(T)`, modulo 2^32 |
| BinReading.BinReader.PeekBytes | XNAShaderDecompiler/BinReader.cs:52-57 | `ReadBytes(offset, count)`: the `count` bytes at the wrapped `index + offset`, present exactly when they lie inside the array. ArgumentOutOfRangeException exactly when the start or the count exceeds int.MaxValue, from the `long` overload of `Array.Copy`. Otherwise ArgumentException when the bytes run past the end |
| BinReading.BinReader.ReadBytes | XNAShaderDecompiler/BinReader.cs:45-50 | `ReadBytes(count)`: `PeekBytes(0, count)`, with the same two exceptions. On success it is exactly the slice `data[index..index + count]` and the index moves by `count`; on an exception the index does not move |
| BinReading.BinReader.ReadString | XNAShaderDecompiler/BinReader.cs:59-67 | `ReadString(offset)`: the length-prefixed string at `index + offset`; on success the index is back where it was, and when `GetString` throws it is left just after the length field |
| BinReading.BinReader.ReadFixedString | XNAShaderDecompiler/BinReader.cs:69-73 | `ReadString(offset, length)`: a zero length gives the empty string without reading; otherwise the string is present exactly when the `(int)`-cast start `index + offset` and length give a range inside the array, and it is that range; an out-of-range start or length throws ArgumentOutOfRangeException |
| BinReading.BinReader.Slice | XNAShaderDecompiler/BinReader.cs:75 | a fresh reader over the same data at the wrapped `index + offset` |
| BinReading.LengthPrefixedIsFixedString | XNAShaderDecompiler/BinReader.cs:59-73 | the two string forms agree: a length-prefixed string is the fixed-length string of that length four bytes on |
| SymbolClasses.FromCode | XNAShaderDecompiler/SymbolClass.cs:5-11 | a code names a class exactly when it is 0..6, and that class has the code |
| SymbolClasses.CodesFollowDeclarationOrder | XNAShaderDecompiler/SymbolClass.cs:5-11 | SCALAR is 0, and each class is one above the class declared before it |
| SymbolClasses.CodeRoundTrip | XNAShaderDecompiler/SymbolClass.cs:5-11 | decoding a class's code gives the class back, so the codes are distinct |
| SymbolClasses.RealClassesAreZeroToFive | XNAShaderDecompiler/SymbolClass.cs:11 | the classes other than the TOTAL sentinel are exactly codes 0..5; TOTAL is 6 |
| SymbolClasses.NumericClassesBelowObject | XNAShaderDecompiler/SymbolClass.cs:5-9 | the numeric classes are exactly codes 0..3, all below OBJECT |
| RenderStates.DeclaredFirstNumbering | XNAShaderDecompiler/RenderStateType.cs:13-28 | RS_ZENABLE to RS_SPECULARENABLE are codes 0 to 15, one apart |
| RenderStates.DeclaredSecondNumbering | XNAShaderDecompiler/RenderStateType.cs:29-43 | RS_FOGCOLOR to RS_TEXTUREFACTOR are codes 16 to 30 |
| RenderStates.WrapsNumbering | XNAShaderDecompiler/RenderStateType.cs:44-59 | RS_WRAP0 to RS_WRAP15 are codes 31 to 46 |
| RenderStates.DeclaredFourthNumbering | XNAShaderDecompiler/RenderStateType.cs:60-75 | the sixteen states from RS_CLIPPING are codes 47 to 62 |
| RenderStates.DeclaredFifthNumbering | XNAShaderDecompiler/RenderStateType.cs:76-91 | the next sixteen states are codes 63 to 78 |
| RenderStates.DeclaredSixthNumbering | XNAShaderDecompiler/RenderStateType.cs:92-107 | the next sixteen states are codes 79 to 94 |
| RenderStates.DeclaredLastNumbering | XNAShaderDecompiler/RenderStateType.cs:108-115 | the last eight states, up to RS_BLENDOPALPHA, are codes 95 to 102 |
| RenderStates.ContiguousNumbering | XNAShaderDecompiler/RenderStateType.cs:13-115 | RS_ZENABLE is 0, and codes rise by one in declaration order up to RS_BLENDOPALPHA at 102 |
| RenderStates.WrapCodes | XNAShaderDecompiler/RenderStateType.cs:44-59 | the sixteen wrap states are the gap-free run 31 to 46 inside the contiguous codes |
| RenderStates.NamedCodes | XNAShaderDecompiler/RenderStateType.cs:13-121 | the named codes are exactly 0..102, 146 and 147; codes 103..145 name no state |
| RenderStates.ShaderPseudoStates | XNAShaderDecompiler/RenderStateType.cs:117-121 | RS_VERTEXSHADER is 146 and RS_PIXELSHADER is 147, both outside the contiguous run |
| EffectParsing.ReadValue | XNAShaderDecompiler/EffectParser.cs:255-262 | whatever the offsets, the value is `default(EffectValue)`, and nothing is read |
| EffectParsing.HeaderMagic | XNAShaderDecompiler/EffectParser.cs:93-100 | the word where the magic belongs is the word just before the position it returns. That is the first word unless the first word is the legacy preamble 0xBCF00BCF. After the preamble it is the word after the skipped bytes. The only faults are end of stream and a refused seek |
| EffectParsing.StateAt | XNAShaderDecompiler/EffectParser.cs:241-247 | a state record is read exactly when sixteen bytes remain, and otherwise throws EndOfStreamException. Its code is the first word as a signed `int`, its value is the default, and the position moves sixteen bytes |
| EffectParsing.EffectParser.constructor | XNAShaderDecompiler/EffectParser.cs:78-82 | a parser over the effect's code with `_startPos` 0 |
| EffectParsing.EffectParser.Parse | XNAShaderDecompiler/EffectParser.cs:84-134 | fails exactly when `ParseEffect` does, with the same exception; on success `_startPos`, `EffectParams`, `EffectTechniques` and `EffectObjects` hold what `ParseEffect` read |
| EffectParsing.EffectParser.ReadTableOrigin | XNAShaderDecompiler/EffectParser.cs:93-110 | the magic after any preamble, then the offset and the seek; the result is `TableOriginOf`, and the stream stands at `startPos + offset` |
| EffectParsing.EffectParser.ReadTables | XNAShaderDecompiler/EffectParser.cs:116-133 | the four counts, the parameters, the techniques and the two object counts, in that order; the result is `TablesAt` |
| EffectParsing.EffectParser.ReadParameters | XNAShaderDecompiler/EffectParser.cs:136-158 | agrees with `ParamsAt`: `numParams` records read back to back, in record order |
| EffectParsing.EffectParser.ReadParam | XNAShaderDecompiler/EffectParser.cs:144-154 | agrees with `ParamAt`: four words, then the annotations |
| EffectParsing.EffectParser.ReadAnnotations | XNAShaderDecompiler/EffectParser.cs:160-178 | agrees with `AnnotationsAt`: every record is read and none is kept |
| EffectParsing.EffectParser.ReadTechniques | XNAShaderDecompiler/EffectParser.cs:180-203 | agrees with `TechniquesAt`: `numTechniques` records, names resolved from `_startPos` |
| EffectParsing.EffectParser.ReadTechnique | XNAShaderDecompiler/EffectParser.cs:188-199 | agrees with `TechniqueAt`: three words, the name, the annotations, then the passes |
| EffectParsing.EffectParser.ReadPasses | XNAShaderDecompiler/EffectParser.cs:205-228 | agrees with `PassesAt`: `numPasses` records in record order |
| EffectParsing.EffectParser.ReadPass | XNAShaderDecompiler/EffectParser.cs:214-224 | agrees with `PassAt`: three words, the name, the annotations, then the states |
| EffectParsing.EffectParser.ReadStates | XNAShaderDecompiler/EffectParser.cs:230-253 | agrees with `StatesAt`: `numStates` sixteen-byte records in record order |
| EffectParsing.EffectParser.ReadString | XNAShaderDecompiler/EffectParser.cs:264-272 | returns `NameAt` for `_startPos + offset`; on success the stream is back at its position on entry |
| EffectParsing.EffectParser.ReadSmallObjects | XNAShaderDecompiler/EffectParser.cs:274-277 | reads nothing: the stream is unchanged |
| EffectParsing.EffectParser.ReadLargeObjects | XNAShaderDecompiler/EffectParser.cs:279-282 | reads nothing: the stream is unchanged |
| EffectParsing.RecordsCount | XNAShaderDecompiler/EffectParser.cs:142-155 | a list of `n` records read successfully has exactly `n` entries |
| EffectParsing.RecordsFaultFrom | XNAShaderDecompiler/EffectParser.cs:142-155 | a list fails only with a fault that one of its records fails with |
| EffectParsing.AnnotationsConsumed | XNAShaderDecompiler/EffectParser.cs:160-178 | annotations take exactly eight bytes each; the read succeeds exactly when they are all there (or the count is zero), gives an empty list, and otherwise fails at the end of the stream |
| EffectParsing.StatesConsumed | XNAShaderDecompiler/EffectParser.cs:230-253 | states take exactly sixteen bytes each; the read succeeds exactly when they are all there, giving `numStates` states, and otherwise fails at the end of the stream |
| EffectParsing.StateRecord | XNAShaderDecompiler/EffectParser.cs:241-247 | a state record gives its first word cast to RenderStateType, the default value, and the position sixteen bytes on |
| EffectParsing.StateCodes | XNAShaderDecompiler/EffectParser.cs:237-250 | the `k`-th state carries the code of the `k`-th record; no code is refused, named or not |
| EffectParsing.ParamConsumed | XNAShaderDecompiler/EffectParser.cs:144-154 | a parameter is sixteen bytes plus eight per annotation; it has no annotations and the default value, and fails only at the end of the stream |
| EffectParsing.ParamsCounted | XNAShaderDecompiler/EffectParser.cs:136-158 | `ReadParameters` returns exactly `numParams` parameters and fails only at the end of the stream |
| EffectParsing.NameFaults | XNAShaderDecompiler/EffectParser.cs:264-269 | a name is read exactly when `_startPos + offset` lies in 0..int.MaxValue, four bytes of length are there, and the length read as an `int` is not negative; every failure is a read fault |
| EffectParsing.NameIsLengthPrefixed | XNAShaderDecompiler/EffectParser.cs:264-272 | the name is the `len` bytes after its length field, cut short at the end of the stream |
| EffectParsing.PassConsumed | XNAShaderDecompiler/EffectParser.cs:214-224 | a pass is twelve bytes plus eight per annotation and sixteen per state; it keeps its name and `numStates` states and no annotation |
| EffectParsing.PassesCounted | XNAShaderDecompiler/EffectParser.cs:205-228 | `ReadPasses` returns exactly `numPasses` passes and fails only with a read fault |
| EffectParsing.TechniqueConsumed | XNAShaderDecompiler/EffectParser.cs:188-199 | a technique is twelve bytes, then its annotations and passes; it keeps its name and `numPasses` passes and no annotation |
| EffectParsing.TechniquesCounted | XNAShaderDecompiler/EffectParser.cs:180-203 | `ReadTechniques` returns exactly `numTechniques` techniques and fails only with a read fault |
| EffectParsing.TablesCounted | XNAShaderDecompiler/EffectParser.cs:116-133 | the counts are the words at `startPos + offset`, in the order params, techniques, unused, objects; the tables hold as many parameters and techniques as those counts say; the object list is empty; every failure is a read fault |
| EffectParsing.InvalidEffectExactly | XNAShaderDecompiler/EffectParser.cs:93-103 | Parse throws ContentLoadException exactly when the word where the magic belongs is not 0xFEFF0901; every other failure is a read fault |
| EffectParsing.OriginWithoutPreamble | XNAShaderDecompiler/EffectParser.cs:102-110 | with no preamble, names count from byte 8; an offset past the buffer length throws EndOfStreamException, and one leading past int.MaxValue throws ArgumentOutOfRangeException |
| EffectParsing.OriginAfterPreamble | XNAShaderDecompiler/EffectParser.cs:93-110 | after the preamble, `declared - 8` wraps for a length below 8 and the seek is refused; otherwise names count from `declared + 8` |
| EffectParsing.SmallestEffect | XNAShaderDecompiler/EffectParser.cs:84-134 | the magic, a zero offset and six zero counts parse to empty tables whose names count from 8 |
| ContentManagement.BlockHeaderAt | XNAShaderDecompiler/ContentManager.cs:92-110 | short header: 2 bytes, a 0x8000-byte frame, and a big-endian block size (-1 when the payload ends after the first byte); long header after 0xFF: 5 bytes, a big-endian frame size and then a big-endian block size |
| ContentManagement.ShiftOr | XNAShaderDecompiler/ContentManager.cs:94 | `(hi << 8) \| lo` on two bytes is the big-endian pair: dividing by 256 gives back `hi`, the remainder gives `lo`. With `lo` at -1 it is -1, and with `hi` at -1 it is negative |
| ContentManagement.AsByte | XNAShaderDecompiler/ContentManager.cs:100-104 | the `(byte)` cast keeps a byte and turns the end-of-stream -1 into 255 |
| ContentManagement.FramesFrom | XNAShaderDecompiler/ContentManager.cs:88-121 | the only fault the framing can end in is ArgumentOutOfRangeException from the seek |
| ContentManagement.ReadAsset | XNAShaderDecompiler/ContentManager.cs:29-50 | returns `AssetOf` of the file: null for a rejected header, and otherwise what GetContentReaderFromXNB establishes |
| ContentManagement.GetContentReaderFromXnb | XNAShaderDecompiler/ContentManager.cs:52-121 | returns `EnvelopeOf` of the file for a stream at byte 4 |
| ContentManagement.ReadBlockHeader | XNAShaderDecompiler/ContentManager.cs:92-110 | the two or five header reads give exactly `BlockHeaderAt` at the stream position |
| ContentManagement.ReadBlocks | XNAShaderDecompiler/ContentManager.cs:88-121 | the loop makes exactly the decoder calls `FramesFrom` lists, in order, or ends in its fault |
| ContentManagement.NullExactlyWithoutSignature | XNAShaderDecompiler/ContentManager.cs:31-49 | ReadAsset returns null without throwing exactly when the file does not start with 'X', 'N', 'B' and a listed platform |
| ContentManagement.SixteenPlatforms | XNAShaderDecompiler/ContentManager.cs:9-27 | sixteen distinct platform identifiers are accepted |
| ContentManagement.IsXnbHeader | XNAShaderDecompiler/ContentManager.cs:37-40 | an accepted header is the bytes of 'X', 'N', 'B' followed by one of the listed platform identifiers |
| ContentManagement.HasSignature | XNAShaderDecompiler/ContentManager.cs:37-40 | a file has the signature exactly when it has four bytes and they form an accepted header |
| ContentManagement.IsCompressed | XNAShaderDecompiler/ContentManager.cs:56 | `flags & 0x80` is non-zero exactly when the flags byte is at least 0x80 |
| ContentManagement.EnvelopeFaults | XNAShaderDecompiler/ContentManager.cs:54-128 | ContentLoadException comes exactly from two places. One is a version byte other than 4 or 5. The other is a compressed payload that decodes no block although its declared decompressed size is not 0. Every other failure is a read, allocation or seek fault |
| ContentManagement.VersionChecked | XNAShaderDecompiler/ContentManager.cs:54-128 | ReadAsset throws ContentLoadException exactly for an accepted header followed by a flags byte, when either the version is neither 4 nor 5 or the payload decodes no block under a non-zero declared size |
| ContentManagement.EmptyPayloadFailsSizeCheck | XNAShaderDecompiler/ContentManager.cs:123-127 | a compressed "XNBw" file with an empty payload and a declared decompressed size of 5 throws ContentLoadException |
| ContentManagement.AcceptedEnvelope | XNAShaderDecompiler/ContentManager.cs:37-64 | an accepted file carries its platform byte, a version of 4 or 5, and the `int` length at 6; it is compressed exactly when bit 0x80 of the flags is set, and otherwise its content starts at 10 |
| ContentManagement.CompressedSizes | XNAShaderDecompiler/ContentManager.cs:66-84 | compressed size is `length - 14` (wrapped as `int`); decompressed size is the `int` at 10; both are non-negative; the decompressed size is 0 when no block is decoded; the blocks are the framing of the bytes from 14 |
| ContentManagement.NegativeSizeOverflows | XNAShaderDecompiler/ContentManager.cs:66-83 | a compressed file throws OverflowException exactly when one of the two sizes is negative |
| ContentManagement.BlocksInOrder | XNAShaderDecompiler/ContentManager.cs:90-120 | every decoder call has non-zero sizes and a block size of at least -1. Each block starts at least a two-byte header after the end of the one before, so the block offsets, and with them `pos`, strictly increase |
| ContentManagement.ZeroSizeEndsFraming | XNAShaderDecompiler/ContentManager.cs:90-115 | the framing ends without a block at the end of the payload, at a zero short header, and at a long header with a zero frame or block size |
| ContentManagement.FramingExample | XNAShaderDecompiler/ContentManager.cs:90-121 | a short block, a long block, then a zero header give exactly two decoder calls |

## Left out

- LZX decompression. `LzxDecoder` is not part of this model. Each call of `Decompress` is recorded as a `Block` (offset, frame size, block size), and the decoder is taken to return normally. Its reads of the compressed stream do not affect the framing, because the loop seeks to `pos` after every block.
- The decompressed-size check after a decoded block (`ContentManager.cs:123-127`). Once at least one block has been decoded, the position of the decompressed stream depends on what the decoder wrote. The model takes the check to pass then. When no block is decoded, the position is 0 and the check is modelled. The final seek to 0 (`:129`) cannot fail and is not modelled.
- `decodedBytes` (`ContentManager.cs:87`, `:118`) is never read, so it is not modelled.
- `ContentReader`, `ContentTypeReader`, `EffectReader`, `Effect`, `ContentLoadException` and `Program` are not part of this model.
  - `Envelope` stands for the arguments the `ContentReader` is built from.
  - `reader.ReadAsset<T>()` is not modelled.
  - An effect is given by its code bytes.
  - ContentLoadException is the `ContentLoad` fault.
- File I/O. The file's bytes are a parameter. `Stream.Read` on the file is taken to deliver every byte the file still holds.
- ContentManagement.ReadAsset: takes a file of at most int.MaxValue bytes, the bound of the model's byte arrays. A `FileStream` has no such limit, and longer files are not modelled.
- Runtime limits. Allocation failures for arrays too large for the runtime (OutOfMemoryException) are not modelled. Nor are disposal of the streams and readers.
- BinReading.BinReader.PeekBytes: `new byte[count]` comes before `Array.Copy`. For a count too large for the runtime, the allocation fails first, and that failure is not modelled.
- Text. Names stay as bytes. `Encoding.ASCII` would also replace bytes above 0x7F with '?'.
- Stubs. `SymbolType` is not part of this model, so the parameter type is an integer. Values are left undecoded and the object tables unread, as in the source: `ReadValue` gives the default value, and the two object readers do nothing.
- Lists start empty rather than null. A zero count returns early in the source; the model folds that into the loop, which reads nothing when the count is zero.
- The loops count with an `int` against a `uint` count. Every record takes at least eight bytes, so the stream ends before the counter could overflow, and the overflow is not modelled.
- EffectParsing.EffectParser.Parse: after an exception, neither the fields nor the stream position are described. The exception aborts the parse.
- EffectParsing.EffectParser.ReadString: on an exception the stream position is not described.
- BinReading.BinReader.Read: requires the bytes to lie inside the array. The source reads through an unchecked pointer, whose result out of bounds is undefined.
- BinReading.BinReader.Peek: requires the bytes to lie inside the array, for the same reason.
- BinReading.BinReader.ReadString: requires the length field to lie inside the array, for the same reason.
- The model splits some source code into helper methods:
  - `ReadParam`, `ReadTechnique` and `ReadPass` are the bodies of the list loops.
  - `ReadTableOrigin` and `ReadTables` are the two halves of `Parse`.
  - `ReadBlockHeader` is the header reads at the top of the framing loop.
  - The reads and their order are the source's.
