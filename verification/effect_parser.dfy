/** The effect-binary walker (EffectParser). It checks the header magic,
    fixes the origin that every name offset is measured from, and then walks
    the fixed-size records of the parameter and technique tables with one
    stream position that every read advances. Value decoding and the object
    tables are unimplemented in the walker: ReadValue gives a default value
    and the two object readers do nothing, and the model keeps them so. */
module EffectParsing {
  import opened Wrappers
  import opened Bytes
  import opened Streams
  import opened SymbolClasses
  import opened RenderStates

  /** The optional legacy preamble starts with this word. */
  const LegacyMagic: U32 := 0xBCF0_0BCF
  /** The effect binary proper starts with this word. */
  const EffectMagic: U32 := 0xFEFF_0901

  /* ----- The record structs ----- */

  datatype SymbolStructMember = SymbolStructMember(name: Option<seq<Byte>>, info: SymbolTypeInfo)

  /** The parameter type is SymbolType, which is not part of this model: an integer. */
  datatype SymbolTypeInfo = SymbolTypeInfo(
    parameterClass: SymbolClass,
    parameterType: int,
    rows: U32,
    columns: U32,
    elements: U32,
    memberCount: U32,
    members: Option<seq<SymbolStructMember>>)

  /** A value; `None` stands for a null reference. The object values are
      never filled in, so their element type is left as an integer. */
  datatype EffectValue = EffectValue(
    name: Option<seq<Byte>>,
    semantic: Option<seq<Byte>>,
    typeInfo: SymbolTypeInfo,
    values: Option<seq<int>>)

  /** A render state: its code as the uint cast to RenderStateType gives it, and its value. */
  datatype EffectState = EffectState(stateType: RenderStateType, value: EffectValue)

  datatype EffectAnnotation = EffectAnnotation(value: EffectValue)

  datatype EffectPass = EffectPass(name: seq<Byte>, annotations: seq<EffectAnnotation>, states: seq<EffectState>)

  datatype EffectTechnique = EffectTechnique(name: seq<Byte>, annotations: seq<EffectAnnotation>, passes: seq<EffectPass>)

  datatype EffectParam = EffectParam(annotations: seq<EffectAnnotation>, value: EffectValue)

  /** EffectObject has no fields. */
  datatype EffectObject = EffectObject

  /** default(EffectValue): null strings and lists, all-zero type information. */
  const DefaultValue: EffectValue :=
    EffectValue(None, None, SymbolTypeInfo(Scalar, 0, 0, 0, 0, 0, None), None)

  /** ReadValue is unimplemented: whatever the offsets, it gives the default
      value and reads nothing (so it does not take the stream here). */
  function ReadValue(typeOffset: U32, valOffset: U32): (value: EffectValue)
    ensures value == DefaultValue
  {
    DefaultValue
  }

  /* ----- The reads, as functions of the bytes and a stream position ----- */

  /** A record or list read at some position, with the position after it. */
  datatype Parsed<T> = Parsed(value: T, next: int)

  /** A read that returned `r` and left the stream at `position` did what
      `spec` says: it returned the value and stopped where `spec` stops, or
      it failed with the same fault. */
  predicate Agrees<T(==)>(r: Result<T, Fault>, position: int, spec: Result<Parsed<T>, Fault>)
  {
    match spec
    case Ok(parsed) => r == Ok(parsed.value) && position == parsed.next
    case Err(fault) => r == Err(fault)
  }

  /** EffectParser.ReadString(offset): the int32-length-prefixed name at
      startPos + offset. Moving the stream there fails when the position is
      beyond int.MaxValue. */
  function NameAt(data: seq<Byte>, startPos: int, offset: U32): Result<seq<Byte>, Fault>
  {
    var at := startPos + offset;
    if at < 0 || at > MaxInt32 then Err(ArgumentOutOfRange)
    else
      var len :- I32At(data, at);
      BytesAt(data, at + 4, len)
  }

  /** `n` records read back to back from `pos`; `record` reads one record at
      a position and gives the position after it. */
  function RecordsAt<T>(record: int -> Result<Parsed<T>, Fault>, pos: int, n: nat): Result<Parsed<seq<T>>, Fault>
  {
    if n == 0 then Ok(Parsed([], pos))
    else
      var prev :- RecordsAt(record, pos, n - 1);
      var last :- record(prev.next);
      Ok(Parsed(prev.value + [last.value], last.next))
  }

  /** ReadAnnotations: `n` records of (type offset, value offset). Each value
      is read, but the annotation is never added to the list. */
  function AnnotationsAt(data: seq<Byte>, pos: int, n: nat): Result<Parsed<seq<EffectAnnotation>>, Fault>
  {
    if n == 0 then Ok(Parsed([], pos))
    else
      var prev :- AnnotationsAt(data, pos, n - 1);
      var typeOffset :- U32At(data, prev.next);
      var valOffset :- U32At(data, prev.next + 4);
      var annotation := EffectAnnotation(ReadValue(typeOffset, valOffset));
      Ok(Parsed(prev.value, prev.next + 8))
  }

  /** One parameter record: type offset, value offset, flags, annotation
      count, then the annotations. */
  function ParamAt(data: seq<Byte>, pos: int): Result<Parsed<EffectParam>, Fault>
  {
    var typeOffset :- U32At(data, pos);
    var valOffset :- U32At(data, pos + 4);
    var flags :- U32At(data, pos + 8);
    var numAnnotations :- U32At(data, pos + 12);
    var annotations :- AnnotationsAt(data, pos + 16, numAnnotations);
    Ok(Parsed(EffectParam(annotations.value, ReadValue(typeOffset, valOffset)), annotations.next))
  }

  function ParamsAt(data: seq<Byte>, pos: int, n: nat): Result<Parsed<seq<EffectParam>>, Fault>
  {
    RecordsAt(p => ParamAt(data, p), pos, n)
  }

  /** One state record: the state code, an unused word, type offset, value offset. */
  function StateAt(data: seq<Byte>, pos: int): (r: Result<Parsed<EffectState>, Fault>)
    ensures r.Ok? <==> 0 <= pos && pos + 16 <= |data|
    ensures r.Ok? ==> r.value.next == pos + 16 && r.value.value.value == DefaultValue
    ensures r.Ok? ==> r.value.value.stateType as int == ToInt32(U32At(data, pos).value)
    ensures r.Err? ==> r.fault == EndOfStream
  {
    var stateType :- U32At(data, pos);
    var unknown :- U32At(data, pos + 4);
    var typeOffset :- U32At(data, pos + 8);
    var valOffset :- U32At(data, pos + 12);
    Ok(Parsed(EffectState(ToInt32(stateType) as RenderStateType, ReadValue(typeOffset, valOffset)), pos + 16))
  }

  function StatesAt(data: seq<Byte>, pos: int, n: nat): Result<Parsed<seq<EffectState>>, Fault>
  {
    RecordsAt(p => StateAt(data, p), pos, n)
  }

  /** One pass record: name offset, annotation count, state count, then the
      annotations and the states. */
  function PassAt(data: seq<Byte>, startPos: int, pos: int): Result<Parsed<EffectPass>, Fault>
  {
    var nameOffset :- U32At(data, pos);
    var numAnnotations :- U32At(data, pos + 4);
    var numStates :- U32At(data, pos + 8);
    var name :- NameAt(data, startPos, nameOffset);
    var annotations :- AnnotationsAt(data, pos + 12, numAnnotations);
    var states :- StatesAt(data, annotations.next, numStates);
    Ok(Parsed(EffectPass(name, annotations.value, states.value), states.next))
  }

  function PassesAt(data: seq<Byte>, startPos: int, pos: int, n: nat): Result<Parsed<seq<EffectPass>>, Fault>
  {
    RecordsAt(p => PassAt(data, startPos, p), pos, n)
  }

  /** One technique record: name offset, annotation count, pass count, then
      the annotations and the passes. */
  function TechniqueAt(data: seq<Byte>, startPos: int, pos: int): Result<Parsed<EffectTechnique>, Fault>
  {
    var nameOffset :- U32At(data, pos);
    var numAnnotations :- U32At(data, pos + 4);
    var numPasses :- U32At(data, pos + 8);
    var name :- NameAt(data, startPos, nameOffset);
    var annotations :- AnnotationsAt(data, pos + 12, numAnnotations);
    var passes :- PassesAt(data, startPos, annotations.next, numPasses);
    Ok(Parsed(EffectTechnique(name, annotations.value, passes.value), passes.next))
  }

  function TechniquesAt(data: seq<Byte>, startPos: int, pos: int, n: nat): Result<Parsed<seq<EffectTechnique>>, Fault>
  {
    RecordsAt(p => TechniqueAt(data, startPos, p), pos, n)
  }

  /** The header word that must be the effect magic, and the position after
      it: the first word, or, after a legacy preamble, the word that follows
      the `declared - 8` bytes it skips (a uint subtraction). */
  function HeaderMagic(data: seq<Byte>): (r: Result<Parsed<U32>, Fault>)
    ensures r.Ok? ==> 4 <= r.value.next <= |data| && U32At(data, r.value.next - 4) == Ok(r.value.value)
    ensures r.Ok? ==> (r.value.next == 4 <==> U32At(data, 0).value != LegacyMagic)
    ensures r.Err? ==> r.fault == EndOfStream || r.fault == ArgumentOutOfRange
  {
    var header :- U32At(data, 0);
    if header != LegacyMagic then Ok(Parsed(header, 4))
    else
      var declared :- U32At(data, 4);
      var skipTo := 8 + WrapU32(declared as int - 8);
      if skipTo > MaxInt32 then Err(ArgumentOutOfRange)
      else
        var magic :- U32At(data, skipTo);
        Ok(Parsed(magic, skipTo + 4))
  }

  /** Where the tables start: the origin of the name offsets (the position
      just after the offset field) and the offset from there to the counts. */
  datatype TableOrigin = TableOrigin(startPos: int, offset: U32)

  /** The first half of Parse: the magic, then the offset, which must not
      exceed the stream's length and must lead to a position a MemoryStream
      accepts. */
  function TableOriginOf(data: seq<Byte>): Result<TableOrigin, Fault>
  {
    var header :- HeaderMagic(data);
    if header.value != EffectMagic then Err(ContentLoad)
    else
      var offset :- U32At(data, header.next);
      var startPos := header.next + 4;
      if offset > |data| then Err(EndOfStream)
      else if startPos + offset > MaxInt32 then Err(ArgumentOutOfRange)
      else Ok(TableOrigin(startPos, offset))
  }

  /** Everything Parse reads, and what it keeps. */
  datatype EffectTables = EffectTables(
    origin: TableOrigin,
    numParams: U32,
    numTechniques: U32,
    numObjects: U32,
    params: seq<EffectParam>,
    techniques: seq<EffectTechnique>,
    objects: seq<EffectObject>,
    numSmallObjects: U32,
    numLargeObjects: U32)

  /** The second half of Parse: the four counts at startPos + offset, the
      parameters, the techniques and the two object counts. */
  function TablesAt(data: seq<Byte>, origin: TableOrigin): Result<EffectTables, Fault>
  {
    var table := origin.startPos + origin.offset;
    var numParams :- U32At(data, table);
    var numTechniques :- U32At(data, table + 4);
    var unknown :- U32At(data, table + 8);
    var numObjects :- U32At(data, table + 12);
    var params :- ParamsAt(data, table + 16, numParams);
    var techniques :- TechniquesAt(data, origin.startPos, params.next, numTechniques);
    var numSmallObjects :- U32At(data, techniques.next);
    var numLargeObjects :- U32At(data, techniques.next + 4);
    Ok(EffectTables(origin, numParams, numTechniques, numObjects,
                    params.value, techniques.value, [], numSmallObjects, numLargeObjects))
  }

  /** Parse, as a function of the effect code. */
  function ParseEffect(data: seq<Byte>): Result<EffectTables, Fault>
  {
    var origin :- TableOriginOf(data);
    TablesAt(data, origin)
  }

  /* ----- The stream and the parser ----- */

  class EffectParser {
    /** The effect's code (Effect.EffectCode). */
    const effectCode: ByteArray
    /** The origin of every name offset. */
    var startPos: int
    var effectParams: seq<EffectParam>
    var effectTechniques: seq<EffectTechnique>
    var effectObjects: seq<EffectObject>

    constructor(effectCode: ByteArray)
      ensures this.effectCode == effectCode && startPos == 0
      ensures effectParams == [] && effectTechniques == [] && effectObjects == []
    {
      this.effectCode := effectCode;
      startPos := 0;
      effectParams, effectTechniques, effectObjects := [], [], [];
    }

    /** Parse: on success the fields hold what ParseEffect gives; the fault
        is ParseEffect's otherwise. The stream is a fresh one over the effect
        code, so reads start at position 0. */
    method Parse() returns (r: Result<(), Fault>)
      modifies this
      ensures ParseEffect(effectCode).Err? <==> r.Err?
      ensures r.Err? ==> r.fault == ParseEffect(effectCode).fault
      ensures r.Ok? ==>
        var tables := ParseEffect(effectCode).value;
        startPos == tables.origin.startPos && effectParams == tables.params &&
        effectTechniques == tables.techniques && effectObjects == tables.objects
    {
      var br := new BinaryStream(effectCode);
      var origin :- ReadTableOrigin(br);
      startPos := origin.startPos;
      var tables :- ReadTables(br, origin);
      effectObjects := tables.objects;
      effectParams := tables.params;
      effectTechniques := tables.techniques;
      return Ok(());
    }

    /** The header part of Parse: the magic (after any legacy preamble), the
        table offset, and the seek to the tables. */
    method ReadTableOrigin(br: BinaryStream) returns (r: Result<TableOrigin, Fault>)
      requires br.Valid() && br.position == 0
      modifies br
      ensures br.Valid()
      ensures r == TableOriginOf(br.data)
      ensures r.Ok? ==> br.position == r.value.startPos + r.value.offset
    {
      var length := |br.data|;
      var header :- br.ReadUInt32();
      if header == LegacyMagic {
        var declared :- br.ReadUInt32();
        var skip := WrapU32(declared as int - 8);
        var skipped :- br.Seek(br.position + skip);
        header :- br.ReadUInt32();
        assert HeaderMagic(br.data) == Ok(Parsed(header, br.position));
      } else {
        assert HeaderMagic(br.data) == Ok(Parsed(header, br.position));
      }
      if header != EffectMagic {
        return Err(ContentLoad);
      }
      var offset :- br.ReadUInt32();
      var startPos := br.position;
      if offset > length {
        return Err(EndOfStream);
      }
      var moved :- br.Seek(br.position + offset);
      return Ok(TableOrigin(startPos, offset));
    }

    /** The table part of Parse: the counts, the parameters, the techniques
        and the object counts, with the object readers that read nothing. */
    method ReadTables(br: BinaryStream, origin: TableOrigin) returns (r: Result<EffectTables, Fault>)
      requires br.Valid() && br.position == origin.startPos + origin.offset && startPos == origin.startPos
      modifies br
      ensures br.Valid()
      ensures r == TablesAt(br.data, origin)
    {
      var numParams :- br.ReadUInt32();
      var numTechniques :- br.ReadUInt32();
      var unknown :- br.ReadUInt32();
      var numObjects :- br.ReadUInt32();
      var effectObjects := [];
      var params :- ReadParameters(numParams, br);
      var techniques :- ReadTechniques(numTechniques, br);
      var numSmallObjects :- br.ReadUInt32();
      var numLargeObjects :- br.ReadUInt32();
      ReadSmallObjects(numSmallObjects, br);
      ReadLargeObjects(numLargeObjects, br);
      return Ok(EffectTables(origin, numParams, numTechniques, numObjects,
                             params, techniques, effectObjects, numSmallObjects, numLargeObjects));
    }

    /** ReadParameters: exactly `numParams` parameters, in record order. A zero
        count reads nothing: the loop does not run. */
    method ReadParameters(numParams: U32, br: BinaryStream) returns (r: Result<seq<EffectParam>, Fault>)
      requires br.Valid()
      modifies br
      ensures br.Valid()
      ensures Agrees(r, br.position, ParamsAt(br.data, old(br.position), numParams))
    {
      ghost var data := br.data;
      ghost var start := br.position;
      var effectParams := [];
      var i := 0;
      while i < numParams
        invariant 0 <= i <= numParams && br.Valid()
        invariant ParamsAt(data, start, i) == Ok(Parsed(effectParams, br.position))
      {
        ghost var pos := br.position;
        var result := ReadParam(br);
        ParamsNext(data, start, i, numParams, effectParams, pos, result, br.position);
        var param :- result;
        effectParams := effectParams + [param];
        i := i + 1;
      }
      return Ok(effectParams);
    }

    /** The body of ReadParameters's loop: one parameter record. */
    method ReadParam(br: BinaryStream) returns (r: Result<EffectParam, Fault>)
      requires br.Valid()
      modifies br
      ensures br.Valid()
      ensures Agrees(r, br.position, ParamAt(br.data, old(br.position)))
    {
      var typeOffset :- br.ReadUInt32();
      var valOffset :- br.ReadUInt32();
      var flags :- br.ReadUInt32();
      var numAnnotations :- br.ReadUInt32();
      var annotations :- ReadAnnotations(numAnnotations, br);
      return Ok(EffectParam(annotations, ReadValue(typeOffset, valOffset)));
    }

    /** ReadAnnotations: consumes every annotation record, returns none. A
        zero count reads nothing: the loop does not run. */
    method ReadAnnotations(numAnnotations: U32, br: BinaryStream) returns (r: Result<seq<EffectAnnotation>, Fault>)
      requires br.Valid()
      modifies br
      ensures br.Valid()
      ensures Agrees(r, br.position, AnnotationsAt(br.data, old(br.position), numAnnotations))
    {
      ghost var data := br.data;
      ghost var start := br.position;
      var annotations := [];
      var i := 0;
      while i < numAnnotations
        invariant 0 <= i <= numAnnotations && br.Valid()
        invariant AnnotationsAt(data, start, i) == Ok(Parsed(annotations, br.position))
      {
        AnnotationsNext(data, start, i, numAnnotations, annotations, br.position);
        var typeOffset :- br.ReadUInt32();
        var valOffset :- br.ReadUInt32();
        var annotation := EffectAnnotation(ReadValue(typeOffset, valOffset));
        i := i + 1;
      }
      return Ok(annotations);
    }

    /** ReadTechniques: exactly `numTechniques` techniques, in record order. A zero
        count reads nothing: the loop does not run. */
    method ReadTechniques(numTechniques: U32, br: BinaryStream) returns (r: Result<seq<EffectTechnique>, Fault>)
      requires br.Valid()
      modifies br
      ensures br.Valid()
      ensures Agrees(r, br.position, TechniquesAt(br.data, startPos, old(br.position), numTechniques))
    {
      ghost var data := br.data;
      ghost var origin := startPos;
      ghost var start := br.position;
      var effectTechniques := [];
      var i := 0;
      while i < numTechniques
        invariant 0 <= i <= numTechniques && br.Valid()
        invariant TechniquesAt(data, origin, start, i) == Ok(Parsed(effectTechniques, br.position))
      {
        ghost var pos := br.position;
        var result := ReadTechnique(br);
        TechniquesNext(data, origin, start, i, numTechniques, effectTechniques, pos, result, br.position);
        var technique :- result;
        effectTechniques := effectTechniques + [technique];
        i := i + 1;
      }
      return Ok(effectTechniques);
    }

    /** ReadPasses: exactly `numPasses` passes, in record order. A zero
        count reads nothing: the loop does not run. */
    method ReadPasses(numPasses: U32, br: BinaryStream) returns (r: Result<seq<EffectPass>, Fault>)
      requires br.Valid()
      modifies br
      ensures br.Valid()
      ensures Agrees(r, br.position, PassesAt(br.data, startPos, old(br.position), numPasses))
    {
      ghost var data := br.data;
      ghost var origin := startPos;
      ghost var start := br.position;
      var passes := [];
      var i := 0;
      while i < numPasses
        invariant 0 <= i <= numPasses && br.Valid()
        invariant PassesAt(data, origin, start, i) == Ok(Parsed(passes, br.position))
      {
        ghost var pos := br.position;
        var result := ReadPass(br);
        PassesNext(data, origin, start, i, numPasses, passes, pos, result, br.position);
        var pass :- result;
        passes := passes + [pass];
        i := i + 1;
      }
      return Ok(passes);
    }

    /** The body of ReadTechniques's loop: one technique record and the
        annotations and passes after it. */
    method ReadTechnique(br: BinaryStream) returns (r: Result<EffectTechnique, Fault>)
      requires br.Valid()
      modifies br
      ensures br.Valid()
      ensures Agrees(r, br.position, TechniqueAt(br.data, startPos, old(br.position)))
    {
      var nameOffset :- br.ReadUInt32();
      var numAnnotations :- br.ReadUInt32();
      var numPasses :- br.ReadUInt32();
      var name :- ReadString(br, nameOffset);
      var annotations :- ReadAnnotations(numAnnotations, br);
      var passes :- ReadPasses(numPasses, br);
      return Ok(EffectTechnique(name, annotations, passes));
    }

    /** The body of ReadPasses's loop: one pass record and the annotations
        and states after it. */
    method ReadPass(br: BinaryStream) returns (r: Result<EffectPass, Fault>)
      requires br.Valid()
      modifies br
      ensures br.Valid()
      ensures Agrees(r, br.position, PassAt(br.data, startPos, old(br.position)))
    {
      var passNameOffset :- br.ReadUInt32();
      var numAnnotations :- br.ReadUInt32();
      var numStates :- br.ReadUInt32();
      var name :- ReadString(br, passNameOffset);
      var annotations :- ReadAnnotations(numAnnotations, br);
      var states :- ReadStates(numStates, br);
      return Ok(EffectPass(name, annotations, states));
    }

    /** ReadStates: exactly `numStates` states, in record order. A zero
        count reads nothing: the loop does not run. */
    method ReadStates(numStates: U32, br: BinaryStream) returns (r: Result<seq<EffectState>, Fault>)
      requires br.Valid()
      modifies br
      ensures br.Valid()
      ensures Agrees(r, br.position, StatesAt(br.data, old(br.position), numStates))
    {
      ghost var data := br.data;
      ghost var start := br.position;
      var states := [];
      var i := 0;
      while i < numStates
        invariant 0 <= i <= numStates && br.Valid()
        invariant StatesAt(data, start, i) == Ok(Parsed(states, br.position))
      {
        ghost var pos := br.position;
        StatesStep(data, start, i, states, pos);
        StatesFaultPersists(data, start, i + 1, numStates);
        var stateType :- br.ReadUInt32();
        var unknown :- br.ReadUInt32();
        var typeOffset :- br.ReadUInt32();
        var valOffset :- br.ReadUInt32();
        var state := EffectState(ToInt32(stateType) as RenderStateType, ReadValue(typeOffset, valOffset));
        assert StateAt(data, pos) == Ok(Parsed(state, br.position));
        states := states + [state];
        i := i + 1;
      }
      return Ok(states);
    }

    /** ReadString: the name at startPos + offset; on success the stream is
        back where it was. */
    method ReadString(br: BinaryStream, offset: U32) returns (r: Result<seq<Byte>, Fault>)
      requires br.Valid()
      modifies br
      ensures br.Valid()
      ensures r == NameAt(br.data, startPos, offset)
      ensures r.Ok? ==> br.position == old(br.position)
    {
      var start := br.position;
      var at :- br.Seek(startPos + offset);
      var len :- br.ReadInt32();
      var result :- br.ReadBytes(len);
      var restored :- br.Seek(start);
      return Ok(result);
    }

    /** ReadSmallObjects is unimplemented: it reads nothing. */
    method ReadSmallObjects(numSmallObjects: U32, br: BinaryStream)
      ensures unchanged(br)
    {
    }

    /** ReadLargeObjects is unimplemented: it reads nothing. */
    method ReadLargeObjects(numLargeObjects: U32, br: BinaryStream)
      ensures unchanged(br)
    {
    }
  }

  /* ----- Lemmas ----- */

  /** One more record: the list read so far, extended by the record that
      starts where it ends. */
  lemma RecordsStep<T>(record: int -> Result<Parsed<T>, Fault>, pos: int, i: nat, acc: seq<T>, next: int)
    requires RecordsAt(record, pos, i) == Ok(Parsed(acc, next))
    ensures record(next).Ok? ==> RecordsAt(record, pos, i + 1) == Ok(Parsed(acc + [record(next).value.value], record(next).value.next))
    ensures record(next).Err? ==> RecordsAt(record, pos, i + 1) == Err(record(next).fault)
  {
  }

  /** A fault in the first `k` records is the fault of the first `n`. */
  lemma {:induction false} RecordsFaultPersists<T>(record: int -> Result<Parsed<T>, Fault>, pos: int, k: nat, n: nat)
    requires k <= n
    ensures RecordsAt(record, pos, k).Err? ==> RecordsAt(record, pos, n) == RecordsAt(record, pos, k)
    decreases n
  {
    if k < n {
      RecordsFaultPersists(record, pos, k, n - 1);
    }
  }

  /** One turn of a reading loop: once the record after the first `i` has
      been read (as `r`, leaving the stream at `after`), either the first
      `i + 1` records are read, or the whole list of `n` fails with the
      record's fault. */
  lemma RecordsNext<T>(record: int -> Result<Parsed<T>, Fault>, pos: int, i: nat, n: nat, acc: seq<T>,
                           next: int, r: Result<T, Fault>, after: int)
    requires i < n && RecordsAt(record, pos, i) == Ok(Parsed(acc, next))
    requires Agrees(r, after, record(next))
    ensures r.Ok? ==> RecordsAt(record, pos, i + 1) == Ok(Parsed(acc + [r.value], after))
    ensures r.Err? ==> RecordsAt(record, pos, n) == Err(r.fault)
  {
    RecordsStep(record, pos, i, acc, next);
    RecordsFaultPersists(record, pos, i + 1, n);
  }

  lemma ParamsNext(data: seq<Byte>, pos: int, i: nat, n: nat, acc: seq<EffectParam>,
                   next: int, r: Result<EffectParam, Fault>, after: int)
    requires i < n && ParamsAt(data, pos, i) == Ok(Parsed(acc, next))
    requires Agrees(r, after, ParamAt(data, next))
    ensures r.Ok? ==> ParamsAt(data, pos, i + 1) == Ok(Parsed(acc + [r.value], after))
    ensures r.Err? ==> ParamsAt(data, pos, n) == Err(r.fault)
  {
    RecordsNext(p => ParamAt(data, p), pos, i, n, acc, next, r, after);
  }

  lemma TechniquesNext(data: seq<Byte>, startPos: int, pos: int, i: nat, n: nat, acc: seq<EffectTechnique>,
                       next: int, r: Result<EffectTechnique, Fault>, after: int)
    requires i < n && TechniquesAt(data, startPos, pos, i) == Ok(Parsed(acc, next))
    requires Agrees(r, after, TechniqueAt(data, startPos, next))
    ensures r.Ok? ==> TechniquesAt(data, startPos, pos, i + 1) == Ok(Parsed(acc + [r.value], after))
    ensures r.Err? ==> TechniquesAt(data, startPos, pos, n) == Err(r.fault)
  {
    RecordsNext(p => TechniqueAt(data, startPos, p), pos, i, n, acc, next, r, after);
  }

  lemma PassesNext(data: seq<Byte>, startPos: int, pos: int, i: nat, n: nat, acc: seq<EffectPass>,
                   next: int, r: Result<EffectPass, Fault>, after: int)
    requires i < n && PassesAt(data, startPos, pos, i) == Ok(Parsed(acc, next))
    requires Agrees(r, after, PassAt(data, startPos, next))
    ensures r.Ok? ==> PassesAt(data, startPos, pos, i + 1) == Ok(Parsed(acc + [r.value], after))
    ensures r.Err? ==> PassesAt(data, startPos, pos, n) == Err(r.fault)
  {
    RecordsNext(p => PassAt(data, startPos, p), pos, i, n, acc, next, r, after);
  }

  lemma StatesStep(data: seq<Byte>, pos: int, i: nat, acc: seq<EffectState>, next: int)
    requires StatesAt(data, pos, i) == Ok(Parsed(acc, next))
    ensures StateAt(data, next).Ok? ==>
      StatesAt(data, pos, i + 1) == Ok(Parsed(acc + [StateAt(data, next).value.value], StateAt(data, next).value.next))
    ensures StateAt(data, next).Err? ==> StatesAt(data, pos, i + 1) == Err(StateAt(data, next).fault)
  {
    RecordsStep(p => StateAt(data, p), pos, i, acc, next);
  }

  lemma StatesFaultPersists(data: seq<Byte>, pos: int, k: nat, n: nat)
    requires k <= n
    ensures StatesAt(data, pos, k).Err? ==> StatesAt(data, pos, n) == StatesAt(data, pos, k)
  {
    RecordsFaultPersists(p => StateAt(data, p), pos, k, n);
  }

  lemma {:induction false} AnnotationsFaultPersists(data: seq<Byte>, pos: int, k: nat, n: nat)
    requires k <= n
    ensures AnnotationsAt(data, pos, k).Err? ==> AnnotationsAt(data, pos, n) == AnnotationsAt(data, pos, k)
    decreases n
  {
    if k < n {
      AnnotationsFaultPersists(data, pos, k, n - 1);
    }
  }

  /** One turn of ReadAnnotations's loop: with both words of the next
      record there, one more annotation is read; otherwise the whole list
      fails at the end of the stream. */
  lemma AnnotationsNext(data: seq<Byte>, pos: int, i: nat, n: nat, acc: seq<EffectAnnotation>, next: int)
    requires i < n && AnnotationsAt(data, pos, i) == Ok(Parsed(acc, next))
    ensures U32At(data, next).Ok? && U32At(data, next + 4).Ok? ==>
      AnnotationsAt(data, pos, i + 1) == Ok(Parsed(acc, next + 8))
    ensures U32At(data, next).Err? || U32At(data, next + 4).Err? ==>
      AnnotationsAt(data, pos, n) == Err(EndOfStream)
  {
    AnnotationsFaultPersists(data, pos, i + 1, n);
  }

  /** A list of `n` records has `n` elements. */
  lemma {:induction false} RecordsCount<T>(record: int -> Result<Parsed<T>, Fault>, pos: int, n: nat)
    ensures RecordsAt(record, pos, n).Ok? ==> |RecordsAt(record, pos, n).value.value| == n
  {
    if n > 0 {
      RecordsCount(record, pos, n - 1);
    }
  }

  /** A list fails only with a fault some record fails with. */
  lemma {:induction false} RecordsFaultFrom<T>(record: int -> Result<Parsed<T>, Fault>, pos: int, n: nat, faults: set<Fault>)
    requires forall p :: record(p).Err? ==> record(p).fault in faults
    ensures RecordsAt(record, pos, n).Err? ==> RecordsAt(record, pos, n).fault in faults
  {
    if n > 0 {
      RecordsFaultFrom(record, pos, n - 1, faults);
    }
  }

  /** The faults a table read can end with: a stream that ends too soon, or a
      seek or byte count out of range. */
  const ReadFaults: set<Fault> := {EndOfStream, ArgumentOutOfRange}

  /** ReadAnnotations consumes exactly eight bytes per annotation, succeeds
      exactly when they are all there, and returns no annotation. */
  lemma {:induction false} AnnotationsConsumed(data: seq<Byte>, pos: int, n: nat)
    requires 0 <= pos
    ensures AnnotationsAt(data, pos, n).Ok? <==> n == 0 || pos + 8 * n <= |data|
    ensures AnnotationsAt(data, pos, n).Ok? ==> AnnotationsAt(data, pos, n).value == Parsed([], pos + 8 * n)
    ensures AnnotationsAt(data, pos, n).Err? ==> AnnotationsAt(data, pos, n).fault == EndOfStream
  {
    if n > 0 {
      AnnotationsConsumed(data, pos, n - 1);
    }
  }

  /** ReadStates consumes exactly sixteen bytes per state, succeeds exactly
      when they are all there, and returns one state per record. */
  lemma {:induction false} StatesConsumed(data: seq<Byte>, pos: int, n: nat)
    requires 0 <= pos
    ensures StatesAt(data, pos, n).Ok? <==> n == 0 || pos + 16 * n <= |data|
    ensures StatesAt(data, pos, n).Err? ==> StatesAt(data, pos, n).fault == EndOfStream
    ensures StatesAt(data, pos, n).Ok? ==>
      StatesAt(data, pos, n).value.next == pos + 16 * n && |StatesAt(data, pos, n).value.value| == n
  {
    if n > 0 {
      StatesConsumed(data, pos, n - 1);
      var prev := StatesAt(data, pos, n - 1);
      if prev.Err? {
        StatesFaultPersists(data, pos, n - 1, n);
      } else {
        StatesStep(data, pos, n - 1, prev.value.value, prev.value.next);
      }
    }
  }

  /** The render state code of a state record at `pos`: its first word, cast
      from uint to the int-based enum, so that words above int.MaxValue give
      negative codes. */
  function StateCodeAt(data: seq<Byte>, pos: int): RenderStateType
    requires 0 <= pos && pos + 4 <= |data|
  {
    ToInt32(U32At(data, pos).value) as RenderStateType
  }

  /** One state record: its code is the first word read as a signed value
      and its value is the default. */
  lemma StateRecord(data: seq<Byte>, pos: int)
    requires 0 <= pos && pos + 16 <= |data|
    ensures StateAt(data, pos) == Ok(Parsed(EffectState(StateCodeAt(data, pos), DefaultValue), pos + 16))
  {
  }

  /** The state at index `k` carries the code of the `k`-th record, its first
      word read as a signed value: no code is refused, named or not, and the
      value is the default. */
  lemma {:induction false} StateCodes(data: seq<Byte>, pos: int, n: nat, k: nat)
    requires 0 <= pos && k < n
    ensures StatesAt(data, pos, n).Ok? ==>
      var states := StatesAt(data, pos, n).value.value;
      |states| == n && pos + 16 * k + 4 <= |data| &&
      states[k] == EffectState(StateCodeAt(data, pos + 16 * k), DefaultValue)
    decreases n
  {
    StatesConsumed(data, pos, n);
    StatesConsumed(data, pos, n - 1);
    var prev := StatesAt(data, pos, n - 1);
    if StatesAt(data, pos, n).Ok? {
      var next := prev.value.next;
      StatesStep(data, pos, n - 1, prev.value.value, next);
      StateRecord(data, next);
      if k < n - 1 {
        StateCodes(data, pos, n - 1, k);
        assert StatesAt(data, pos, n).value.value[k] == prev.value.value[k];
      } else {
        assert next == pos + 16 * k;
      }
    }
  }

  /** A parameter record is sixteen bytes, followed by eight bytes per
      annotation; the parameter is read exactly when they are all there, has
      no annotations and the default value. */
  lemma ParamConsumed(data: seq<Byte>, pos: int)
    requires 0 <= pos
    ensures pos + 16 > |data| ==> ParamAt(data, pos) == Err(EndOfStream)
    ensures pos + 16 <= |data| ==>
      var numAnnotations := U32At(data, pos + 12).value;
      (ParamAt(data, pos).Ok? <==> pos + 16 + 8 * numAnnotations <= |data|) &&
      (ParamAt(data, pos).Ok? ==>
        ParamAt(data, pos).value == Parsed(EffectParam([], DefaultValue), pos + 16 + 8 * numAnnotations)) &&
      (ParamAt(data, pos).Err? ==> ParamAt(data, pos).fault == EndOfStream)
  {
    if pos + 16 <= |data| {
      AnnotationsConsumed(data, pos + 16, U32At(data, pos + 12).value);
    }
  }

  /** ReadParameters returns exactly `numParams` parameters, and fails only
      when the stream ends too soon. */
  lemma ParamsCounted(data: seq<Byte>, pos: int, n: nat)
    requires 0 <= pos
    ensures ParamsAt(data, pos, n).Ok? ==> |ParamsAt(data, pos, n).value.value| == n
    ensures ParamsAt(data, pos, n).Err? ==> ParamsAt(data, pos, n).fault == EndOfStream
  {
    RecordsCount(p => ParamAt(data, p), pos, n);
    forall p
      ensures ParamAt(data, p).Err? ==> ParamAt(data, p).fault in {EndOfStream}
    {
      if 0 <= p {
        ParamConsumed(data, p);
      }
    }
    RecordsFaultFrom(p => ParamAt(data, p), pos, n, {EndOfStream});
  }

  /** EffectParser.ReadString: the int32 length at startPos + offset, then at
      most that many bytes after it. A length with its top bit set is a
      negative count and is refused. */
  lemma NameFaults(data: seq<Byte>, startPos: int, offset: U32)
    ensures var at := startPos + offset;
      NameAt(data, startPos, offset).Ok? <==>
        0 <= at <= MaxInt32 && at + 4 <= |data| && U32At(data, at).value <= MaxInt32
    ensures NameAt(data, startPos, offset).Err? ==> NameAt(data, startPos, offset).fault in ReadFaults
  {
    var at := startPos + offset;
    if 0 <= at <= MaxInt32 && at + 4 <= |data| {
      assert I32At(data, at) == Ok(ToInt32(U32At(data, at).value));
    }
  }

  /** A name is the bytes after its uint32 length, cut short at the end of
      the stream. */
  lemma NameIsLengthPrefixed(data: seq<Byte>, startPos: int, offset: U32)
    ensures var at := startPos + offset;
      NameAt(data, startPos, offset).Ok? ==>
        var len := U32At(data, at).value;
        NameAt(data, startPos, offset).value ==
          if at + 4 + len <= |data| then data[at + 4..at + 4 + len] else data[at + 4..]
  {
    var at := startPos + offset;
    NameFaults(data, startPos, offset);
    if NameAt(data, startPos, offset).Ok? {
      var len := U32At(data, at).value;
      assert I32At(data, at) == Ok(ToInt32(len));
      BytesAtIsSlice(data, at + 4, len);
    }
  }

  /** A pass record is twelve bytes, followed by eight bytes per annotation
      and sixteen per state; the pass keeps its name and exactly `numStates`
      states, and no annotation. */
  lemma PassConsumed(data: seq<Byte>, startPos: int, pos: int)
    requires 0 <= pos
    ensures PassAt(data, startPos, pos).Ok? ==>
      pos + 12 <= |data| &&
      var numAnnotations := U32At(data, pos + 4).value;
      var numStates := U32At(data, pos + 8).value;
      var pass := PassAt(data, startPos, pos).value;
      pass.next == pos + 12 + 8 * numAnnotations + 16 * numStates &&
      NameAt(data, startPos, U32At(data, pos).value) == Ok(pass.value.name) &&
      pass.value.annotations == [] && |pass.value.states| == numStates
    ensures PassAt(data, startPos, pos).Err? ==> PassAt(data, startPos, pos).fault in ReadFaults
  {
    if pos + 12 <= |data| {
      var nameOffset := U32At(data, pos).value;
      var numAnnotations: int := U32At(data, pos + 4).value;
      var numStates: int := U32At(data, pos + 8).value;
      NameFaults(data, startPos, nameOffset);
      AnnotationsConsumed(data, pos + 12, numAnnotations);
      var name := NameAt(data, startPos, nameOffset);
      var annotations := AnnotationsAt(data, pos + 12, numAnnotations);
      if name.Ok? && annotations.Ok? {
        var next := pos + 12 + 8 * numAnnotations;
        assert annotations.value == Parsed([], next);
        var states := StatesAt(data, next, numStates);
        StatesConsumed(data, next, numStates);
        if states.Ok? {
          assert PassAt(data, startPos, pos) ==
            Ok(Parsed(EffectPass(name.value, [], states.value.value), next + 16 * numStates));
        } else {
          assert PassAt(data, startPos, pos) == Err(states.fault);
        }
      }
    }
  }

  /** The passes of a technique: exactly `numPasses` of them, and only read
      faults. */
  lemma PassesCounted(data: seq<Byte>, startPos: int, pos: int, n: nat)
    ensures PassesAt(data, startPos, pos, n).Ok? ==> |PassesAt(data, startPos, pos, n).value.value| == n
    ensures PassesAt(data, startPos, pos, n).Err? ==> PassesAt(data, startPos, pos, n).fault in ReadFaults
  {
    RecordsCount(p => PassAt(data, startPos, p), pos, n);
    forall p
      ensures PassAt(data, startPos, p).Err? ==> PassAt(data, startPos, p).fault in ReadFaults
    {
      if 0 <= p {
        PassConsumed(data, startPos, p);
      }
    }
    RecordsFaultFrom(p => PassAt(data, startPos, p), pos, n, ReadFaults);
  }

  /** A technique record is twelve bytes, followed by its annotations and its
      passes; the technique keeps its name and exactly `numPasses` passes,
      and no annotation. */
  lemma TechniqueConsumed(data: seq<Byte>, startPos: int, pos: int)
    requires 0 <= pos
    ensures TechniqueAt(data, startPos, pos).Ok? ==>
      pos + 12 <= |data| &&
      var numAnnotations := U32At(data, pos + 4).value;
      var numPasses := U32At(data, pos + 8).value;
      var technique := TechniqueAt(data, startPos, pos).value;
      NameAt(data, startPos, U32At(data, pos).value) == Ok(technique.value.name) &&
      technique.value.annotations == [] && |technique.value.passes| == numPasses &&
      PassesAt(data, startPos, pos + 12 + 8 * numAnnotations, numPasses) == Ok(Parsed(technique.value.passes, technique.next))
    ensures TechniqueAt(data, startPos, pos).Err? ==> TechniqueAt(data, startPos, pos).fault in ReadFaults
  {
    if pos + 12 <= |data| {
      var nameOffset := U32At(data, pos).value;
      var numAnnotations: int := U32At(data, pos + 4).value;
      var numPasses := U32At(data, pos + 8).value;
      NameFaults(data, startPos, nameOffset);
      AnnotationsConsumed(data, pos + 12, numAnnotations);
      var name := NameAt(data, startPos, nameOffset);
      var annotations := AnnotationsAt(data, pos + 12, numAnnotations);
      if name.Ok? && annotations.Ok? {
        var next := pos + 12 + 8 * numAnnotations;
        assert annotations.value == Parsed([], next);
        var passes := PassesAt(data, startPos, next, numPasses);
        PassesCounted(data, startPos, next, numPasses);
        if passes.Ok? {
          var technique := TechniqueAt(data, startPos, pos);
          assert technique == Ok(Parsed(EffectTechnique(name.value, [], passes.value.value), passes.value.next));
          assert PassesAt(data, startPos, next, numPasses) == Ok(Parsed(technique.value.value.passes, technique.value.next));
        } else {
          assert TechniqueAt(data, startPos, pos) == Err(passes.fault);
        }
      } else {
        assert TechniqueAt(data, startPos, pos).Err?;
      }
    } else {
      assert TechniqueAt(data, startPos, pos).Err?;
    }
  }

  /** ReadTechniques returns exactly `numTechniques` techniques, and fails
      only with a read fault. */
  lemma TechniquesCounted(data: seq<Byte>, startPos: int, pos: int, n: nat)
    ensures TechniquesAt(data, startPos, pos, n).Ok? ==> |TechniquesAt(data, startPos, pos, n).value.value| == n
    ensures TechniquesAt(data, startPos, pos, n).Err? ==> TechniquesAt(data, startPos, pos, n).fault in ReadFaults
  {
    RecordsCount(p => TechniqueAt(data, startPos, p), pos, n);
    forall p
      ensures TechniqueAt(data, startPos, p).Err? ==> TechniqueAt(data, startPos, p).fault in ReadFaults
    {
      if 0 <= p {
        TechniqueConsumed(data, startPos, p);
      }
    }
    RecordsFaultFrom(p => TechniqueAt(data, startPos, p), pos, n, ReadFaults);
  }

  /** The tables hold what their counts say: `numParams` parameters and
      `numTechniques` techniques, read from the counts at startPos + offset;
      the object list stays empty. Reading them never fails as an invalid
      effect. */
  lemma TablesCounted(data: seq<Byte>, origin: TableOrigin)
    requires 0 <= origin.startPos
    ensures TablesAt(data, origin).Ok? ==>
      var tables := TablesAt(data, origin).value;
      var table := origin.startPos + origin.offset;
      tables.origin == origin &&
      U32At(data, table) == Ok(tables.numParams) && U32At(data, table + 4) == Ok(tables.numTechniques) &&
      U32At(data, table + 12) == Ok(tables.numObjects) &&
      |tables.params| == tables.numParams && |tables.techniques| == tables.numTechniques && tables.objects == []
    ensures TablesAt(data, origin).Err? ==> TablesAt(data, origin).fault in ReadFaults
  {
    var table := origin.startPos + origin.offset;
    if table + 16 <= |data| {
      var numParams := U32At(data, table).value;
      var numTechniques := U32At(data, table + 4).value;
      var params := ParamsAt(data, table + 16, numParams);
      ParamsCounted(data, table + 16, numParams);
      if params.Err? {
        assert TablesAt(data, origin) == Err(params.fault);
      } else {
        var techniques := TechniquesAt(data, origin.startPos, params.value.next, numTechniques);
        TechniquesCounted(data, origin.startPos, params.value.next, numTechniques);
        if techniques.Err? {
          assert TablesAt(data, origin) == Err(techniques.fault);
        } else {
          var end := techniques.value.next;
          if 0 <= end && end + 8 <= |data| {
            var tables := TablesAt(data, origin);
            assert tables.Ok? && tables.value.origin == origin && tables.value.objects == [];
            assert tables.value.numParams == numParams && tables.value.numTechniques == numTechniques;
            assert tables.value.params == params.value.value && tables.value.techniques == techniques.value.value;
          } else {
            assert TablesAt(data, origin) == Err(EndOfStream);
          }
        }
      }
    } else {
      assert TablesAt(data, origin) == Err(EndOfStream);
    }
  }

  /** Parse refuses the effect as invalid exactly when the word where the
      magic belongs (after any legacy preamble) is not the effect magic;
      every other failure is a read fault. */
  lemma InvalidEffectExactly(data: seq<Byte>)
    ensures ParseEffect(data) == Err(ContentLoad) <==>
      HeaderMagic(data).Ok? && HeaderMagic(data).value.value != EffectMagic
    ensures ParseEffect(data).Err? && ParseEffect(data).fault != ContentLoad ==>
      ParseEffect(data).fault in ReadFaults
  {
    var origin := TableOriginOf(data);
    if origin.Ok? {
      TablesCounted(data, origin.value);
    }
  }

  /** Without the legacy preamble the offset is the second word, names are
      counted from byte 8 and the counts sit at 8 + offset. An offset beyond
      the end of the code is refused before anything is read there, and so
      is one that leads past int.MaxValue. */
  lemma OriginWithoutPreamble(data: ByteArray)
    requires |data| >= 8 && U32At(data, 0) == Ok(EffectMagic)
    ensures var offset := U32At(data, 4).value;
      TableOriginOf(data) ==
        if offset > |data| then Err(EndOfStream)
        else if 8 + offset > MaxInt32 then Err(ArgumentOutOfRange)
        else Ok(TableOrigin(8, offset))
  {
  }

  /** The legacy preamble's second word is its length, eight bytes of it
      already read; the uint subtraction wraps, so a length below eight
      sends the stream past int.MaxValue and the seek is refused. Otherwise
      names are counted from eight bytes after the preamble's end. */
  lemma OriginAfterPreamble(data: ByteArray)
    requires |data| >= 8 && U32At(data, 0) == Ok(LegacyMagic)
    ensures var declared := U32At(data, 4).value;
      declared < 8 ==> TableOriginOf(data) == Err(ArgumentOutOfRange)
    ensures var declared := U32At(data, 4).value;
      TableOriginOf(data).Ok? ==> declared >= 8 && TableOriginOf(data).value.startPos == declared + 8
    ensures var declared := U32At(data, 4).value;
      8 <= declared && declared + 8 <= |data| && U32At(data, declared) == Ok(EffectMagic) ==>
        var offset := U32At(data, declared + 4).value;
        TableOriginOf(data) ==
          if offset > |data| then Err(EndOfStream)
          else if declared + 8 + offset > MaxInt32 then Err(ArgumentOutOfRange)
          else Ok(TableOrigin(declared + 8, offset))
  {
    var declared := U32At(data, 4).value;
    if declared < 8 {
      assert WrapU32(declared - 8) == declared - 8 + TwoTo32;
    } else {
      assert WrapU32(declared - 8) == declared - 8;
    }
  }

  /** The smallest effect: the magic, a zero offset, four zero counts and
      two zero object counts parse to empty tables whose names would be
      counted from byte 8. */
  lemma SmallestEffect()
    ensures ParseEffect([0x01, 0x09, 0xFF, 0xFE] + seq(28, k => 0)) ==
      Ok(EffectTables(TableOrigin(8, 0), 0, 0, 0, [], [], [], 0, 0))
  {
    var data: seq<Byte> := [0x01, 0x09, 0xFF, 0xFE] + seq(28, k => 0);
    forall k | 4 <= k <= 28
      ensures U32At(data, k) == Ok(0)
    {
      assert data[k] == 0 && data[k + 1] == 0 && data[k + 2] == 0 && data[k + 3] == 0;
    }
    assert TableOriginOf(data) == Ok(TableOrigin(8, 0));
  }
}
