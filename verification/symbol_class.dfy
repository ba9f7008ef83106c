/** The symbol classes of the effect format (MOJOSHADER_SYMCLASS_*) and
    their fixed integer codes. */
module SymbolClasses {
  import opened Wrappers

  /** The constructors follow the enum's declaration order; `Total` is the
      housekeeping value that is never returned. */
  datatype SymbolClass = Scalar | Vector | MatrixRows | MatrixColumns | Object | Struct | Total

  /** The enum's integer value. */
  function Code(c: SymbolClass): (code: nat)
  {
    match c
    case Scalar => 0
    case Vector => 1
    case MatrixRows => 2
    case MatrixColumns => 3
    case Object => 4
    case Struct => 5
    case Total => 6
  }

  /** The class an integer code names, if any. */
  function FromCode(code: int): (c: Option<SymbolClass>)
    ensures c.Some? <==> 0 <= code <= 6
    ensures c.Some? ==> Code(c.value) == code
  {
    match code
    case 0 => Some(Scalar)
    case 1 => Some(Vector)
    case 2 => Some(MatrixRows)
    case 3 => Some(MatrixColumns)
    case 4 => Some(Object)
    case 5 => Some(Struct)
    case 6 => Some(Total)
    case _ => None
  }

  /** A class a symbol can really have (every class but the sentinel). */
  predicate IsReal(c: SymbolClass) { c != Total }

  /** The classes whose values are flat numbers. */
  predicate IsNumeric(c: SymbolClass)
  {
    c == Scalar || c == Vector || c == MatrixRows || c == MatrixColumns
  }

  /** The classes in declaration order. */
  const Declared: seq<SymbolClass> := [Scalar, Vector, MatrixRows, MatrixColumns, Object, Struct, Total]

  /** The enum starts at 0 and each class is one above the one declared before it. */
  lemma CodesFollowDeclarationOrder()
    ensures Code(Scalar) == 0
    ensures |Declared| == 7
    ensures forall i :: 0 <= i < |Declared| ==> Code(Declared[i]) == i
  {
    forall i | 0 <= i < |Declared|
      ensures Code(Declared[i]) == i
    {
      if i == 0 {} else if i == 1 {} else if i == 2 {} else if i == 3 {}
      else if i == 4 {} else if i == 5 {} else {}
    }
  }

  /** Distinct classes have distinct codes: decoding a class's code gives the class back. */
  lemma CodeRoundTrip(c: SymbolClass)
    ensures FromCode(Code(c)) == Some(c)
  {
  }

  /** The classes that are ever returned are exactly the codes 0 to 5; the sentinel is 6. */
  lemma RealClassesAreZeroToFive(c: SymbolClass)
    ensures IsReal(c) <==> Code(c) <= 5
    ensures !IsReal(c) <==> Code(c) == 6
  {
  }

  /** The numeric classes are exactly the codes 0 to 3, all below Object. */
  lemma NumericClassesBelowObject(c: SymbolClass)
    ensures IsNumeric(c) <==> Code(c) <= 3
    ensures IsNumeric(c) <==> Code(c) < Code(Object)
  {
  }
}
