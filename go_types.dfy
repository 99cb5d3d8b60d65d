/**
 * Go's run-time type descriptions (reflect.Kind and reflect.Type) as values,
 * and the type classifiers of util.go that decide which kinds of field the
 * library treats as strings, numbers, booleans, containers or records.
 */
module GoTypes {

  /** reflect.Kind: every kind a Go type can have. */
  datatype Kind =
    | Invalid | Bool
    | Int | Int8 | Int16 | Int32 | Int64
    | Uint | Uint8 | Uint16 | Uint32 | Uint64 | Uintptr
    | Float32 | Float64 | Complex64 | Complex128
    | Array | Chan | Func | Interface | Map | Ptr | Slice
    | String | Struct | UnsafePointer
  {
    /** The kinds whose types have an element type (reflect.Type.Elem is defined). */
    predicate HasElem() {
      Array? || Chan? || Map? || Ptr? || Slice?
    }
  }

  /** The kinds of types without an element type; no type has kind Invalid. */
  type BasicKind = k: Kind | !k.Invalid? && !k.HasElem() witness Kind.Bool

  /** reflect.Type: a basic type, or a composite type built on an element type. */
  datatype Type =
    | Basic(basic: BasicKind)
    | PtrTo(elem: Type)
    | SliceOf(elem: Type)
    | ArrayOf(length: nat, elem: Type)
    | MapOf(key: Type, elem: Type)
    | ChanOf(elem: Type)
  {
    /** reflect.Type.Kind */
    function Kind(): (k: Kind)
      ensures k.HasElem() <==> !Basic?
      ensures !k.Invalid?
    {
      match this
      case Basic(b) => b
      case PtrTo(_) => Ptr
      case SliceOf(_) => Slice
      case ArrayOf(_, _) => Array
      case MapOf(_, _) => Map
      case ChanOf(_) => Chan
    }
  }

  /** True iff `typ` is a slice or array whose elements are not bytes (util.go:192-195). */
  predicate TypeIsSliceOrArray(typ: Type)
    ensures TypeIsSliceOrArray(typ) <==> (typ.SliceOf? || typ.ArrayOf?) && typ.elem != Basic(Uint8)
  {
    var k := typ.Kind();
    (k == Slice || k == Array) && typ.elem.Kind() != Uint8
  }

  /** True iff `typ` is a pointer to a struct (util.go:198-200); the only such type is `*struct`. */
  predicate TypeIsPointerToStruct(typ: Type)
    ensures TypeIsPointerToStruct(typ) <==> typ == PtrTo(Basic(Struct))
  {
    typ.Kind() == Ptr && typ.elem.Kind() == Struct
  }

  /** True iff `typ` is a string or a slice or array of bytes (util.go:204-207). */
  predicate TypeIsString(typ: Type)
    ensures TypeIsString(typ) <==>
      typ == Basic(String) || ((typ.SliceOf? || typ.ArrayOf?) && typ.elem == Basic(Uint8))
  {
    var k := typ.Kind();
    k == String || ((k == Slice || k == Array) && typ.elem.Kind() == Uint8)
  }

  /**
   * True iff `typ` has one of the twelve numeric kinds of util.go:212-217:
   * the run from Int to Float64 in reflect's numbering, minus Uintptr.
   */
  predicate TypeIsNumeric(typ: Type)
    ensures TypeIsNumeric(typ) <==>
      typ.Basic? && Ordinal(Int) <= Ordinal(typ.basic) <= Ordinal(Float64) && typ.basic != Uintptr
  {
    match typ.Kind()
    case Int | Int8 | Int16 | Int32 | Int64 => true
    case Uint | Uint8 | Uint16 | Uint32 | Uint64 => true
    case Float32 | Float64 => true
    case _ => false
  }

  /** True iff `typ` is bool (util.go:221-224). */
  predicate TypeIsBool(typ: Type)
    ensures TypeIsBool(typ) <==> typ == Basic(Bool)
  {
    typ.Kind() == Bool
  }

  /** True iff `typ` is a string, numeric or bool type (util.go:228-230). */
  predicate TypeIsPrimative(typ: Type)
    ensures TypeIsPrimative(typ) ==>
      typ.Basic? || ((typ.SliceOf? || typ.ArrayOf?) && typ.elem == Basic(Uint8))
  {
    TypeIsString(typ) || TypeIsNumeric(typ) || TypeIsBool(typ)
  }

  /** reflect's numbering of the kinds: the position of each kind in reflect.Kind's declaration. */
  function Ordinal(k: Kind): nat {
    match k
    case Invalid => 0 case Bool => 1
    case Int => 2 case Int8 => 3 case Int16 => 4 case Int32 => 5 case Int64 => 6
    case Uint => 7 case Uint8 => 8 case Uint16 => 9 case Uint32 => 10 case Uint64 => 11
    case Uintptr => 12 case Float32 => 13 case Float64 => 14
    case Complex64 => 15 case Complex128 => 16
    case Array => 17 case Chan => 18 case Func => 19 case Interface => 20 case Map => 21
    case Ptr => 22 case Slice => 23 case String => 24 case Struct => 25 case UnsafePointer => 26
  }

  /**
   * A byte slice or byte array counts as a string and never as a slice or
   * array; every other slice or array type is a slice or array and never a
   * string.
   */
  lemma StringExcludesSliceOrArray(typ: Type)
    ensures !(TypeIsString(typ) && TypeIsSliceOrArray(typ))
    ensures (typ.SliceOf? || typ.ArrayOf?) ==> (TypeIsString(typ) <==> typ.elem == Basic(Uint8))
    ensures (typ.SliceOf? || typ.ArrayOf?) ==> (TypeIsString(typ) || TypeIsSliceOrArray(typ))
  {
  }

  /** Bool, uintptr and the complex kinds are not numeric. */
  lemma NumericKindsExactly(typ: Type)
    ensures TypeIsBool(typ) ==> !TypeIsNumeric(typ)
    ensures typ.Kind() in {Uintptr, Complex64, Complex128} ==> !TypeIsNumeric(typ)
  {
  }

  /**
   * A primitive type is exactly one of string, numeric or bool, and never a
   * container or a record pointer.
   */
  lemma PrimativeClassesDisjoint(typ: Type)
    ensures !(TypeIsString(typ) && TypeIsNumeric(typ))
    ensures !(TypeIsString(typ) && TypeIsBool(typ))
    ensures !(TypeIsNumeric(typ) && TypeIsBool(typ))
    ensures TypeIsPrimative(typ) ==> !TypeIsSliceOrArray(typ) && !TypeIsPointerToStruct(typ)
  {
  }
}
