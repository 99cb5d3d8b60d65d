/**
 * Scores for boolean indexes (util.go:257-277): a boolean field, possibly
 * behind any number of pointers, is stored in a sorted set with score 0
 * for false and 1 for true.
 */
module Scores {
  import opened Wrappers

  /**
   * A reflect.Value as far as boolScore looks at it: a bool, a pointer to
   * another value, a nil pointer, the zero Value (what dereferencing a nil
   * pointer yields), or a value of some other type, known by its type name.
   */
  datatype Value = BoolV(b: bool) | PtrV(target: Value) | NilPtrV | ZeroV | OtherV(typeName: string)
  {
    /** True iff the value's kind is reflect.Ptr. */
    predicate IsPointer() {
      PtrV? || NilPtrV?
    }

    /** reflect.Value.Elem of a pointer: its target, or the zero Value for a nil pointer. */
    function Elem(): Value
      requires IsPointer()
    {
      if PtrV? then target else ZeroV
    }

    /** How many pointers lie between this value and a non-pointer. */
    function Depth(): nat {
      match this
      case PtrV(t) => t.Depth() + 1
      case NilPtrV => 1
      case _ => 0
    }
  }

  /** What makes boolScore panic. */
  datatype ScoreError =
    | NonBoolean(message: string) // a value of another type: Go panics with this message
    | ZeroValue                   // the zero Value behind a nil pointer: asking for its type panics in reflect

  /** The value reached by dereferencing pointers until a non-pointer is found. */
  function Deref(v: Value): (r: Value)
    ensures !r.IsPointer()
    ensures v.NilPtrV? ==> r == ZeroV
    ensures !v.IsPointer() ==> r == v
    decreases v.Depth()
  {
    if v.IsPointer() then Deref(v.Elem()) else v
  }

  /** convertBoolToInt (util.go:271-277). */
  function ConvertBoolToInt(b: bool): (r: int)
    ensures r == 0 || r == 1
    ensures r == 1 <==> b
  {
    if b then 1 else 0
  }

  /** The conversion keeps the order false < true and tells the two apart. */
  lemma ConvertBoolToIntOrder(a: bool, b: bool)
    ensures ConvertBoolToInt(a) <= ConvertBoolToInt(b) <==> (a ==> b)
    ensures ConvertBoolToInt(a) == ConvertBoolToInt(b) <==> a == b
  {
  }

  /**
   * boolScore (util.go:257-266): dereference while the value is a pointer,
   * then score the bool found there; any other value is an error.
   */
  method BoolScore(val: Value) returns (r: Result<int, ScoreError>)
    ensures r.Success? <==> Deref(val).BoolV?
    ensures r.Success? ==> 0 <= r.value <= 1 && (r.value == 1 <==> Deref(val).b)
    ensures Deref(val).OtherV? ==>
      r == Failure(NonBoolean("zoom: attempt to call boolScore on non-boolean type " + Deref(val).typeName))
    ensures Deref(val).ZeroV? ==> r == Failure(ZeroValue)
  {
    var v := val;
    while v.IsPointer()
      invariant Deref(v) == Deref(val)
      decreases v.Depth()
    {
      v := v.Elem();
    }
    match v
    case BoolV(b) =>
      r := Success(ConvertBoolToInt(b));
    case OtherV(name) =>
      r := Failure(NonBoolean("zoom: attempt to call boolScore on non-boolean type " + name));
    case ZeroV =>
      r := Failure(ZeroValue);
  }
}
