/**
 * compareAsStringSet and compareAsSet of util.go: compare two lists as if
 * they were sets, ignoring order and repetition, and report the first
 * expected element that is missing, or else the first extra element.
 */
module SetCompare {
  import opened Wrappers
  import Slices

  /** The set of elements a list holds. */
  function Elements<T>(s: seq<T>): set<T> {
    set x | x in s
  }

  /**
   * The position of the first element of `xs` that does not occur in `ys`,
   * or -1 when every element of `xs` occurs in `ys`.
   */
  function FirstMissing<T(==)>(xs: seq<T>, ys: seq<T>): (i: int)
    ensures -1 <= i < |xs|
    ensures i == -1 <==> forall x :: x in xs ==> x in ys
    ensures 0 <= i ==> xs[i] !in ys && forall k :: 0 <= k < i ==> xs[k] in ys
  {
    if xs == [] then -1
    else if xs[0] !in ys then 0
    else
      var rest := FirstMissing(xs[1..], ys);
      assert forall k :: 1 <= k < |xs| ==> xs[k] == xs[1..][k - 1];
      if rest == -1 then -1 else rest + 1
  }

  /** The outcome of a set comparison, before it is turned into a message. */
  datatype Verdict<T> = Same | Missing(expected: T) | Extra(got: T)

  /**
   * The verdict both comparisons reach: every expected element is looked
   * for first, so a missing element is reported before any extra one.
   */
  function Compare<T(==)>(expecteds: seq<T>, gots: seq<T>): Verdict<T> {
    var i := FirstMissing(expecteds, gots);
    if 0 <= i then Missing(expecteds[i])
    else
      var j := FirstMissing(gots, expecteds);
      if 0 <= j then Extra(gots[j]) else Same
  }

  /**
   * The comparison succeeds exactly when both lists hold the same set of
   * elements; a reported element really is missing or extra.
   */
  lemma CompareSpec<T>(expecteds: seq<T>, gots: seq<T>)
    ensures Compare(expecteds, gots).Same? <==> Elements(expecteds) == Elements(gots)
    ensures Compare(expecteds, gots).Missing? <==> exists e :: e in expecteds && e !in gots
    ensures Compare(expecteds, gots).Missing? ==>
      Compare(expecteds, gots).expected in expecteds && Compare(expecteds, gots).expected !in gots
    ensures Compare(expecteds, gots).Extra? ==>
      Elements(expecteds) <= Elements(gots) &&
      Compare(expecteds, gots).got in gots && Compare(expecteds, gots).got !in expecteds
  {
    var i := FirstMissing(expecteds, gots);
    var j := FirstMissing(gots, expecteds);
    if 0 <= i {
      assert expecteds[i] in Elements(expecteds) && expecteds[i] !in Elements(gots);
    } else if 0 <= j {
      assert gots[j] in Elements(gots) && gots[j] !in Elements(expecteds);
    }
  }

  /**
   * compareAsStringSet (util.go:133-153). Returns (true, "ok") on success,
   * although its doc comment speaks of an empty string.
   */
  method CompareAsStringSet(expecteds: seq<string>, gots: seq<string>) returns (ok: bool, msg: string)
    ensures ok <==> Compare(expecteds, gots).Same?
    ensures ok ==> msg == "ok"
    ensures Compare(expecteds, gots).Missing? ==>
      msg == "Missing expected element: " + Compare(expecteds, gots).expected
    ensures Compare(expecteds, gots).Extra? ==>
      msg == "Found extra element: " + Compare(expecteds, gots).got
  {
    for i := 0 to |expecteds|
      invariant forall k :: 0 <= k < i ==> expecteds[k] in gots
    {
      var index := Slices.IndexOfStringSlice(gots, expecteds[i]);
      if index == -1 {
        return false, "Missing expected element: " + expecteds[i];
      }
    }
    for i := 0 to |gots|
      invariant forall k :: 0 <= k < i ==> gots[k] in expecteds
    {
      var index := Slices.IndexOfStringSlice(expecteds, gots[i]);
      if index == -1 {
        return false, "Found extra element: " + gots[i];
      }
    }
    return true, "ok";
  }

  /**
   * compareAsSet (util.go:159-189): the same comparison over lists of any
   * element type. An untyped nil argument (None) is reported before any
   * element is looked at, `expecteds` first; `format` renders an element as
   * Go's %v verb would.
   */
  method CompareAsSet<T(==)>(expecteds: Option<seq<T>>, gots: Option<seq<T>>, format: T -> string)
    returns (ok: bool, msg: string)
    ensures expecteds.None? ==> !ok && msg == "expecteds was nil"
    ensures expecteds.Some? && gots.None? ==> !ok && msg == "gots was nil"
    ensures expecteds.Some? && gots.Some? ==>
      var v := Compare(expecteds.value, gots.value);
      && (ok <==> v.Same?)
      && (v.Same? ==> msg == "ok")
      && (v.Missing? ==> msg == "Missing expected element: " + format(v.expected))
      && (v.Extra? ==> msg == "Found unexpected element: " + format(v.got))
  {
    if expecteds.None? {
      return false, "expecteds was nil";
    } else if gots.None? {
      return false, "gots was nil";
    }
    var es, gs := expecteds.value, gots.value;
    for i := 0 to |es|
      invariant forall k :: 0 <= k < i ==> es[k] in gs
    {
      var expected := es[i];
      var index := Slices.IndexOfSlice(expected, gs);
      if index == -1 {
        return false, "Missing expected element: " + format(expected);
      }
    }
    for i := 0 to |gs|
      invariant forall k :: 0 <= k < i ==> gs[k] in es
    {
      var got := gs[i];
      var index := Slices.IndexOfSlice(got, es);
      if index == -1 {
        return false, "Found unexpected element: " + format(got);
      }
    }
    return true, "ok";
  }
}
