/**
 * The slice and string helpers of util.go: linear search, membership,
 * removal by position and by value (both shifting the caller's backing
 * array in place, as Go's `append(list[:i], list[i+1:]...)` does), and
 * rune-wise string reversal.
 *
 * A Go slice handed to the removal helpers is modelled as the whole array
 * behind it; the slice they return is the prefix `a[..n]` of that array.
 */
module Slices {

  /* ---------- Search ---------- */

  /**
   * The position of the first occurrence of `x` in `list`, or -1 when `x`
   * does not occur: the value both index helpers promise.
   */
  function FirstIndex<T(==)>(list: seq<T>, x: T): (r: int)
    ensures -1 <= r < |list|
    ensures r == -1 <==> x !in list
    ensures 0 <= r ==> list[r] == x && forall k :: 0 <= k < r ==> list[k] != x
  {
    if list == [] then -1
    else if list[0] == x then 0
    else
      var rest := FirstIndex(list[1..], x);
      assert forall k :: 1 <= k < |list| ==> list[k] == list[1..][k - 1];
      if rest == -1 then -1 else rest + 1
  }

  /** indexOfStringSlice: scan `strings` from the front for `s` (util.go:78-85). */
  method IndexOfStringSlice(strings: seq<string>, s: string) returns (index: int)
    ensures index == FirstIndex(strings, s)
    ensures -1 <= index < |strings|
    ensures index == -1 <==> s !in strings
  {
    for i := 0 to |strings|
      invariant forall k :: 0 <= k < i ==> strings[k] != s
    {
      if strings[i] == s {
        return i;
      }
    }
    return -1;
  }

  /**
   * indexOfSlice: the same scan over a list of any element type, comparing
   * with deep equality (util.go:90-100).
   */
  method IndexOfSlice<T(==)>(a: T, list: seq<T>) returns (index: int)
    ensures index == FirstIndex(list, a)
    ensures -1 <= index < |list|
    ensures index == -1 <==> a !in list
  {
    var size := |list|;
    var i := 0;
    while i < size
      invariant 0 <= i <= size
      invariant forall k :: 0 <= k < i ==> list[k] != a
    {
      if list[i] == a {
        return i;
      }
      i := i + 1;
    }
    return -1;
  }

  /** stringSliceContains: true iff `s` occurs in `strings` (util.go:103-105). */
  method StringSliceContains(strings: seq<string>, s: string) returns (found: bool)
    ensures found <==> s in strings
  {
    var index := IndexOfStringSlice(strings, s);
    found := index != -1;
  }

  /** sliceContains: true iff `a` occurs in `list` (util.go:108-110). */
  method SliceContains<T(==)>(a: T, list: seq<T>) returns (found: bool)
    ensures found <==> a in list
  {
    var index := IndexOfSlice(a, list);
    found := index != -1;
  }

  /* ---------- Removal ---------- */

  /** `list` without its element at position `i`, the rest in their order. */
  function RemoveAt<T>(list: seq<T>, i: int): (r: seq<T>)
    requires 0 <= i < |list|
    ensures |r| == |list| - 1
    ensures forall k :: 0 <= k < i ==> r[k] == list[k]
    ensures forall k :: i <= k < |r| ==> r[k] == list[k + 1]
    ensures multiset(r) + multiset{list[i]} == multiset(list)
  {
    assert list == list[..i] + [list[i]] + list[i + 1..];
    list[..i] + list[i + 1..]
  }

  /**
   * removeFromStringSlice (util.go:114-116). Go panics unless
   * 0 <= i < len(list). `append` copies `list[i+1:]` one place to the left
   * inside the same backing array; the returned slice is that array's first
   * `n` elements, and the array's last slot keeps its old value.
   */
  method RemoveFromStringSlice(list: array<string>, i: int) returns (n: nat)
    requires 0 <= i < list.Length
    modifies list
    ensures n == list.Length - 1
    ensures list[..n] == RemoveAt(old(list[..]), i)
    ensures list[n] == old(list[n])
  {
    n := list.Length - 1;
    var k := i;
    while k < n
      invariant i <= k <= n
      invariant forall m :: 0 <= m < i ==> list[m] == old(list[m])
      invariant forall m :: i <= m < k ==> list[m] == old(list[m + 1])
      invariant forall m :: k <= m <= n ==> list[m] == old(list[m])
    {
      list[k] := list[k + 1];
      k := k + 1;
    }
  }

  /** `list` without the first occurrence of `elem`; `list` itself when `elem` is absent. */
  function RemoveFirst<T(==)>(list: seq<T>, elem: T): seq<T> {
    var i := FirstIndex(list, elem);
    if i == -1 then list else RemoveAt(list, i)
  }

  /** Removing an absent element changes nothing. */
  lemma {:induction false} RemoveFirstAbsent<T>(list: seq<T>, elem: T)
    requires elem !in list
    ensures RemoveFirst(list, elem) == list
    ensures multiset(list) - multiset{elem} == multiset(list)
  {
    assert multiset(list)[elem] == 0;
  }

  /** Removing a present element drops exactly its first occurrence. */
  lemma {:induction false} RemoveFirstPresent<T>(list: seq<T>, elem: T)
    requires elem in list
    ensures var i := FirstIndex(list, elem);
      && 0 <= i
      && RemoveFirst(list, elem) == list[..i] + list[i + 1..]
      && |RemoveFirst(list, elem)| == |list| - 1
      && multiset(RemoveFirst(list, elem)) == multiset(list) - multiset{elem}
  {
    var i := FirstIndex(list, elem);
    var r := RemoveAt(list, i);
    assert RemoveFirst(list, elem) == r;
    assert list[i] == elem;
    assert multiset(r) + multiset{elem} == multiset(list);
  }

  /**
   * What removing by value does: an absent element leaves the list as it
   * is; a present one is removed once, at its first position, so the length
   * and the element's count both drop by exactly one, and every element
   * before that position stays where it was.
   */
  lemma {:induction false} RemoveFirstSpec<T>(list: seq<T>, elem: T)
    ensures elem !in list ==> RemoveFirst(list, elem) == list
    ensures |RemoveFirst(list, elem)| == |list| - 1 <==> elem in list
    ensures multiset(RemoveFirst(list, elem)) == multiset(list) - multiset{elem}
    ensures elem in list ==>
      var i := FirstIndex(list, elem);
      RemoveFirst(list, elem)[..i] == list[..i] && RemoveFirst(list, elem)[i..] == list[i + 1..]
  {
    if elem in list {
      RemoveFirstPresent(list, elem);
      var i := FirstIndex(list, elem);
      var r := RemoveFirst(list, elem);
      assert r[..i] == list[..i];
      assert r[i..] == list[i + 1..];
    } else {
      RemoveFirstAbsent(list, elem);
    }
  }

  /**
   * removeElementFromStringSlice (util.go:120-127): find the first `elem`
   * and shift the rest of the backing array left over it, or hand back the
   * slice untouched.
   */
  method RemoveElementFromStringSlice(list: array<string>, elem: string) returns (n: nat)
    modifies list
    ensures n <= list.Length
    ensures list[..n] == RemoveFirst(old(list[..]), elem)
    ensures elem !in old(list[..]) ==> n == list.Length && list[..] == old(list[..])
    ensures elem in old(list[..]) ==> n == list.Length - 1 && list[n] == old(list[n])
  {
    for i := 0 to list.Length
      invariant forall k :: 0 <= k < i ==> list[k] != elem
      invariant list[..] == old(list[..])
    {
      if list[i] == elem {
        assert FirstIndex(list[..], elem) == i;
        n := RemoveFromStringSlice(list, i);
        return;
      }
    }
    n := list.Length;
  }

  /* ---------- Reversal ---------- */

  /** The runes of `s` in the opposite order. */
  function Reversed(s: string): string {
    if s == [] then [] else Reversed(s[1..]) + [s[0]]
  }

  /** Reversal keeps the length and puts the rune at `k` at position `|s| - 1 - k`. */
  lemma {:induction false} ReversedAt(s: string, k: int)
    requires 0 <= k < |s|
    ensures |Reversed(s)| == |s|
    ensures Reversed(s)[k] == s[|s| - 1 - k]
  {
    if k < |s| - 1 {
      ReversedAt(s[1..], k);
    } else {
      ReversedLength(s[1..]);
    }
  }

  lemma {:induction false} ReversedLength(s: string)
    ensures |Reversed(s)| == |s|
  {
    if s != [] {
      ReversedLength(s[1..]);
    }
  }

  /** Reversing twice gives the original string back. */
  lemma ReversedTwice(s: string)
    ensures Reversed(Reversed(s)) == s
  {
    ReversedLength(s);
    ReversedLength(Reversed(s));
    forall k | 0 <= k < |s|
      ensures Reversed(Reversed(s))[k] == s[k]
    {
      ReversedAt(Reversed(s), k);
      ReversedAt(s, |s| - 1 - k);
    }
  }

  /**
   * reverseString (util.go:68-74): copy the runes into a fresh array and
   * swap from both ends until the two indices meet.
   */
  method ReverseString(s: string) returns (r: string)
    ensures |r| == |s|
    ensures forall k :: 0 <= k < |s| ==> r[k] == s[|s| - 1 - k]
    ensures r == Reversed(s)
  {
    var runes := new char[|s|](k requires 0 <= k < |s| => s[k]);
    var i, j := 0, |s| - 1;
    while i < j
      invariant 0 <= i <= j + 1 <= |s|
      invariant i + j == |s| - 1
      invariant forall k :: 0 <= k < i ==> runes[k] == s[|s| - 1 - k] && runes[|s| - 1 - k] == s[k]
      invariant forall k :: i <= k <= j ==> runes[k] == s[k]
    {
      runes[i], runes[j] := runes[j], runes[i];
      i, j := i + 1, j - 1;
    }
    r := runes[..];
    ReversedLength(s);
    forall k | 0 <= k < |s|
      ensures r[k] == Reversed(s)[k]
    {
      ReversedAt(s, k);
    }
  }
}
