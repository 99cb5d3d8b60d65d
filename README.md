# zoom helper layer in Dafny

zoom maps Go structs onto Redis hashes and sorted-set indexes. This project
models the helper layer of `util.go`, which the library's model registry and
index code rely on. The helpers covered are:

- linear search and membership over string lists and over lists of any comparable type;
- removal by position and by value, which shift the caller's backing array in place;
- rune-wise string reversal;
- comparison of two lists as sets, with the library's exact messages;
- the type classifiers that decide whether a field type is a string, number, bool, container or record pointer;
- the 0/1 score of a boolean field, found by following pointers;
- the ids of a list of models.

Modules, one file each:

- `Wrappers` (`wrappers.dfy`): `Option` for Go's untyped nil and `Result` for panics.
- `GoTypes` (`go_types.dfy`): `reflect.Kind` and `reflect.Type` as datatypes, the `typeIs*` classifiers, and lemmas about how the classifiers relate.
- `Slices` (`slices.dfy`): `FirstIndex`, `RemoveAt`, `RemoveFirst` and `Reversed` are the specification functions. The search, removal and reversal methods are proved against them. Removal works on an `array` the way Go's `append(list[:i], list[i+1:]...)` does.
- `SetCompare` (`set_compare.dfy`): the verdict `Compare` (same / first missing / first extra), its meaning as set equality, and the two comparison methods.
- `Scores` (`scores.dfy`): reflect values with pointers, pointer dereferencing, `boolScore` and `convertBoolToInt`.
- `Records` (`model_ids.dfy`): models as records with an id, and `modelIds`.

Where the code and its comments disagree, the model follows the code. The
comments on `compareAsStringSet` and `compareAsSet` promise "an empty string"
on success. Both functions return `"ok"`, and so does the model.

## Model

| member | source | states |
|---|---|---|
| `Slices.FirstIndex` | util.go:78-85 | the result is in [-1, len); it is -1 iff the element is absent; otherwise it is the smallest position holding the element |
| `Slices.IndexOfStringSlice` | util.go:78-85 | the front-to-back scan with early return yields `FirstIndex`: -1 exactly when `s` is absent, else the first position of `s` |
| `Slices.IndexOfSlice` | util.go:90-100 | the same scan over any element type with deep (structural) equality yields `FirstIndex` |
| `Slices.StringSliceContains` | util.go:103-105 | true iff `s` occurs in the list |
| `Slices.SliceContains` | util.go:108-110 | true iff `a` occurs in the list |
| `Slices.RemoveAt` | util.go:114-116 | removing position `i` gives a list one shorter, with the elements before `i` in place, those after `i` shifted one left, and the same multiset minus `list[i]` |
| `Slices.RemoveFromStringSlice` | util.go:114-116 | for 0 <= i < len the backing array's first len-1 slots become `RemoveAt(old, i)`, the last slot keeps its old value, and the new slice length is len-1 |
| `Slices.RemoveFirstSpec` | util.go:120-127 | an absent element leaves the list unchanged; the length drops by one iff the element is present; exactly one occurrence is removed (multiset minus one copy); it is the first occurrence, with the rest kept in order |
| `Slices.RemoveFirstAbsent` | util.go:120-127 | when the element is absent, removal by value returns the list unchanged (the fall-through `return list`) |
| `Slices.RemoveFirstPresent` | util.go:120-127 | when the element is present, removal by value deletes the element at its first position, so the list is one shorter and loses exactly one copy of the element |
| `Slices.RemoveElementFromStringSlice` | util.go:120-127 | the returned slice is `RemoveFirst(old, elem)`; an absent element leaves array and length unchanged; a present one shortens the slice by one in place, and the last slot keeps its old value |
| `Slices.ReversedAt` | util.go:68-74 | reversal keeps the rune count, and position k of the result holds rune len-1-k of the input |
| `Slices.ReversedTwice` | util.go:68-74 | reversing twice gives back the original string |
| `Slices.ReverseString` | util.go:68-74 | the two-index in-place swap loop returns `Reversed(s)`: same length, rune k equal to input rune len-1-k |
| `SetCompare.FirstMissing` | util.go:134-150 | the result is -1 iff every element of the first list occurs in the second; otherwise it is the first position whose element does not occur there |
| `SetCompare.CompareSpec` | util.go:133-153 | the verdict is "same" iff both lists hold the same set of elements, ignoring order and repetition; a missing expected element is reported whenever one exists, before any extra element; a reported element really is missing or extra |
| `SetCompare.CompareAsStringSet` | util.go:133-153 | returns (true, "ok") iff the verdict is "same"; otherwise false with "Missing expected element: e" for the first missing e, or "Found extra element: g" for the first extra g |
| `SetCompare.CompareAsSet` | util.go:159-189 | a nil `expecteds`, then a nil `gots`, fails with its own message before any element is looked at; otherwise it reaches the same verdict as `Compare`, with the messages "Missing expected element: " and "Found unexpected element: " followed by the formatted element |
| `Scores.Deref` | util.go:258-260 | following pointers always ends at a non-pointer; a nil pointer ends at the zero Value; a non-pointer is its own end |
| `Scores.ConvertBoolToInt` | util.go:271-277 | the result is 0 or 1, and it is 1 iff the bool is true |
| `Scores.ConvertBoolToIntOrder` | util.go:268-277 | the score keeps the order false < true and tells the two values apart |
| `Scores.BoolScore` | util.go:257-266 | succeeds iff the value behind all pointers is a bool; the score is then 0 or 1, and 1 iff that bool is true; any other type fails with the source's panic message; the zero Value behind a nil pointer fails |
| `GoTypes.TypeIsSliceOrArray` | util.go:191-195 | kind is Slice or Array and the element kind is not Uint8: exactly the slice and array types whose element type is not `byte` |
| `GoTypes.TypeIsPointerToStruct` | util.go:197-200 | kind is Ptr and the element kind is Struct: exactly the type `*struct` |
| `GoTypes.TypeIsString` | util.go:202-207 | kind is String, or Slice/Array with element kind Uint8: exactly `string` and the slices and arrays of `byte` |
| `GoTypes.TypeIsNumeric` | util.go:209-218 | the kind is one of the twelve int, uint and float kinds: exactly the basic types whose kind lies between Int and Float64 in reflect's kind numbering, except uintptr |
| `GoTypes.TypeIsBool` | util.go:220-224 | kind is Bool: exactly the type `bool` |
| `GoTypes.TypeIsPrimative` | util.go:226-230 | string, numeric or bool; such a type is basic or a slice/array of `byte` |
| `GoTypes.StringExcludesSliceOrArray` | util.go:192-207 | no type is both a string and a slice/array; a slice or array type is a string iff its element type is uint8 (byte), and a slice/array otherwise |
| `GoTypes.NumericKindsExactly` | util.go:210-224 | bool, uintptr and the complex kinds are not numeric |
| `GoTypes.PrimativeClassesDisjoint` | util.go:191-230 | string, numeric and bool are pairwise disjoint; a primitive type is never a non-byte slice/array or a pointer to a struct |
| `Records.ModelIds` | util.go:280-286 | the result has the input's length, and entry i is model i's id |

## Left out

- `Models` and `Interfaces` (util.go:23-65) are not modelled. They convert through `interface{}` with run-time type assertions and consult the model registry `modelTypeToSpec`. That registry lives in model_type.go, which is not part of this model.
- `numericScore` (util.go:235-252) is not modelled. It converts integers to `float64`, and floating point is not modelled.
- `generateRandomId`, `randomInt`, `randomString`, `randomBool`, `randomFloat` and `randomComplex` (util.go:291-322) are not modelled. They depend on the clock, on randomness, on an external id library, and on float and complex numbers.
- The model registry, the index code, `Save`/`Find`/`Register` and the Redis round trips exercised by the test files are not modelled. Their implementation is not part of this model.
- `Slices.ReverseString`: a Go string is a UTF-8 byte sequence, but here it is modelled as its sequence of runes (`seq<char>`). The decoding, and the replacement of invalid bytes by U+FFFD, are not modelled.
- `Slices.RemoveFromStringSlice`: a Go slice is modelled as a whole array with length equal to capacity and offset 0. Spare capacity beyond the slice and other slices sharing the array are not modelled. Go's panic for an index outside [0, len) is modelled as the precondition.
- `Slices.RemoveElementFromStringSlice`: modelled with the same slice simplification as `RemoveFromStringSlice`.
- `Slices.IndexOfSlice`: `reflect.DeepEqual` is modelled as Dafny equality on one element type, and `list` as a sequence. Not modelled: DeepEqual between values of different dynamic types (never equal); NaN inequality; a string `list`, whose bytes (`uint8`) are compared with `a` one by one; a map or chan `list`, which panics in `Index` unless it is empty; and `list` of any kind other than array, slice, string, map or chan, which panics in `Len`. An array `list` behaves like a slice.
- `SetCompare.CompareAsSet`: an untyped nil argument is `None`. A typed nil slice is an empty list, as `reflect.ValueOf` treats it. Go's `%v` formatting is the `format` parameter. Both lists are sequences of one element type `T`, so these Go cases are not modelled. With `expecteds` and `gots` of different element types, DeepEqual never matches, so a non-empty `expecteds` always reports a missing element. A string argument is compared byte by byte. A map or chan argument panics in `Index` unless it is empty; two empty ones compare as equal. An argument of any kind other than array, slice, string, map or chan panics in `Len`. Arrays behave like slices.
- `Scores.BoolScore`: for the zero Value behind a nil pointer, Go panics inside reflect while building its message; this is modelled as the error `ZeroValue` without reflect's text. Type names are given with the value, not computed from a type.
- `Scores.BoolScore`: cyclic pointer chains are not modelled. `Value` builds only finite chains. On a pointer that points to itself (`type T *T; var x T; x = &x`), the loop at util.go:258-260 never ends.
- `Records.ModelIds`: a model is a record with an `id` field. Go panics at util.go:283 when an element is a nil `Model` interface, and `GetId` runs whatever method the user's type defines. Neither is modelled.
