# IMEString, modelled in Dafny

ImeSharp's `IMEString` holds short text from an input-method pipeline, such as composition and candidate strings. It does this without heap allocation. It is a value struct with an inline `char` buffer of 64 slots and a logical length `_size`. There are four constructors: from a `string`, a `List<char>`, a `char[]` with a count, or a native pointer to a null-terminated `char` string. Each constructor copies a prefix of its source into the buffer. After that, the value can be read through `Count`, a bounds-checked indexer and `ToString`, and walked with a hand-written enumerator.

The model has three modules:

- `Wrappers` (`wrappers.dfy`): `Option`, which stands for a null reference, and `Result`, which stands for a thrown exception.
- `ImeStrings` (`ime_string.dfy`):
  - `ImeString` is a datatype with the whole 64-slot buffer as a `seq<char>` and the size. It is copied whole, as the struct is.
  - Each constructor is a method. It allocates a fresh `char[64]`, copies into it with a loop, and wraps the array's contents. The slots beyond the size are never written, so their content stays arbitrary, as in the source.
  - `Count`, the indexer (`Get`) and `ToString` are functions over the first `size` slots.
- `ImeStringEnumerators` (`enumerator.dfy`):
  - `Enumerator` is a class whose `MoveNext` and `Reset` update its cursor fields. The source declares it as a struct, but callers only hold the boxed `IEnumerator<char>` that `GetEnumerator` returns, so it behaves as a single shared object.
  - `GetEnumerator` creates an enumerator.
  - `Drain` and `ForEach` show what a `foreach` over the value observes.

`scenarios.dfy` is a client that derives concrete outcomes from the contracts alone. For example, `"hello"` gives Count 5, and 100 characters give 63.

Truncation follows the code as written:

- A `string`, `List<char>` or `char[]` count longer than 64 keeps 63 units (for a `char[]`, then at most the array's length). A `string` or `List<char>` of exactly 64 units keeps all 64, and so does a `char[]` count of 64 when the array holds at least 64 units.
- The pointer form has no capacity bound: it copies until the first `'\0'`.

## Model

| member | source | states |
|---|---|---|
| ImeStrings.ImeString.Count | ImeSharp/IMEString.cs:56 | the count of a well-formed value lies between 0 and 64 |
| ImeStrings.ImeString.ToString | ImeSharp/IMEString.cs:175-181 | the string conversion has exactly Count characters |
| ImeStrings.ImeString.Get | ImeSharp/IMEString.cs:58-70 | the indexer succeeds exactly when 0 <= index < Count, and then gives the index-th character of ToString; otherwise it fails with ArgumentOutOfRange("index") |
| ImeStrings.TruncatedLength | ImeSharp/IMEString.cs:84-86 | the kept length never exceeds 64; it equals the source length exactly when that is at most 64; a longer source keeps 63 |
| ImeStrings.CopyPrefix | ImeSharp/IMEString.cs:88-96 | the first size slots of the buffer receive the source's first size units in order, and no other slot changes |
| ImeStrings.FromString | ImeSharp/IMEString.cs:76-97 | a null or empty string gives Count 0; otherwise Count is TruncatedLength of the length and the text is that prefix of the string; a string of at most 64 round-trips through ToString; a longer one keeps 63 |
| ImeStrings.FromList | ImeSharp/IMEString.cs:99-120 | the same as for a string, driven by the list's Count: null or empty gives 0, at most 64 round-trips, longer keeps 63 |
| ImeStrings.FromCharArray | ImeSharp/IMEString.cs:122-146 | a null array or a count <= 0 gives Count 0; otherwise Count is min(TruncatedLength(count), array length) and the text is that prefix of the array |
| ImeStrings.FromPointer | ImeSharp/IMEString.cs:148-173 | a null pointer gives Count 0; otherwise Count is the position of the first '\0' (the unit there is '\0' and none before it is), and the text is the units before it |
| ImeStrings.Empty | ImeSharp/IMEString.cs:11 | Empty has Count 0 and text "", and the indexer fails on every index |
| ImeStrings.SameTextSameReads | ImeSharp/IMEString.cs:56-70 | Count and the indexer depend only on the text, so the unwritten slots beyond Count are never observed |
| ImeStringEnumerators.Enumerator.constructor | ImeSharp/IMEString.cs:19-24 | a new enumerator holds a copy of the value, Current is '\0' and the index is -1 |
| ImeStringEnumerators.Enumerator.Current | ImeSharp/IMEString.cs:52 | while the cursor stands on a character (0 <= index < Count), Current is that character of ToString; it is '\0' after the constructor and GetEnumerator, and MoveNext returning false or Reset leave it unchanged |
| ImeStringEnumerators.Enumerator.MoveNext | ImeSharp/IMEString.cs:26-41 | the index advances by one; the result is true exactly when the new index is below Count, and then Current is the character at that index; on false Current keeps its value; the enumerator's copy of the value never changes |
| ImeStringEnumerators.Enumerator.Reset | ImeSharp/IMEString.cs:43-46 | the index goes back to -1 and nothing else changes |
| ImeStringEnumerators.GetEnumerator | ImeSharp/IMEString.cs:191-194 | the enumerator is new, holds the value, stands before the first character, and its Current is '\0' |
| ImeStringEnumerators.Drain | ImeSharp/IMEString.cs:26-41 | from index -1, MoveNext returns true exactly Count times, yielding ToString in order, and then returns false |
| ImeStringEnumerators.ForEach | ImeSharp/IMEString.cs:19-46 | a pass from a fresh enumerator yields exactly the Count characters of ToString in order, and a second pass after Reset yields the same |

## Left out

- ToIntPtr (ImeSharp/IMEString.cs:183-189): it returns the buffer's raw address from inside a `fixed` block. This is pointer lifetime and interop, and there is no functional contract to state.
- `fixed` pinning and pointer arithmetic: these are modelled as plain indexing into the buffer and the source.
- ImeStrings.FromPointer: a requires clause says that at most 64 units of the native region come before its first `'\0'`, so the terminator may sit at index 64 and fill the buffer. The source does not check this. With more units before the terminator, its scan writes past the 64-slot buffer, which is memory corruption and is not modelled. The native region is a `seq<char>` that starts at the pointer, and a null pointer is `None`.
- ImeStringEnumerators.Enumerator.MoveNext: a requires clause forbids calling it again after it has returned false. In the source, the index would then pass Count and read stale slots or slots out of range.
- The non-generic `IEnumerable.GetEnumerator`, the boxed `IEnumerator.Current` and the empty `Dispose` (ImeSharp/IMEString.cs:48-50, 53, 196-199): these are interface plumbing with no behaviour of their own.
- Slots beyond Count: the constructors never write them, and the model leaves them arbitrary. It does not say that they are zero.
- A string, a List or a char[] that another thread mutates during construction: the model treats sources as immutable values.
- Character units: the model's unit is Dafny's `char`, a Unicode scalar value, so it cannot hold a lone UTF-16 surrogate; text outside the Basic Multilingual Plane, and a truncation at 63 that splits a surrogate pair, have no model input. Every contract depends on unit values only through the `'\0'` test, so nothing else would change with a 16-bit unit type.
