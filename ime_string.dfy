/**
  IMEString: a value holding an inline buffer of 64 characters and a logical
  length. It is built by one of four constructors, each of which copies a prefix
  of its source into the buffer, and is read through Count, the indexer and
  ToString.
 */
module ImeStrings {
  import opened Wrappers

  /** The fixed size of the inline buffer (IMECharBufferSize). */
  const Capacity: int := 64

  /** The exception the indexer throws; it carries the parameter's name. */
  datatype Error = ArgumentOutOfRange(paramName: string)

  /**
    The struct: the whole fixed buffer and `_size`. Being a datatype, it is
    copied whole on assignment, as the struct is.
   */
  datatype ImeString = ImeString(buffer: seq<char>, size: int) {

    /** The buffer has exactly Capacity slots and the size lies within them. */
    ghost predicate Valid() {
      |buffer| == Capacity && 0 <= size <= Capacity
    }

    /** The number of characters held. */
    function Count(): (n: int)
      requires Valid()
      ensures 0 <= n <= Capacity
    {
      size
    }

    /** The characters held, in order: the first Count slots of the buffer. */
    function ToString(): (s: string)
      requires Valid()
      ensures |s| == Count()
    {
      buffer[..size]
    }

    /**
      The indexer: the character at `index`, or ArgumentOutOfRange("index") when
      `index` is negative or not below Count. The check comes before any read.
     */
    function Get(index: int): (r: Result<char, Error>)
      requires Valid()
      ensures r.Success? <==> 0 <= index < Count()
      ensures r.Success? ==> r.value == ToString()[index]
      ensures r.Failure? ==> r.error == ArgumentOutOfRange("index")
    {
      if index >= Count() || index < 0 then
        Failure(ArgumentOutOfRange("index"))
      else
        Success(buffer[index])
    }
  }

  /**
    The length the string, List and char[] constructors keep for a source (or
    count) of `n` units: all of them up to Capacity, but Capacity - 1 for
    anything longer.
   */
  function TruncatedLength(n: int): (r: int)
    ensures r <= Capacity
    ensures r == n <==> n <= Capacity
    ensures n > Capacity ==> r == Capacity - 1
  {
    if n > Capacity then Capacity - 1 else n
  }

  /** The copying loop the string, List and char[] constructors share. */
  method CopyPrefix(source: seq<char>, size: int, buffer: array<char>)
    requires 0 <= size <= |source| && size <= buffer.Length
    modifies buffer
    ensures buffer[..size] == source[..size]
    ensures buffer[size..] == old(buffer[size..])
  {
    for i := 0 to size
      invariant forall j :: 0 <= j < i ==> buffer[j] == source[j]
      invariant forall j :: size <= j < buffer.Length ==> buffer[j] == old(buffer[j])
    {
      buffer[i] := source[i];
    }
  }

  /**
    new IMEString(string). A null or empty string gives an empty value;
    otherwise the first TruncatedLength(|characters|) characters are kept.
   */
  method FromString(characters: Option<string>) returns (r: ImeString)
    ensures r.Valid()
    ensures characters.None? || characters.value == "" ==> r.Count() == 0
    ensures characters.Some? ==>
              && r.Count() == TruncatedLength(|characters.value|)
              && r.ToString() == characters.value[..r.Count()]
    ensures characters.Some? && |characters.value| <= Capacity ==> r.ToString() == characters.value
    ensures characters.Some? && |characters.value| > Capacity ==> r.Count() == Capacity - 1
  {
    // The slots beyond the size are never written: their content is left arbitrary.
    var buffer := new char[Capacity];
    if characters.None? || |characters.value| == 0 {
      return ImeString(buffer[..], 0);
    }
    var size := |characters.value|;
    if size > Capacity {
      size := Capacity - 1;
    }
    CopyPrefix(characters.value, size, buffer);
    r := ImeString(buffer[..], size);
  }

  /**
    new IMEString(List<char>): the same rule as for a string, driven by the
    list's Count.
   */
  method FromList(characters: Option<seq<char>>) returns (r: ImeString)
    ensures r.Valid()
    ensures characters.None? || characters.value == [] ==> r.Count() == 0
    ensures characters.Some? ==>
              && r.Count() == TruncatedLength(|characters.value|)
              && r.ToString() == characters.value[..r.Count()]
    ensures characters.Some? && |characters.value| <= Capacity ==> r.ToString() == characters.value
    ensures characters.Some? && |characters.value| > Capacity ==> r.Count() == Capacity - 1
  {
    var buffer := new char[Capacity];
    if characters.None? || |characters.value| == 0 {
      return ImeString(buffer[..], 0);
    }
    var size := |characters.value|;
    if size > Capacity {
      size := Capacity - 1;
    }
    CopyPrefix(characters.value, size, buffer);
    r := ImeString(buffer[..], size);
  }

  /**
    new IMEString(char[], int). A null array or a count of zero or less gives an
    empty value; otherwise the count is truncated as for a string and then
    clamped to the array's length.
   */
  method FromCharArray(characters: array?<char>, count: int) returns (r: ImeString)
    ensures r.Valid()
    ensures characters == null || count <= 0 ==> r.Count() == 0
    ensures characters != null && count > 0 ==>
              && r.Count() == (if TruncatedLength(count) <= characters.Length
                               then TruncatedLength(count) else characters.Length)
              && r.ToString() == characters[..r.Count()]
  {
    var buffer := new char[Capacity];
    if characters == null || count <= 0 {
      return ImeString(buffer[..], 0);
    }
    var size := count;
    if size > Capacity {
      size := Capacity - 1;
    }
    if size > characters.Length {
      size := characters.Length;
    }
    CopyPrefix(characters[..], size, buffer);
    r := ImeString(buffer[..], size);
  }

  /**
    At most Capacity units of `memory` come before its first '\0'. The pointer
    constructor relies on it without checking: its scan has no bound and would
    write past the buffer if the terminator came later.
   */
  ghost predicate FitsBeforeTerminator(memory: seq<char>) {
    exists k :: 0 <= k < |memory| && k <= Capacity && memory[k] == '\0'
  }

  /**
    new IMEString(IntPtr). A null pointer (None) gives an empty value; otherwise
    the units are copied up to, not including, the first '\0'. `memory` is the
    native region the pointer addresses, from the pointer on.
   */
  method FromPointer(bStrPtr: Option<seq<char>>) returns (r: ImeString)
    requires bStrPtr.Some? ==> FitsBeforeTerminator(bStrPtr.value)
    ensures r.Valid()
    ensures bStrPtr.None? ==> r.Count() == 0
    ensures bStrPtr.Some? ==>
              && r.Count() < |bStrPtr.value|
              && bStrPtr.value[r.Count()] == '\0'
              && '\0' !in r.ToString()
              && r.ToString() == bStrPtr.value[..r.Count()]
  {
    var buffer := new char[Capacity];
    if bStrPtr.None? {
      return ImeString(buffer[..], 0);
    }
    var memory := bStrPtr.value;
    ghost var terminator :| 0 <= terminator < |memory| && terminator <= Capacity && memory[terminator] == '\0';
    var i := 0;
    while memory[i] != '\0'
      invariant 0 <= i <= terminator
      invariant forall j :: 0 <= j < i ==> memory[j] != '\0' && buffer[j] == memory[j]
      decreases terminator - i
    {
      buffer[i] := memory[i];
      i := i + 1;
    }
    r := ImeString(buffer[..], i);
  }

  /** IMEString.Empty: the List constructor applied to null. */
  method Empty() returns (empty: ImeString)
    ensures empty.Valid() && empty.Count() == 0 && empty.ToString() == ""
    ensures forall index :: empty.Get(index).Failure?
  {
    empty := FromList(None);
  }

  /**
    Every public read (Count, the indexer, ToString) sees only the first Count
    slots: two values holding the same text cannot be told apart, whatever
    their unused slots hold.
   */
  lemma SameTextSameReads(a: ImeString, b: ImeString)
    requires a.Valid() && b.Valid()
    requires a.ToString() == b.ToString()
    ensures a.Count() == b.Count()
    ensures forall index :: a.Get(index) == b.Get(index)
  {
  }
}
