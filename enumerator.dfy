/**
  IMEString.Enumerator: a cursor over its own copy of an IMEString, and what a
  `foreach` over an IMEString observes through it.
 */
module ImeStringEnumerators {
  import opened ImeStrings

  /**
    A class: the source declares a struct, but callers only hold the boxed
    IEnumerator<char> that GetEnumerator returns, so they share one object.
   */
  class Enumerator {
    /** The enumerator's own copy of the value; nothing here changes it. */
    var imeString: ImeString
    var currentCharacter: char
    /** -1 before the first MoveNext; Count once MoveNext has returned false. */
    var currentIndex: int

    /** The cursor lies in -1..Count, and while it stands on a character Current holds it. */
    ghost predicate Valid()
      reads this
    {
      && imeString.Valid() && -1 <= currentIndex <= imeString.Count()
      && (0 <= currentIndex < imeString.Count() ==> currentCharacter == imeString.buffer[currentIndex])
    }

    constructor (imeString: ImeString)
      requires imeString.Valid()
      ensures Valid()
      ensures this.imeString == imeString
      ensures currentCharacter == '\0' && currentIndex == -1
    {
      this.imeString := imeString;
      currentCharacter := '\0';
      currentIndex := -1;
    }

    /**
      The character the last successful MoveNext read: while the cursor stands
      on a character, that character.
     */
    function Current(): (c: char)
      requires Valid()
      reads this
      ensures 0 <= currentIndex < imeString.Count() ==> c == imeString.ToString()[currentIndex]
    {
      currentCharacter
    }

    /**
      Advances the cursor. It returns false, leaving Current as it was, when the
      cursor reaches Count; otherwise Current becomes the character at the new
      position. It must not be called again once it has returned false.
     */
    method MoveNext() returns (moved: bool)
      requires Valid() && currentIndex < imeString.Count()
      modifies this
      ensures Valid() && imeString == old(imeString)
      ensures currentIndex == old(currentIndex) + 1
      ensures moved <==> currentIndex < imeString.Count()
      ensures moved ==> Current() == imeString.ToString()[currentIndex]
      ensures !moved ==> Current() == old(Current())
    {
      var size := imeString.Count();
      currentIndex := currentIndex + 1;
      if currentIndex == size {
        return false;
      }
      currentCharacter := imeString.buffer[currentIndex];
      return true;
    }

    /** Puts the cursor back before the first character; Current is not cleared. */
    method Reset()
      requires Valid()
      modifies this`currentIndex
      ensures Valid() && currentIndex == -1
    {
      currentIndex := -1;
    }
  }

  /** IMEString.GetEnumerator: a fresh enumerator over a copy of `s`. */
  method GetEnumerator(s: ImeString) returns (e: Enumerator)
    requires s.Valid()
    ensures fresh(e) && e.Valid()
    ensures e.imeString == s && e.currentIndex == -1 && e.Current() == '\0'
  {
    e := new Enumerator(s);
  }

  /**
    Calls MoveNext until it returns false, collecting Current after each call
    that returned true: from a cursor before the first character, that is
    every character in order, after which MoveNext answers false.
   */
  method Drain(e: Enumerator) returns (yielded: seq<char>)
    requires e.Valid() && e.currentIndex == -1
    modifies e
    ensures e.Valid() && e.imeString == old(e.imeString)
    ensures yielded == e.imeString.ToString()
    ensures e.currentIndex == e.imeString.Count()
  {
    yielded := [];
    var more := e.MoveNext();
    while more
      invariant e.Valid() && e.imeString == old(e.imeString)
      invariant 0 <= e.currentIndex <= e.imeString.Count()
      invariant more <==> e.currentIndex < e.imeString.Count()
      invariant more ==> e.Current() == e.imeString.ToString()[e.currentIndex]
      invariant yielded == e.imeString.ToString()[..e.currentIndex]
      decreases e.imeString.Count() - e.currentIndex
    {
      yielded := yielded + [e.Current()];
      more := e.MoveNext();
    }
  }

  /**
    A `foreach` over `s`, then a second one on the same enumerator after Reset:
    each pass yields exactly the characters of ToString, Count of them in
    order, and `s` itself is a value that neither pass can alter.
   */
  method ForEach(s: ImeString) returns (first: seq<char>, second: seq<char>)
    requires s.Valid()
    ensures first == s.ToString() && |first| == s.Count()
    ensures second == first
  {
    var e := GetEnumerator(s);
    first := Drain(e);
    e.Reset();
    second := Drain(e);
  }
}
