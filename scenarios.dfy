/** A client of the model: what callers can conclude from the contracts alone. */
module ImeStringScenarios {
  import opened Wrappers
  import opened ImeStrings
  import opened ImeStringEnumerators

  method Scenarios() {
    var hello := FromString(Some("hello"));
    assert hello.Count() == 5 && hello.ToString() == "hello";
    assert hello.Get(0) == Success('h') && hello.Get(4) == Success('o');
    assert hello.Get(5).Failure? && hello.Get(-1).Failure?;
    var first, second := ForEach(hello);
    assert first == second == "hello";

    // A source of exactly Capacity units is kept whole; a longer one keeps Capacity - 1 units.
    var full := FromString(Some(seq(64, _ => 'b')));
    assert full.Count() == 64;
    var long := FromList(Some(seq(100, _ => 'a')));
    assert long.Count() == 63 && long.ToString() == seq(63, _ => 'a');

    // The count is truncated first and then clamped to the array.
    var chars := new char[] ['x', 'y', 'z'];
    var clamped := FromCharArray(chars, 70);
    assert clamped.ToString() == "xyz";
    var none := FromCharArray(chars, 0);
    assert none.Count() == 0;

    var nullHandle := FromPointer(None);
    assert nullHandle.ToString() == "";
    var memory := ['h', 'i', '\0', 'q'];
    assert memory[2] == '\0';
    var hi := FromPointer(Some(memory));
    assert hi.Count() == 2 && hi.ToString() == "hi";

    // A terminator at index 64 fills the buffer exactly.
    var filled := seq(64, _ => 'a') + ['\0'];
    assert filled[64] == '\0';
    var full64 := FromPointer(Some(filled));
    assert full64.Count() == 64;
  }
}
