/** Small datatypes shared by the other modules. */
module Common {

  datatype Option<+T> = None | Some(value: T)

  /** The outcome of a step that the program may abandon with an error. */
  datatype Result<+T> = Ok(value: T) | Err

  /** Node counts are 32-bit integers in the API types. */
  newtype int32 = n: int | -0x8000_0000 <= n < 0x8000_0000

  function Min(a: int, b: int): int {
    if a <= b then a else b
  }

  function Max(a: int, b: int): int {
    if a <= b then b else a
  }

  lemma SomeMember(s: set<int>)
    requires s != {}
    ensures exists k :: k in s
  {
    assert (forall k :: k !in s) ==> s == {};
  }
}
