/** The host runtime errors the transpiler can raise while it lexes and
    emits a line, and a result type that carries them. */
module Outcomes {

  /** An index outside a list (also `pop` on an empty list), and a lookup
      of a missing dictionary key. */
  datatype PyError = IndexError | KeyError

  datatype Result<T> = Ok(value: T) | Err(error: PyError)

  datatype Option<T> = None | Some(value: T)

  /** The host's list indexing: a negative index counts from the end. */
  function PyIndex(length: nat, i: int): (r: nat)
    requires -(length as int) <= i < length
    ensures r < length
    ensures i >= 0 ==> r == i
    ensures i < 0 ==> r + (-i) == length
  {
    if i < 0 then length + i else i
  }
}
