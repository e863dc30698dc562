/** Option and Result, the failure-compatible wrappers the rest of the model uses
    for the source's null returns and thrown exceptions, and two facts about
    sequences that the proofs cite by name. */
module Wrappers {

  datatype Option<+T> = None | Some(value: T)

  datatype Result<+T, +E> = Ok(value: T) | Err(error: E) {

    predicate IsFailure() {
      Err?
    }

    function PropagateFailure<U>(): Result<U, E>
      requires Err?
    {
      Err(error)
    }

    function Extract(): T
      requires Ok?
    {
      value
    }
  }

  /** Concatenation regroups freely; proofs over large contexts call this
      rather than leave the regrouping to the solver. */
  lemma AppendAssoc<T>(x: seq<T>, y: seq<T>, z: seq<T>)
    ensures x + y + z == x + (y + z)
  {
  }

  /** Appending two elements one at a time appends the pair. */
  lemma AppendTwo<T>(x: seq<T>, a: T, b: T)
    ensures x + [a] + [b] == x + [a, b]
  {
  }
}
