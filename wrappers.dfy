/** The optional value the model uses for Python's `None`, and one fact about sequences. */
module Wrappers {

  datatype Option<+T> = None | Some(value: T)

  /** Concatenation is associative; the solver finds this costly on its own. */
  lemma AppendAssoc<T>(a: seq<T>, b: seq<T>, c: seq<T>)
    ensures (a + b) + c == a + (b + c)
  {
  }
}
