/** The option type and a sequence lemma shared by the other modules. */
module Wrappers {

  datatype Option<+T> = None | Some(value: T)

  /** Concatenation of sequences is associative. */
  lemma Assoc<T>(a: seq<T>, b: seq<T>, c: seq<T>)
    ensures (a + b) + c == a + (b + c)
  {
  }
}
