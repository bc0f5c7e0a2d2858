/** Values that may be absent. */
module Wrappers {
  datatype Option<+T> = None | Some(value: T)

  lemma Regroup<T>(a: seq<T>, b: seq<T>, c: seq<T>)
    ensures a + (b + c) == (a + b) + c
  {
  }
}
