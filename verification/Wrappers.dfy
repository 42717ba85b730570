/** What the other modules share: an option type, and a fact about sets of ids. */
module Wrappers {

  /** A Go pointer or interface that may be nil. */
  datatype Option<+T> = None | Some(value: T)

  lemma {:induction false} SomeOrNone(s: set<int>)
    ensures s == {} || exists x :: x in s
  {
    if forall x: int :: x !in s {
      assert s == {};
    }
  }
}
