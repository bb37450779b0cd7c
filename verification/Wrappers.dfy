/** The two result types used throughout: a value that may be missing, and an
    outcome that may be a thrown error. */
module Wrappers {

  datatype Option<+T> = None | Some(value: T)

  datatype Result<+T, +E> = Success(value: T) | Failure(error: E) {
    predicate IsFailure() {
      Failure?
    }

    function PropagateFailure<U>(): Result<U, E>
      requires Failure?
    {
      Failure(error)
    }

    function Extract(): T
      requires Success?
    {
      value
    }
  }

  /** A key beyond all those in use. */
  lemma {:induction false} FreshKey(keys: set<nat>) returns (unused: nat)
    ensures forall k :: k in keys ==> k < unused
  {
    unused := 0;
    if keys != {} {
      var k :| k in keys;
      var rest := FreshKey(keys - {k});
      unused := if k < rest then rest else k + 1;
      assert keys == (keys - {k}) + {k};
    }
  }
}
