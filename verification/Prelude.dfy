/** Optional values, as Go's nil-or-value results, and numbers not in use. */
module Prelude {
  datatype Option<+T> = None | Some(value: T)

  lemma {:induction false} UpperBound(xs: set<nat>) returns (bound: nat)
    ensures forall x :: x in xs ==> x < bound
  {
    if xs == {} {
      bound := 0;
    } else {
      var x :| x in xs;
      var rest := UpperBound(xs - {x});
      bound := if x < rest then rest else x + 1;
      assert forall y :: y in xs ==> y == x || y in xs - {x};
    }
  }
}
