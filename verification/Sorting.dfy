/** Putting a finite set of integers in increasing order. */
module Sorting {

  lemma {:induction false} LeastExists(s: set<int>)
    requires exists x :: x in s
    ensures exists m :: m in s && forall x :: x in s ==> m <= x
  {
    var x :| x in s;
    var rest := s - {x};
    assert forall y :: y in s ==> y == x || y in rest;
    if exists y :: y in rest {
      LeastExists(rest);
      var m :| m in rest && forall y :: y in rest ==> m <= y;
      var least := if m < x then m else x;
      assert least in s && forall y :: y in s ==> least <= y;
    }
  }

  /** The members of a set in increasing order. */
  function Sorted(s: set<int>): (ids: seq<int>)
    ensures forall i, j :: 0 <= i < j < |ids| ==> ids[i] < ids[j]
    ensures forall c :: c in s <==> c in ids
  {
    if exists x :: x in s then
      LeastExists(s);
      var m :| m in s && forall x :: x in s ==> m <= x;
      [m] + Sorted(s - {m})
    else []
  }
}
