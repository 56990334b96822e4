/** The least element of a finite set: SQL `MIN`. */
module Minimum {
  lemma HasElement(values: set<int>)
    requires values != {}
    ensures exists v :: v in values
  {
    assert (forall v :: v !in values) ==> values == {};
  }

  ghost function MinOf(values: set<int>): (m: int)
    requires values != {}
    ensures m in values
    ensures forall x :: x in values ==> m <= x
  {
    HasElement(values);
    var v :| v in values;
    if values == {v} then v
    else
      assert values == {v} + (values - {v});
      var rest := MinOf(values - {v});
      if v <= rest then v else rest
  }
}
