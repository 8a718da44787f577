/** The lowest and the highest member of a set of numbers: begin() of a std::map, and MAX(id). */
module Extremes {

  ghost function Lowest(ids: set<nat>): (id: nat)
    requires ids != {}
    ensures id in ids && forall i :: i in ids ==> id <= i
  {
    var i :| i in ids;
    if ids == {i} then i
    else
      assert ids == {i} + (ids - {i});
      var rest := Lowest(ids - {i});
      assert forall j :: j in ids ==> j == i || j in ids - {i};
      if i < rest then i else rest
  }

  ghost function Highest(ids: set<nat>): (top: nat)
    ensures forall i :: i in ids ==> i <= top
    ensures ids != {} ==> top in ids
    ensures ids == {} ==> top == 0
  {
    if ids == {} then 0
    else
      var i :| i in ids;
      var rest := Highest(ids - {i});
      assert forall j :: j in ids ==> j == i || j in ids - {i};
      if i > rest then i else rest
  }

  method FindLowest(ids: set<nat>) returns (id: nat)
    requires ids != {}
    ensures id == Lowest(ids)
  {
    var todo := ids;
    id :| id in todo;
    while todo != {}
      invariant id in ids && todo <= ids
      invariant forall i :: i in ids ==> i in todo || id <= i
      decreases |todo|
    {
      var i :| i in todo;
      if i < id {
        id := i;
      }
      todo := todo - {i};
    }
  }

  method FindHighest(ids: set<nat>) returns (top: nat)
    ensures top == Highest(ids)
  {
    var todo := ids;
    top := 0;
    while todo != {}
      invariant todo <= ids && (top == 0 || top in ids)
      invariant forall i :: i in ids ==> i in todo || i <= top
      decreases |todo|
    {
      var i :| i in todo;
      if i > top {
        top := i;
      }
      todo := todo - {i};
    }
  }

  lemma SubsetIsSmaller(a: set<nat>, b: set<nat>)
    requires a <= b
    ensures |a| <= |b|
  {
    if a != {} {
      var x :| x in a;
      SubsetIsSmaller(a - {x}, b - {x});
    }
  }

  lemma OneElement(ids: set<nat>, id: nat)
    requires id in ids
    ensures |ids| == 1 <==> forall other :: other in ids ==> other == id
  {
    if forall other :: other in ids ==> other == id {
      assert ids == {id};
    } else {
      var other :| other in ids && other != id;
      SubsetIsSmaller({id, other}, ids);
    }
  }
}
