/** Sizes of finite sets. */
module Sets {
  lemma SubsetSize<T>(a: set<T>, b: set<T>)
    requires a <= b
    ensures |a| <= |b|
  {
    if a != {} {
      var x :| x in a;
      SubsetSize(a - {x}, b - {x});
    }
  }

  lemma EqualSize<T>(a: set<T>, b: set<T>)
    requires a <= b && |a| == |b|
    ensures a == b
  {
    if x :| x in b && x !in a { SubsetSize(a, b - {x}); }
  }

  lemma CountOne(all: set<nat>, todo: set<nat>, x: nat)
    requires x in todo
    ensures |all - (todo - {x})| == |all - todo| + if x in all then 1 else 0
  {
    if x in all {
      assert all - (todo - {x}) == (all - todo) + {x};
    } else {
      assert all - (todo - {x}) == all - todo;
    }
  }

  /** There is always a number that nothing uses. */
  lemma {:induction false} FreeNumber(used: set<nat>) returns (free: nat)
    ensures free !in used && forall x <- used :: x < free
    decreases |used|
  {
    if used == {} {
      free := 0;
    } else {
      var one :| one in used;
      var rest := FreeNumber(used - {one});
      free := if rest <= one then one + 1 else rest;
      forall x <- used ensures x < free { assert x == one || x in used - {one}; }
    }
  }
}
