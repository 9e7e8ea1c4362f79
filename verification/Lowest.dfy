/** Finite sets of numbers in ascending order: what taking the smallest again and again gives. */
module Lowest {

  ghost predicate IsMin(s: set<nat>, m: nat) { m in s && forall x | x in s :: m <= x }

  lemma {:induction false} HasMin(s: set<nat>)
    requires s != {}
    ensures exists m :: IsMin(s, m)
    decreases |s|
  {
    var x :| x in s;
    if s == {x} {
      assert IsMin(s, x);
    } else {
      assert s - {x} != {};
      HasMin(s - {x});
      var m :| IsMin(s - {x}, m);
      var k := if m < x then m else x;
      forall y | y in s ensures k <= y {
        assert y == x || y in s - {x};
      }
      assert IsMin(s, k);
    }
  }

  ghost function Min(s: set<nat>): (m: nat)
    requires s != {}
    ensures IsMin(s, m)
  {
    HasMin(s);
    var m :| IsMin(s, m);
    m
  }

  /** The members in ascending order, each once. */
  ghost function Ascending(s: set<nat>): (r: seq<nat>)
    ensures |r| == |s|
    decreases |s|
  {
    if s == {} then [] else [Min(s)] + Ascending(s - {Min(s)})
  }

  lemma {:induction false} AscendingMembers(s: set<nat>, x: nat)
    ensures x in Ascending(s) <==> x in s
    decreases |s|
  {
    if s != {} {
      AscendingMembers(s - {Min(s)}, x);
      assert x in Ascending(s) <==> x == Min(s) || x in Ascending(s - {Min(s)});
    }
  }

  lemma {:induction false} AscendingSorted(s: set<nat>, i: nat, j: nat)
    requires i < j < |s|
    ensures Ascending(s)[i] < Ascending(s)[j]
    decreases |s|
  {
    var m := Min(s);
    var rest := Ascending(s - {m});
    if i > 0 {
      AscendingSorted(s - {m}, i - 1, j - 1);
    } else {
      AscendingMembers(s - {m}, rest[j - 1]);
    }
  }
}
