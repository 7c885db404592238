/** The keys of an ordered map, in the order an ordered map gives them. */
module Ascending {
  import opened Prelude

  predicate Strictly(q: seq<Id>) {
    forall i, j :: 0 <= i < j < |q| ==> q[i] < q[j]
  }

  predicate IsLeast(least: Id, s: set<Id>) {
    least in s && forall other :: other in s ==> least <= other
  }

  lemma {:induction false} HasLeast(s: set<Id>) returns (least: Id)
    requires s != {}
    ensures IsLeast(least, s)
  {
    least :| least in s;
    var rest := s - {least};
    if rest != {} {
      var other := HasLeast(rest);
      assert s == rest + {least};
      least := if least < other then least else other;
    } else {
      assert s == {least};
    }
  }

  function Least(s: set<Id>): (least: Id)
    requires s != {}
    ensures IsLeast(least, s)
  {
    assert exists least :: IsLeast(least, s) by {
      var witnessed := HasLeast(s);
    }
    var least :| IsLeast(least, s);
    least
  }

  /** The elements of `s` in ascending order. */
  function Sorted(s: set<Id>): (q: seq<Id>)
    ensures Strictly(q)
    ensures forall x :: x in q <==> x in s
  {
    if s == {} then []
    else
      var rest := Sorted(s - {Least(s)});
      assert forall i :: 0 <= i < |rest| ==> rest[i] in s - {Least(s)};
      [Least(s)] + rest
  }
}
