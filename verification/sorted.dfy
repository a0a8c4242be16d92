/** Ascending enumeration of a finite set of numbers: the iteration order of an
    ordered map and of vote lists sorted by signer. */
module Sorted {

  lemma {:induction false} MinExists(s: set<nat>) returns (m: nat)
    requires s != {}
    ensures m in s && forall x :: x in s ==> m <= x
    decreases |s|
  {
    var some :| some in s;
    var rest := s - {some};
    assert forall x :: x in s ==> x == some || x in rest;
    if rest == {} {
      m := some;
    } else {
      var least := MinExists(rest);
      m := if least < some then least else some;
    }
  }

  function Min(s: set<nat>): (m: nat)
    requires s != {}
    ensures m in s && forall x :: x in s ==> m <= x
  {
    assert exists m :: m in s && forall x :: x in s ==> m <= x by {
      var m := MinExists(s);
    }
    var m :| m in s && forall x :: x in s ==> m <= x;
    m
  }

  ghost predicate Ascending(q: seq<nat>) {
    forall i, j :: 0 <= i < j < |q| ==> q[i] < q[j]
  }

  function Enumerate(s: set<nat>): (q: seq<nat>)
    ensures Ascending(q)
    ensures forall x :: x in q <==> x in s
    ensures |q| == |s|
    decreases |s|
  {
    if s == {} then [] else
      var m := Min(s);
      assert |s - {m}| < |s|;
      var rest := Enumerate(s - {m});
      assert forall i :: 0 <= i < |rest| ==> rest[i] in rest && m < rest[i];
      [m] + rest
  }
}
