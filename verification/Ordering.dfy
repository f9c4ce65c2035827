/** Finite sets of numbers in ascending order. */
module Ordering {
  lemma {:induction false} MinimumExists(s: set<nat>, some: nat)
    requires some in s
    ensures exists m :: m in s && forall x :: x in s ==> m <= x
    decreases some
  {
    if x :| x in s && x < some {
      MinimumExists(s, x);
    } else {
      assert forall x :: x in s ==> some <= x;
    }
  }

  function Minimum(s: set<nat>): (m: nat)
    requires s != {}
    ensures m in s && forall x :: x in s ==> m <= x
  {
    var some :| some in s;
    MinimumExists(s, some);
    var m :| m in s && forall x :: x in s ==> m <= x;
    m
  }

  /** The members of `s` in ascending order, as a `BTreeMap` visits its keys. */
  function Ascending(s: set<nat>): (r: seq<nat>)
    ensures forall x :: x in r <==> x in s
    ensures |r| == |s|
    ensures forall i, j :: 0 <= i < j < |r| ==> r[i] < r[j]
    decreases |s|
  {
    if s == {} then []
    else
      var m := Minimum(s);
      AscendingAbove(m, Ascending(s - {m}));
      [m] + Ascending(s - {m})
  }

  lemma AscendingAbove(m: nat, rest: seq<nat>)
    requires (forall x :: x in rest ==> m < x) && forall i, j :: 0 <= i < j < |rest| ==> rest[i] < rest[j]
    ensures forall i, j :: 0 <= i < j < |[m] + rest| ==> ([m] + rest)[i] < ([m] + rest)[j]
    ensures forall x :: x in [m] + rest <==> x == m || x in rest
  {
    assert forall i :: 0 <= i < |rest| ==> rest[i] in rest;
  }
}
