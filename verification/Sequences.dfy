/** Filtering and ordering of sequences, as the outbox uses them. */
module Sequences {
  import opened Common

  function Filter<T>(xs: seq<T>, keep: T -> bool): (r: seq<T>) {
    if xs == [] then []
    else (if keep(xs[0]) then [xs[0]] else []) + Filter(xs[1..], keep)
  }

  lemma {:induction false} FilterMember<T>(xs: seq<T>, keep: T -> bool, x: T)
    ensures x in Filter(xs, keep) <==> x in xs && keep(x)
  {
    if xs != [] {
      FilterMember(xs[1..], keep, x);
      assert xs == [xs[0]] + xs[1..];
    }
  }

  lemma FilterMembers<T>(xs: seq<T>, keep: T -> bool)
    ensures forall x :: x in Filter(xs, keep) <==> x in xs && keep(x)
  {
    forall x
      ensures x in Filter(xs, keep) <==> x in xs && keep(x)
    {
      FilterMember(xs, keep, x);
    }
  }

  /** Elements kept in order: two positions of the result come from two positions of the input. */
  lemma {:induction false} FilterPositions<T>(xs: seq<T>, keep: T -> bool, i: nat, j: nat)
    returns (i': nat, j': nat)
    requires i < j < |Filter(xs, keep)|
    ensures i' < j' < |xs|
    ensures xs[i'] == Filter(xs, keep)[i] && xs[j'] == Filter(xs, keep)[j]
  {
    var tail := Filter(xs[1..], keep);
    if !keep(xs[0]) {
      i', j' := FilterPositions(xs[1..], keep, i, j);
      i', j' := i' + 1, j' + 1;
    } else if i > 0 {
      i', j' := FilterPositions(xs[1..], keep, i - 1, j - 1);
      i', j' := i' + 1, j' + 1;
    } else {
      i' := 0;
      assert tail[j - 1] in tail;
      FilterMember(xs[1..], keep, tail[j - 1]);
      var k :| 0 <= k < |xs[1..]| && xs[1..][k] == tail[j - 1];
      j' := k + 1;
    }
  }

  lemma {:induction false} FilterAppend<T>(xs: seq<T>, keep: T -> bool, x: T)
    ensures Filter(xs + [x], keep) == Filter(xs, keep) + (if keep(x) then [x] else [])
  {
    if xs == [] {
      assert xs + [x] == [x];
    } else {
      FilterAppend(xs[1..], keep, x);
      assert (xs + [x])[1..] == xs[1..] + [x];
    }
  }

  /** The first position whose element satisfies the test: `firstIndex(where:)`. */
  function FirstIndex<T>(xs: seq<T>, test: T -> bool): (r: Option<nat>)
    ensures r.Some? ==> r.value < |xs| && test(xs[r.value])
    ensures r.Some? ==> forall i :: 0 <= i < r.value ==> !test(xs[i])
    ensures r.None? ==> forall i :: 0 <= i < |xs| ==> !test(xs[i])
  {
    if xs == [] then None
    else if test(xs[0]) then Some(0)
    else
      match FirstIndex(xs[1..], test)
      case None =>
        assert forall i :: 1 <= i < |xs| ==> xs[i] == xs[1..][i - 1];
        None
      case Some(i) =>
        assert forall j :: 1 <= j < |xs| ==> xs[j] == xs[1..][j - 1];
        Some(i + 1)
  }
}
