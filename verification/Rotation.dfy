/**
 * The ordering of keys by which the outbox rotates between account scopes and
 * between endpoints: distinct keys in ascending order, the successor of the
 * last key used, wrapping around, or the first key when the last one is gone.
 */
module Rotation {
  import opened Common

  // ----- Lexicographic order of strings

  predicate Less(a: string, b: string) {
    if b == "" then false
    else if a == "" then true
    else a[0] < b[0] || (a[0] == b[0] && Less(a[1..], b[1..]))
  }

  lemma {:induction false} LessTotal(a: string, b: string)
    ensures !Less(a, a)
    ensures !(Less(a, b) && Less(b, a))
    ensures a != b ==> Less(a, b) || Less(b, a)
  {
    if a != "" && b != "" {
      LessTotal(a[1..], b[1..]);
      assert a == [a[0]] + a[1..] && b == [b[0]] + b[1..];
    } else if a != "" {
      LessTotal(a[1..], a[1..]);
    }
  }

  lemma {:induction false} LessTransitive(a: string, b: string, c: string)
    requires Less(a, b) && Less(b, c)
    ensures Less(a, c)
  {
    if a != "" && a[0] == b[0] && b[0] == c[0] {
      LessTransitive(a[1..], b[1..], c[1..]);
    }
  }

  // ----- Distinct keys in ascending order

  ghost predicate Ascending(keys: seq<string>) {
    forall i, j :: 0 <= i < j < |keys| ==> Less(keys[i], keys[j])
  }

  function Insert(key: string, keys: seq<string>): (r: seq<string>) {
    if keys == [] then [key]
    else if key == keys[0] then keys
    else if Less(key, keys[0]) then [key] + keys
    else [keys[0]] + Insert(key, keys[1..])
  }

  /** `Array(Set(keys)).sorted()`. */
  function SortedDistinct(keys: seq<string>): (r: seq<string>) {
    if keys == [] then [] else Insert(keys[0], SortedDistinct(keys[1..]))
  }

  lemma {:induction false} InsertAscending(key: string, keys: seq<string>)
    requires Ascending(keys)
    ensures Ascending(Insert(key, keys))
    ensures forall x :: x in Insert(key, keys) <==> x == key || x in keys
  {
    if keys != [] && key != keys[0] {
      LessTotal(key, keys[0]);
      if Less(key, keys[0]) {
        forall j | 1 <= j < |keys|
          ensures Less(key, keys[j])
        {
          LessTransitive(key, keys[0], keys[j]);
        }
      } else {
        InsertAscending(key, keys[1..]);
        var tail := Insert(key, keys[1..]);
        assert keys == [keys[0]] + keys[1..];
        forall j | 0 <= j < |tail|
          ensures Less(keys[0], tail[j])
        {
          assert tail[j] in tail;
        }
      }
    }
  }

  lemma {:induction false} SortedDistinctIsSorted(keys: seq<string>)
    ensures Ascending(SortedDistinct(keys))
    ensures forall x :: x in SortedDistinct(keys) <==> x in keys
  {
    if keys != [] {
      SortedDistinctIsSorted(keys[1..]);
      InsertAscending(keys[0], SortedDistinct(keys[1..]));
      assert keys == [keys[0]] + keys[1..];
    }
  }

  /** The ascending order depends on the set of keys only, not on how it was collected. */
  lemma {:induction false} AscendingIsUnique(a: seq<string>, b: seq<string>)
    requires Ascending(a) && Ascending(b)
    requires forall x :: x in a <==> x in b
    ensures a == b
  {
    if a == [] {
      assert forall i :: 0 <= i < |b| ==> b[i] in b;
    } else {
      assert a[0] in a && a[0] in b;
      assert b[0] in b && b[0] in a;
      LessTotal(a[0], b[0]);
      assert a[0] == b[0];
      assert a == [a[0]] + a[1..] && b == [b[0]] + b[1..];
      LessTotal(a[0], a[0]);
      assert a[0] !in a[1..] && b[0] !in b[1..];
      forall x
        ensures x in a[1..] <==> x in b[1..]
      {
        assert x in a <==> x == a[0] || x in a[1..];
        assert x in b <==> x == b[0] || x in b[1..];
      }
      AscendingIsUnique(a[1..], b[1..]);
    }
  }

  // ----- The cursor

  /** `firstIndex(of:)`. */
  function IndexOf(keys: seq<string>, key: string): (r: Option<nat>)
    ensures r.Some? <==> key in keys
    ensures r.Some? ==> r.value < |keys| && keys[r.value] == key
  {
    if keys == [] then None
    else if keys[0] == key then Some(0)
    else
      match IndexOf(keys[1..], key)
      case None => None
      case Some(i) => Some(i + 1)
  }

  /** `(start + k) % n`, for a position `start` and at most one round further. */
  function Wrap(start: nat, k: nat, n: nat): (r: nat)
    requires start < n && k <= n
    ensures r < n
  {
    if start + k < n then start + k else start + k - n
  }

  function NextIndex(keys: seq<string>, last: Option<string>): (r: nat)
    requires keys != []
    ensures r < |keys|
  {
    if last.None? then 0
    else
      match IndexOf(keys, last.value)
      case None => 0
      case Some(i) => Wrap(i, 1, |keys|)
  }

  /** The key after `last` in ascending order, wrapping around; the least key when `last` is absent. */
  function NextKey(keys: seq<string>, last: Option<string>): (r: string)
    requires keys != []
  {
    var ordered := SortedDistinct(keys);
    SortedDistinctIsSorted(keys);
    assert keys[0] in ordered;
    ordered[NextIndex(ordered, last)]
  }

  // ----- Fairness

  /** The keys chosen by `n` consecutive rotations, each starting at the key chosen before. */
  function Chosen(keys: seq<string>, last: Option<string>, n: nat): (r: seq<string>)
    requires keys != []
    ensures |r| == n
    decreases n
  {
    if n == 0 then []
    else
      var key := NextKey(keys, last);
      [key] + Chosen(keys, Some(key), n - 1)
  }

  lemma IndexOfAscending(keys: seq<string>, i: nat)
    requires Ascending(keys) && i < |keys|
    ensures IndexOf(keys, keys[i]) == Some(i)
  {
    var j := IndexOf(keys, keys[i]).value;
    LessTotal(keys[i], keys[i]);
  }

  lemma NextIndexAfter(keys: seq<string>, i: nat)
    requires Ascending(keys) && i < |keys|
    ensures NextIndex(keys, Some(keys[i])) == Wrap(i, 1, |keys|)
  {
    IndexOfAscending(keys, i);
  }

  lemma {:induction false} ChosenAt(keys: seq<string>, last: Option<string>, n: nat, k: nat)
    requires keys != [] && k < n <= |SortedDistinct(keys)|
    ensures var ordered := SortedDistinct(keys);
            Chosen(keys, last, n)[k] == ordered[Wrap(NextIndex(ordered, last), k, |ordered|)]
    decreases n
  {
    hide *;
    var ordered := SortedDistinct(keys);
    var start := NextIndex(ordered, last);
    ChosenCons(keys, last, n);
    if k == 0 {
      WrapTwice(start, 0, |ordered|);
    } else {
      SortedDistinctIsSorted(keys);
      NextIndexAfter(ordered, start);
      ChosenAt(keys, Some(ordered[start]), n - 1, k - 1);
      WrapTwice(start, k, |ordered|);
    }
  }

  lemma ChosenCons(keys: seq<string>, last: Option<string>, n: nat)
    requires keys != [] && n > 0
    ensures |SortedDistinct(keys)| > 0
    ensures var ordered := SortedDistinct(keys);
            var key := ordered[NextIndex(ordered, last)];
            Chosen(keys, last, n) == [key] + Chosen(keys, Some(key), n - 1)
  {
    SortedDistinctIsSorted(keys);
    assert keys[0] in SortedDistinct(keys);
  }

  lemma WrapTwice(start: nat, k: nat, n: nat)
    requires start < n && k <= n
    ensures Wrap(start, 0, n) == start
    ensures k > 0 ==> Wrap(Wrap(start, 1, n), k - 1, n) == Wrap(start, k, n)
  {
  }

  lemma ChosenDistinct(keys: seq<string>, last: Option<string>, j: nat, k: nat)
    requires keys != []
    requires j < |SortedDistinct(keys)| && k < |SortedDistinct(keys)|
    requires Chosen(keys, last, |SortedDistinct(keys)|)[j] == Chosen(keys, last, |SortedDistinct(keys)|)[k]
    ensures j == k
  {
    var ordered := SortedDistinct(keys);
    var n := |ordered|;
    SortedDistinctIsSorted(keys);
    ChosenAt(keys, last, n, j);
    ChosenAt(keys, last, n, k);
    var start := NextIndex(ordered, last);
    IndexOfAscending(ordered, Wrap(start, j, n));
    IndexOfAscending(ordered, Wrap(start, k, n));
  }

  lemma WrapReaches(start: nat, p: nat, n: nat) returns (k: nat)
    requires start < n && p < n
    ensures k < n && Wrap(start, k, n) == p
  {
    k := if start <= p then p - start else p + n - start;
  }

  lemma ChosenCovers(keys: seq<string>, last: Option<string>, key: string) returns (k: nat)
    requires key in keys
    ensures k < |SortedDistinct(keys)| && Chosen(keys, last, |SortedDistinct(keys)|)[k] == key
  {
    hide *;
    var ordered := SortedDistinct(keys);
    SortedDistinctIsSorted(keys);
    var p := IndexOf(ordered, key).value;
    k := WrapReaches(NextIndex(ordered, last), p, |ordered|);
    ChosenAt(keys, last, |ordered|, k);
  }

  /**
   * Over as many consecutive rotations as there are distinct keys, every key is
   * chosen exactly once, whatever the cursor held at the start.
   */
  lemma RotationIsFair(keys: seq<string>, last: Option<string>, key: string)
    requires key in keys
    ensures var round := Chosen(keys, last, |SortedDistinct(keys)|);
            && (exists k :: 0 <= k < |round| && round[k] == key)
            && (forall j, k :: 0 <= j < |round| && 0 <= k < |round| && round[j] == round[k] ==> j == k)
  {
    var round := Chosen(keys, last, |SortedDistinct(keys)|);
    var k := ChosenCovers(keys, last, key);
    assert round[k] == key;
    forall j, k | 0 <= j < |round| && 0 <= k < |round| && round[j] == round[k]
      ensures j == k
    {
      ChosenDistinct(keys, last, j, k);
    }
  }

  /** The rotation depends only on which keys are present. */
  lemma NextKeyExtensional(a: seq<string>, b: seq<string>, last: Option<string>)
    requires a != [] && b != []
    requires forall x :: x in a <==> x in b
    ensures SortedDistinct(a) == SortedDistinct(b)
    ensures NextKey(a, last) == NextKey(b, last)
  {
    SortedDistinctIsSorted(a);
    SortedDistinctIsSorted(b);
    AscendingIsUnique(SortedDistinct(a), SortedDistinct(b));
  }

  lemma NextKeyIn(keys: seq<string>, last: Option<string>)
    requires keys != []
    ensures NextKey(keys, last) in keys
  {
    SortedDistinctIsSorted(keys);
  }
}
