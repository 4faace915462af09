/** The overdue peers of an accepted item: who they are, their order and their new schedule. */
module OutboxPeers {
  import opened Common
  import opened OutboxTypes
  import opened OutboxRescheduling

  predicate Overdue(item: Item, excluded: string, height: U64) {
    item.itemId != excluded && item.status == Armed && item.scheduledHeight <= height
  }

  /** Positions of the overdue peers, in storage order. */
  function OverdueFrom(items: seq<Item>, excluded: string, height: U64, from: nat): (r: seq<nat>)
    requires from <= |items|
    ensures forall j :: 0 <= j < |r| ==> from <= r[j] < |items| && Overdue(items[r[j]], excluded, height)
    ensures forall i, j :: 0 <= i < j < |r| ==> r[i] < r[j]
    decreases |items| - from
  {
    if from == |items| then []
    else if Overdue(items[from], excluded, height) then
      [from] + OverdueFrom(items, excluded, height, from + 1)
    else OverdueFrom(items, excluded, height, from + 1)
  }

  function OverduePeers(items: seq<Item>, excluded: string, height: U64): (r: seq<nat>)
    ensures forall j :: 0 <= j < |r| ==> r[j] < |items| && Overdue(items[r[j]], excluded, height)
    ensures forall i, j :: 0 <= i < j < |r| ==> r[i] < r[j]
  {
    OverdueFrom(items, excluded, height, 0)
  }

  predicate Positions(order: seq<nat>, items: seq<Item>) {
    forall j :: 0 <= j < |order| ==> order[j] < |items|
  }

  function Expiries(items: seq<Item>, order: seq<nat>): (r: seq<U64>)
    requires Positions(order, items)
    ensures |r| == |order|
    ensures forall j :: 0 <= j < |r| ==> r[j] == items[order[j]].expiryHeight
  {
    seq(|order|, j requires 0 <= j < |order| => items[order[j]].expiryHeight)
  }

  // ----- Sorting

  function InsertHeight(h: U64, hs: seq<U64>): (r: seq<U64>) {
    if hs == [] || h < hs[0] then [h] + hs else [hs[0]] + InsertHeight(h, hs[1..])
  }

  /** `sorted()`. */
  function SortHeights(hs: seq<U64>): (r: seq<U64>) {
    if hs == [] then [] else InsertHeight(hs[0], SortHeights(hs[1..]))
  }

  function InsertByExpiry(items: seq<Item>, k: nat, order: seq<nat>): (r: seq<nat>)
    requires k < |items| && Positions(order, items)
    ensures Positions(r, items) && |r| == |order| + 1
  {
    if order == [] || items[k].expiryHeight < items[order[0]].expiryHeight then [k] + order
    else [order[0]] + InsertByExpiry(items, k, order[1..])
  }

  /** `sort { $0.expiryHeight < $1.expiryHeight }` on positions. */
  function SortByExpiry(items: seq<Item>, order: seq<nat>): (r: seq<nat>)
    requires Positions(order, items)
    ensures Positions(r, items) && |r| == |order|
  {
    if order == [] then [] else InsertByExpiry(items, order[0], SortByExpiry(items, order[1..]))
  }

  lemma {:induction false} InsertHeightBag(h: U64, hs: seq<U64>)
    ensures multiset(InsertHeight(h, hs)) == multiset{h} + multiset(hs)
  {
    if hs != [] && hs[0] <= h {
      InsertHeightBag(h, hs[1..]);
      assert hs == [hs[0]] + hs[1..];
    }
  }

  lemma {:induction false} InsertHeightSorted(h: U64, hs: seq<U64>)
    requires SortedHeights(hs)
    ensures SortedHeights(InsertHeight(h, hs))
    ensures forall j :: 0 <= j < |InsertHeight(h, hs)| ==> InsertHeight(h, hs)[j] == h || InsertHeight(h, hs)[j] in hs
  {
    if hs != [] && hs[0] <= h {
      InsertHeightSorted(h, hs[1..]);
    }
  }

  lemma {:induction false} SortHeightsSorted(hs: seq<U64>)
    ensures SortedHeights(SortHeights(hs))
    ensures multiset(SortHeights(hs)) == multiset(hs)
  {
    if hs != [] {
      SortHeightsSorted(hs[1..]);
      InsertHeightSorted(hs[0], SortHeights(hs[1..]));
      InsertHeightBag(hs[0], SortHeights(hs[1..]));
      assert hs == [hs[0]] + hs[1..];
    }
  }

  lemma {:induction false} InsertByExpiryExpiries(items: seq<Item>, k: nat, order: seq<nat>)
    requires k < |items| && Positions(order, items)
    ensures Expiries(items, InsertByExpiry(items, k, order))
            == InsertHeight(items[k].expiryHeight, Expiries(items, order))
    ensures multiset(InsertByExpiry(items, k, order)) == multiset{k} + multiset(order)
  {
    var e := Expiries(items, order);
    if order != [] && items[order[0]].expiryHeight <= items[k].expiryHeight {
      InsertByExpiryExpiries(items, k, order[1..]);
      assert e[1..] == Expiries(items, order[1..]);
      var rest := InsertByExpiry(items, k, order[1..]);
      ExpiriesCons(items, order[0], rest);
      assert order == [order[0]] + order[1..];
    } else {
      ExpiriesCons(items, k, order);
    }
  }

  lemma ExpiriesCons(items: seq<Item>, k: nat, order: seq<nat>)
    requires k < |items| && Positions(order, items)
    ensures Positions([k] + order, items) && Expiries(items, [k] + order) == [items[k].expiryHeight]
            + Expiries(items, order)
  {
  }

  /** Sorting positions by expiry sorts the expiries. */
  lemma {:induction false} SortByExpiryExpiries(items: seq<Item>, order: seq<nat>)
    requires Positions(order, items)
    ensures Expiries(items, SortByExpiry(items, order)) == SortHeights(Expiries(items, order))
    ensures multiset(SortByExpiry(items, order)) == multiset(order)
  {
    hide InsertByExpiry, InsertHeight;
    if order != [] {
      SortByExpiryExpiries(items, order[1..]);
      InsertByExpiryExpiries(items, order[0], SortByExpiry(items, order[1..]));
      assert Expiries(items, order)[1..] == Expiries(items, order[1..]);
      assert order == [order[0]] + order[1..];
    }
  }

  lemma TailBag<T>(a: seq<T>)
    requires a != []
    ensures multiset(a[1..]) == multiset(a) - multiset{a[0]}
  {
    assert a == [a[0]] + a[1..];
  }

  lemma SameBagSameLength<T>(a: seq<T>, b: seq<T>)
    requires multiset(a) == multiset(b)
    ensures |a| == |b|
    ensures forall x :: x in a <==> x in b
  {
    assert |a| == |multiset(a)| && |b| == |multiset(b)|;
    forall x
      ensures x in a <==> x in b
    {
      assert x in a <==> x in multiset(a);
      assert x in b <==> x in multiset(b);
    }
  }

  lemma {:induction false} SortedIsUnique(a: seq<U64>, b: seq<U64>)
    requires SortedHeights(a) && SortedHeights(b)
    requires multiset(a) == multiset(b)
    ensures a == b
  {
    SameBagSameLength(a, b);
    if a != [] {
      assert a[0] in b && b[0] in a;
      assert a[0] == b[0];
      TailBag(a);
      TailBag(b);
      SortedIsUnique(a[1..], b[1..]);
      assert a == [a[0]] + a[1..] && b == [b[0]] + b[1..];
    }
  }

  lemma RemoveBag<T>(b: seq<T>, j: nat)
    requires j < |b|
    ensures multiset(b[..j] + b[j + 1..]) == multiset(b) - multiset{b[j]}
  {
    assert b == b[..j] + [b[j]] + b[j + 1..];
  }

  lemma ExpiriesWithout(items: seq<Item>, b: seq<nat>, j: nat)
    requires j < |b| && Positions(b, items)
    ensures Positions(b[..j] + b[j + 1..], items)
    ensures multiset(Expiries(items, b))
            == multiset{items[b[j]].expiryHeight} + multiset(Expiries(items, b[..j] + b[j + 1..]))
  {
    var e := Expiries(items, b);
    assert Expiries(items, b[..j] + b[j + 1..]) == e[..j] + e[j + 1..];
    RemoveBag(e, j);
    assert e[j] in multiset(e);
  }

  /** Equal bags of positions have equal bags of expiries. */
  lemma {:induction false} ExpiriesOfPermutation(items: seq<Item>, a: seq<nat>, b: seq<nat>)
    requires Positions(a, items) && Positions(b, items)
    requires multiset(a) == multiset(b)
    ensures multiset(Expiries(items, a)) == multiset(Expiries(items, b))
  {
    SameBagSameLength(a, b);
    if a != [] {
      assert a[0] in b;
      var j :| 0 <= j < |b| && b[j] == a[0];
      TailBag(a);
      RemoveBag(b, j);
      ExpiriesWithout(items, b, j);
      ExpiriesWithout(items, a, 0);
      assert a[..0] + a[1..] == a[1..];
      ExpiriesOfPermutation(items, a[1..], b[..j] + b[j + 1..]);
    }
  }

  // ----- The new schedule

  /** The expiries of the overdue peers in ascending order. */
  function PeerExpiries(items: seq<Item>, excluded: string, height: U64): (r: seq<U64>) {
    SortHeights(Expiries(items, OverduePeers(items, excluded, height)))
  }

  /** `replacingSchedule`: the record is rebuilt by its initializer, then its delivery state is copied over. */
  function ReplacingSchedule(item: Item, scheduledHeight: U64, scheduleStartHeight: U64): (r: Item) {
    NewItem(item.itemId, item.partIndex, item.txid, item.raw, item.anchorHeight,
            scheduledHeight, scheduleStartHeight, item.expiryHeight)
    .(status := item.status, attemptCount := item.attemptCount,
      nextAttemptAt := item.nextAttemptAt, lastError := item.lastError)
  }

  function ApplyPlan(items: seq<Item>, order: seq<nat>, plan: seq<U64>, height: U64): (r: seq<Item>)
    requires Positions(order, items) && |plan| == |order|
    ensures |r| == |items|
    decreases |order|
  {
    if order == [] then items
    else
      var k := order[0];
      ApplyPlan(items[k := ReplacingSchedule(items[k], plan[0], height)], order[1..], plan[1..], height)
  }

  function Updates(items: seq<Item>, order: seq<nat>, plan: seq<U64>, height: U64): (r: seq<ScheduleUpdate>)
    requires Positions(order, items) && |plan| == |order|
  {
    seq(|order|, j requires 0 <= j < |order| => ScheduleUpdate(items[order[j]].itemId, plan[j], height))
  }

  datatype Rescheduled = Rescheduled(items: seq<Item>, updates: seq<ScheduleUpdate>)

  /** The shuffle of the overdue peers is some permutation, with one draw at hand for each. */
  predicate Shuffles(random: Randomness, items: seq<Item>, excluded: string, height: U64) {
    && Positions(random.shuffled, items)
    && multiset(random.shuffled) == multiset(OverduePeers(items, excluded, height))
    && |random.draws| >= |random.shuffled|
  }

  /** `rescheduleOverdueItems` on the items of one batch with a valid cadence. */
  function Reschedule(items: seq<Item>, excluded: string, height: U64, maxBlocks: U64, random: Randomness)
    : (r: Option<Rescheduled>)
    requires maxBlocks > 0
    requires Shuffles(random, items, excluded, height)
  {
    var order := SortByExpiry(items, random.shuffled);
    match Plan(Expiries(items, order), height, maxBlocks, random.draws, 0)
    case None => None
    case Some(plan) => Some(Rescheduled(ApplyPlan(items, order, plan, height), Updates(items, order, plan, height)))
  }

  lemma SortedExpiriesOfShuffle(items: seq<Item>, excluded: string, height: U64, random: Randomness)
    requires Shuffles(random, items, excluded, height)
    ensures Positions(SortByExpiry(items, random.shuffled), items)
    ensures multiset(SortByExpiry(items, random.shuffled)) == multiset(OverduePeers(items, excluded, height))
    ensures Expiries(items, SortByExpiry(items, random.shuffled)) == PeerExpiries(items, excluded, height)
    ensures SortedHeights(PeerExpiries(items, excluded, height))
  {
    var peers := OverduePeers(items, excluded, height);
    SortByExpiryExpiries(items, random.shuffled);
    ExpiriesOfPermutation(items, random.shuffled, peers);
    SortHeightsSorted(Expiries(items, random.shuffled));
    SortHeightsSorted(Expiries(items, peers));
    SortedIsUnique(SortHeights(Expiries(items, random.shuffled)), SortHeights(Expiries(items, peers)));
  }

  /**
   * Success does not depend on the shuffle or on the delays: the peers are
   * rescheduled under every randomness when they all fit before the least
   * expiry, and under none otherwise.
   */
  lemma RescheduleExact(items: seq<Item>, excluded: string, height: U64, maxBlocks: U64, random: Randomness)
    requires maxBlocks > 0
    requires Shuffles(random, items, excluded, height)
    ensures Reschedule(items, excluded, height, maxBlocks, random).Some?
            <==> Fits(PeerExpiries(items, excluded, height), height)
  {
    SortedExpiriesOfShuffle(items, excluded, height, random);
    var expiries := PeerExpiries(items, excluded, height);
    ReschedulingSucceedsExactly(expiries, height, maxBlocks, random.draws);
  }

  lemma {:induction false} ApplyPlanAt(items: seq<Item>, order: seq<nat>, plan: seq<U64>, height: U64, k: nat)
    requires Positions(order, items) && |plan| == |order|
    requires forall i, j :: 0 <= i < j < |order| ==> order[i] != order[j]
    requires k < |items|
    ensures k !in order ==> ApplyPlan(items, order, plan, height)[k] == items[k]
    ensures forall j :: 0 <= j < |order| && order[j] == k ==>
              ApplyPlan(items, order, plan, height)[k] == ReplacingSchedule(items[k], plan[j], height)
    decreases |order|
  {
    if order != [] {
      var first := order[0];
      var items' := items[first := ReplacingSchedule(items[first], plan[0], height)];
      ApplyPlanAt(items', order[1..], plan[1..], height, k);
      assert order == [first] + order[1..];
      if k == first {
        assert first !in order[1..];
      } else {
        assert forall j :: 1 <= j < |order| ==> order[j] == order[1..][j - 1] && plan[j] == plan[1..][j - 1];
      }
    }
  }

  /**
   * What rescheduling does to each record: an overdue peer moves strictly
   * between the observed height and its own expiry, every other record stays.
   */
  ghost predicate RescheduledItem(before: Item, after: Item, excluded: string, height: U64) {
    if Overdue(before, excluded, height) then
      exists h: U64 :: height < h < before.expiryHeight && after == ReplacingSchedule(before, h, height)
    else after == before
  }

  lemma {:induction false} OverdueFromComplete(items: seq<Item>, excluded: string, height: U64, from: nat, k: nat)
    requires from <= k < |items| && Overdue(items[k], excluded, height)
    ensures k in OverdueFrom(items, excluded, height, from)
    decreases |items| - from
  {
    if from < k {
      OverdueFromComplete(items, excluded, height, from + 1, k);
    }
  }

  lemma RescheduledOrder(items: seq<Item>, excluded: string, height: U64, random: Randomness)
    requires Shuffles(random, items, excluded, height)
    ensures var order := SortByExpiry(items, random.shuffled);
            && Positions(order, items)
            && (forall i, j :: 0 <= i < j < |order| ==> order[i] != order[j])
            && (forall k :: 0 <= k < |items| ==> (k in order <==> Overdue(items[k], excluded, height)))
  {
    SortedExpiriesOfShuffle(items, excluded, height, random);
    var peers := OverduePeers(items, excluded, height);
    var order := SortByExpiry(items, random.shuffled);
    hide SortByExpiry, PeerExpiries, SortHeights, Expiries, Shuffles, SortedHeights;
    SameBagSameLength(order, peers);
    DistinctOrder(order, peers);
    forall k | 0 <= k < |items|
      ensures k in order <==> Overdue(items[k], excluded, height)
    {
      if Overdue(items[k], excluded, height) {
        OverdueFromComplete(items, excluded, height, 0, k);
      }
    }
  }

  /** A rearrangement of distinct positions has distinct positions. */
  lemma DistinctOrder(order: seq<nat>, peers: seq<nat>)
    requires multiset(order) == multiset(peers)
    requires forall i, j :: 0 <= i < j < |peers| ==> peers[i] < peers[j]
    ensures forall i, j :: 0 <= i < j < |order| ==> order[i] != order[j]
  {
    forall i, j | 0 <= i < j < |order|
      ensures order[i] != order[j]
    {
      if order[i] == order[j] {
        DuplicateCount(order, i, j);
        AscendingCount(peers, order[i]);
      }
    }
  }

  lemma DuplicateCount(xs: seq<nat>, i: nat, j: nat)
    requires i < j < |xs| && xs[i] == xs[j]
    ensures multiset(xs)[xs[i]] >= 2
  {
    assert xs == xs[..i] + [xs[i]] + xs[i + 1..j] + [xs[j]] + xs[j + 1..];
  }

  lemma {:induction false} AscendingCount(xs: seq<nat>, x: nat)
    requires forall i, j :: 0 <= i < j < |xs| ==> xs[i] < xs[j]
    ensures multiset(xs)[x] <= 1
  {
    if xs != [] {
      AscendingCount(xs[1..], x);
      assert xs == [xs[0]] + xs[1..];
      if x == xs[0] {
        assert x !in xs[1..];
      }
    }
  }

  /** The plan behind a successful rescheduling, peer by peer. */
  lemma ReschedulePlan(items: seq<Item>, excluded: string, height: U64, maxBlocks: U64, random: Randomness)
    returns (order: seq<nat>, plan: seq<U64>)
    requires maxBlocks > 0
    requires Shuffles(random, items, excluded, height)
    requires Reschedule(items, excluded, height, maxBlocks, random).Some?
    ensures Positions(order, items) && |plan| == |order|
    ensures forall i, j :: 0 <= i < j < |order| ==> order[i] != order[j]
    ensures forall k :: 0 <= k < |items| ==> (k in order <==> Overdue(items[k], excluded, height))
    ensures GoodPlan(Expiries(items, order), height, maxBlocks, plan)
    ensures SortedHeights(Expiries(items, order))
    ensures Reschedule(items, excluded, height, maxBlocks, random).value
            == Rescheduled(ApplyPlan(items, order, plan, height), Updates(items, order, plan, height))
  {
    order := SortByExpiry(items, random.shuffled);
    RescheduledOrder(items, excluded, height, random);
    SortedExpiriesOfShuffle(items, excluded, height, random);
    ReschedulingSucceedsExactly(Expiries(items, order), height, maxBlocks, random.draws);
    plan := Plan(Expiries(items, order), height, maxBlocks, random.draws, 0).value;
  }

  lemma RescheduleItems(items: seq<Item>, excluded: string, height: U64, maxBlocks: U64, random: Randomness, k: nat)
    requires maxBlocks > 0
    requires Shuffles(random, items, excluded, height)
    requires k < |items|
    ensures var r := Reschedule(items, excluded, height, maxBlocks, random);
            r.Some? ==> |r.value.items| == |items| && RescheduledItem(items[k], r.value.items[k], excluded, height)
  {
    if Reschedule(items, excluded, height, maxBlocks, random).Some? {
      var order, plan := ReschedulePlan(items, excluded, height, maxBlocks, random);
      ApplyPlanAt(items, order, plan, height, k);
      if k in order {
        var j :| 0 <= j < |order| && order[j] == k;
        assert height < plan[j] < Expiries(items, order)[j];
      }
    }
  }

  // ----- The accepted item itself

  lemma {:induction false} OverdueUnchanged(items: seq<Item>, k: nat, item: Item, height: U64, from: nat)
    requires k < |items| && item.itemId == items[k].itemId && from <= |items|
    ensures OverdueFrom(items[k := item], item.itemId, height, from) == OverdueFrom(items, item.itemId, height, from)
    decreases |items| - from
  {
    if from < |items| {
      OverdueUnchanged(items, k, item, height, from + 1);
    }
  }

  lemma {:induction false} InsertUnchanged(items: seq<Item>, k: nat, item: Item, p: nat, order: seq<nat>)
    requires k < |items| && item.expiryHeight == items[k].expiryHeight && p < |items| && Positions(order, items)
    ensures InsertByExpiry(items[k := item], p, order) == InsertByExpiry(items, p, order)
  {
    if order != [] && items[order[0]].expiryHeight <= items[p].expiryHeight {
      InsertUnchanged(items, k, item, p, order[1..]);
    }
  }

  lemma {:induction false} SortUnchanged(items: seq<Item>, k: nat, item: Item, order: seq<nat>)
    requires k < |items| && item.expiryHeight == items[k].expiryHeight && Positions(order, items)
    ensures SortByExpiry(items[k := item], order) == SortByExpiry(items, order)
  {
    if order != [] {
      SortUnchanged(items, k, item, order[1..]);
      InsertUnchanged(items, k, item, order[0], SortByExpiry(items, order[1..]));
    }
  }

  lemma {:induction false} ApplyAround(items: seq<Item>, k: nat, item: Item, order: seq<nat>, plan: seq<U64>,
                                       height: U64)
    requires k < |items| && Positions(order, items) && |plan| == |order| && k !in order
    ensures ApplyPlan(items[k := item], order, plan, height) == ApplyPlan(items, order, plan, height)[k := item]
    decreases |order|
  {
    if order != [] {
      var p := order[0];
      var moved := ReplacingSchedule(items[p], plan[0], height);
      assert p != k && items[k := item][p := moved] == items[p := moved][k := item];
      ApplyAround(items[p := moved], k, item, order[1..], plan[1..], height);
    }
  }

  /** Rescheduling the peers and marking the accepted item may be done in either order. */
  lemma RescheduleAround(items: seq<Item>, k: nat, item: Item, height: U64, maxBlocks: U64, random: Randomness)
    requires maxBlocks > 0 && k < |items|
    requires item.itemId == items[k].itemId && item.expiryHeight == items[k].expiryHeight
    requires Shuffles(random, items, item.itemId, height)
    ensures Shuffles(random, items[k := item], item.itemId, height)
    ensures var before := Reschedule(items, item.itemId, height, maxBlocks, random);
            var after := Reschedule(items[k := item], item.itemId, height, maxBlocks, random);
            && (after.Some? <==> before.Some?)
            && (before.Some? ==> |before.value.items| == |items|)
            && (before.Some? ==> after.value == before.value.(items := before.value.items[k := item]))
  {
    OverdueUnchanged(items, k, item, height, 0);
    SortUnchanged(items, k, item, random.shuffled);
    RescheduledOrder(items, item.itemId, height, random);
    var order := SortByExpiry(items, random.shuffled);
    assert !Overdue(items[k], item.itemId, height) && k !in order;
    hide SortByExpiry, OverdueFrom, Plan;
    assert Expiries(items[k := item], order) == Expiries(items, order);
    var plan := Plan(Expiries(items, order), height, maxBlocks, random.draws, 0);
    if plan.Some? {
      ApplyAround(items, k, item, order, plan.value, height);
      assert Updates(items[k := item], order, plan.value, height) == Updates(items, order, plan.value, height);
    }
  }
}
