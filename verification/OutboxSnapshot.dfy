/**
 * The outbox snapshot as the app keeps it in memory during one update: a record
 * whose fields are changed in place. Each method is proved against the function
 * of the stored state that the rest of the model reasons about. When a method
 * reports an error the snapshot may be half changed; the store then drops it.
 */
module OutboxSnapshot {
  import opened Common
  import opened Sequences
  import opened Rotation
  import opened OutboxTypes
  import opened OutboxRescheduling
  import opened OutboxPeers
  import Ops = OutboxOps

  // ----- How the loops build up what the functions say

  function Joined(a: Option<seq<Item>>, b: Option<seq<Item>>): Option<seq<Item>> {
    if a.Some? && b.Some? then Some(a.value + b.value) else None
  }

  lemma JoinedAssociative(a: seq<Item>, b: Option<seq<Item>>, c: Option<seq<Item>>)
    ensures Joined(Joined(Some(a), b), c) == Joined(Some(a), Joined(b, c))
    ensures Joined(Some([]), b) == b
  {
    if b.Some? {
      assert [] + b.value == b.value;
      if c.Some? {
        assert (a + b.value) + c.value == a + (b.value + c.value);
      }
    }
  }

  /** What one incoming item adds. */
  function NewItem(existing: seq<Item>, item: Item): Option<seq<Item>> {
    match Ops.FindItem(existing, item.itemId)
    case Some(k) => if Ops.SameTransaction(existing[k], item) then Some([]) else None
    case None => if Ops.Clashes(existing, item) then None else Some([item])
  }

  lemma NewItemsCons(existing: seq<Item>, incoming: seq<Item>)
    requires incoming != []
    ensures Ops.NewItems(existing, incoming) == Joined(NewItem(existing, incoming[0]),
                                                       Ops.NewItems(existing, incoming[1..]))
  {
    JoinedAssociative([], Ops.NewItems(existing, incoming[1..]), None);
  }

  lemma {:induction false} NewItemsSnoc(existing: seq<Item>, incoming: seq<Item>, item: Item)
    ensures Ops.NewItems(existing, incoming + [item]) == Joined(Ops.NewItems(existing, incoming),
                                                                NewItem(existing, item))
  {
    NewItemsCons(existing, incoming + [item]);
    if incoming == [] {
      assert incoming + [item] == [item];
      assert NewItem(existing, item).Some? ==> NewItem(existing, item).value + [] == NewItem(existing, item).value;
      JoinedAssociative([], NewItem(existing, item), None);
    } else {
      NewItemsCons(existing, incoming);
      NewItemsSnoc(existing, incoming[1..], item);
      assert (incoming + [item])[1..] == incoming[1..] + [item];
      var first := NewItem(existing, incoming[0]);
      if first.Some? {
        JoinedAssociative(first.value, Ops.NewItems(existing, incoming[1..]), NewItem(existing, item));
      }
    }
  }

  lemma {:induction false} NewItemsPrefix(existing: seq<Item>, incoming: seq<Item>, n: nat)
    requires n <= |incoming| && Ops.NewItems(existing, incoming[..n]).None?
    ensures Ops.NewItems(existing, incoming).None?
    decreases |incoming| - n
  {
    if n == |incoming| {
      assert incoming[..n] == incoming;
    } else {
      NewItemsSnoc(existing, incoming[..n], incoming[n]);
      assert incoming[..n + 1] == incoming[..n] + [incoming[n]];
      NewItemsPrefix(existing, incoming, n + 1);
    }
  }

  function Unspent(): Batch -> bool {
    (b: Batch) => !Ops.Spent(b)
  }

  function WithAdded(batches: seq<Batch>, i: nat, existing: Batch, added: seq<Item>): seq<Batch>
    requires i < |batches|
  {
    batches[i := batches[i].(items := existing.items + added)]
  }

  lemma AddNothing(batches: seq<Batch>, i: nat, existing: Batch, items: seq<Item>)
    requires i < |batches| && batches[i].items == existing.items
    ensures WithAdded(batches, i, existing, []) == batches && Ops.NewItems(existing.items, items[..0]) == Some([])
  {
    assert existing.items + [] == existing.items;
  }

  lemma AddOne(batches: seq<Batch>, i: nat, existing: Batch, added: seq<Item>, item: Item)
    requires i < |batches|
    ensures var now := WithAdded(batches, i, existing, added);
            now[i := now[i].(items := now[i].items + [item])] == WithAdded(batches, i, existing, added + [item])
  {
    assert (existing.items + added) + [item] == existing.items + (added + [item]);
  }

  /** One more incoming item: a contradiction ends it, a stored item adds nothing, a new one is added. */
  lemma AddNext(existing: seq<Item>, items: seq<Item>, n: nat, added: seq<Item>)
    requires n < |items| && Ops.NewItems(existing, items[..n]) == Some(added)
    ensures match NewItem(existing, items[n])
            case None => Ops.NewItems(existing, items).None?
            case Some(more) => Ops.NewItems(existing, items[..n + 1]) == Some(added + more) && added + [] == added
  {
    hide Ops.NewItems, Ops.SameTransaction, Ops.Clashes;
    NewItemsSnoc(existing, items[..n], items[n]);
    assert items[..n + 1] == items[..n] + [items[n]];
    if NewItem(existing, items[n]).None? {
      NewItemsPrefix(existing, items, n + 1);
    }
  }

  /** Removing batches, then items, then spent batches is one pruning pass. */
  lemma {:induction false} PruneInPasses(batches: seq<Batch>, ended: set<string>, itemIds: set<string>,
                                         stripped: seq<Batch>,
                                            drop: Batch -> bool)
    requires forall b :: drop(b) <==> b.batchId in ended || Ops.Spent(Ops.WithoutItems(b, itemIds))
    requires var left := Filter(batches, Ops.OutsideBatches(ended));
             |stripped| == |left| && forall i :: 0 <= i < |left| ==> stripped[i] == Ops.WithoutItems(left[i], itemIds)
    ensures Filter(stripped, Unspent()) == Ops.PruneBatches(batches, itemIds, drop)
  {
    hide Ops.WithoutItems, Ops.Spent;
    if batches != [] {
      var left := Filter(batches, Ops.OutsideBatches(ended));
      var rest := Filter(batches[1..], Ops.OutsideBatches(ended));
      if batches[0].batchId in ended {
        assert left == rest;
        PruneInPasses(batches[1..], ended, itemIds, stripped, drop);
      } else {
        assert left == [batches[0]] + rest;
        assert stripped[0] == Ops.WithoutItems(batches[0], itemIds);
        forall i | 0 <= i < |rest|
          ensures stripped[1..][i] == Ops.WithoutItems(rest[i], itemIds)
        {
          assert stripped[1..][i] == stripped[i + 1] && left[i + 1] == rest[i];
        }
        PruneInPasses(batches[1..], ended, itemIds, stripped[1..], drop);
      }
    }
  }

  /** A batch once its first `n` items have been scanned. */
  function RetiredUpTo(why: Ops.Retirement, b: Batch, height: U64, n: nat): (r: Batch)
    requires n <= |b.items|
  {
    if n == 0 then b
    else
      var before := RetiredUpTo(why, b, height, n - 1);
      if Ops.Retires(why, b.items[n - 1], height) && |before.items| == |b.items| then
        before.(items := before.items[n - 1 := b.items[n - 1].(status := StatusOf(Ops.RetirementOutcome(why)))],
                armedAt := None, nextProofHeight := None)
      else before
  }

  lemma {:induction false} RetiredUpToShape(why: Ops.Retirement, b: Batch, height: U64, n: nat)
    requires n <= |b.items|
    ensures var r := RetiredUpTo(why, b, height, n);
            && |r.items| == |b.items|
            && (forall k :: 0 <= k < |b.items| ==> r.items[k] == if k < n then Ops.RetiredItem(why, b.items[k],
                      height) else b.items[k])
            && (if exists k :: 0 <= k < n && Ops.Retires(why, b.items[k], height)
                then r == b.(items := r.items, armedAt := None, nextProofHeight := None)
                else r == b)
  {
    if n > 0 {
      RetiredUpToShape(why, b, height, n - 1);
    }
  }

  lemma RetiredUpToNone(why: Ops.Retirement, b: Batch, height: U64, date: Date, receipts: seq<Receipt>)
    ensures RetiredUpTo(why, b, height, 0) == b
    ensures receipts + Ops.BatchReceipts(why, b, height, date, 0) == receipts
  {
  }

  /** One more item scanned. */
  lemma RetiredUpToNext(why: Ops.Retirement, b: Batch, height: U64, date: Date, n: nat, receipts: seq<Receipt>)
    requires n < |b.items|
    ensures |RetiredUpTo(why, b, height, n).items| == |b.items|
    ensures var before := RetiredUpTo(why, b, height, n);
            RetiredUpTo(why, b, height, n + 1)
            == if !Ops.Retires(why, b.items[n], height) then before
               else before.(items := before.items[n := b.items[n].(status := StatusOf(Ops.RetirementOutcome(why)))],
                            armedAt := None, nextProofHeight := None)
    ensures receipts + Ops.BatchReceipts(why, b, height, date, n + 1)
            == if !Ops.Retires(why, b.items[n], height) then receipts + Ops.BatchReceipts(why, b, height, date, n)
               else receipts + Ops.BatchReceipts(why, b, height, date, n)
                    + [Ops.RetirementReceipt(why, b, b.items[n], height, date)]
  {
    RetiredUpToShape(why, b, height, n);
    hide Ops.RetirementReceipt;
    assert Ops.BatchReceipts(why, b, height, date, n) + [] == Ops.BatchReceipts(why, b, height, date, n);
  }

  lemma RetireNone(s: State, why: Ops.Retirement, height: U64, endpoint: string, date: Date)
    ensures Ops.RetireFirst(s, why, height, endpoint, date, 0) == s
  {
    var t := Ops.RetireFirst(s, why, height, endpoint, date, 0);
    assert t.batches == s.batches && t.receipts == s.receipts;
  }

  /** One more batch scanned. */
  lemma RetireNext(s: State, why: Ops.Retirement, height: U64, endpoint: string, date: Date, i: nat)
    requires i < |s.batches|
    ensures var t := Ops.RetireFirst(s, why, height, endpoint, date, i);
            && |t.batches| == |s.batches| && t.batches[i] == s.batches[i]
            && Ops.RetireFirst(s, why, height, endpoint, date, i + 1)
               == if s.batches[i].url != endpoint then t
                  else t.(batches := t.batches[i := Ops.RetiredBatch(why, s.batches[i], height, endpoint)],
                          receipts := t.receipts
                                      + Ops.BatchReceipts(why, s.batches[i], height, date, |s.batches[i].items|))
  {
    hide Ops.BatchReceipts;
    var t, u := Ops.RetireFirst(s, why, height, endpoint, date, i),
        Ops.RetireFirst(s, why, height, endpoint, date, i + 1);
    var retired := Ops.RetiredBatch(why, s.batches[i], height, endpoint);
    assert s.batches[i].url != endpoint ==> retired == s.batches[i];
    assert u.batches == t.batches[i := retired];
    assert t.batches[i := s.batches[i]] == t.batches;
    var mine := if s.batches[i].url != endpoint then []
                else Ops.BatchReceipts(why, s.batches[i], height, date, |s.batches[i].items|);
    assert u.receipts == t.receipts + mine;
  }

  lemma RetiredUpToEnd(why: Ops.Retirement, b: Batch, height: U64, endpoint: string)
    requires b.url == endpoint
    ensures RetiredUpTo(why, b, height, |b.items|) == Ops.RetiredBatch(why, b, height, endpoint)
  {
    RetiredUpToShape(why, b, height, |b.items|);
    var r := RetiredUpTo(why, b, height, |b.items|);
    if Ops.RetiresAny(why, b, height) {
      assert r.items == Ops.RetiredBatch(why, b, height, endpoint).items;
    }
  }

  /** Placing the peers one after the other, item by item. */
  function Place(items: seq<Item>, order: seq<nat>, height: U64, max: U64, draws: seq<U64>,
                 elapsed: U64): (r: Option<Rescheduled>)
    requires max > 0 && Positions(order, items) && |draws| >= |order|
    decreases |order|
  {
    if order == [] then Some(Rescheduled(items, []))
    else
      var item := items[order[0]];
      match NextElapsed(item.expiryHeight, |order|, height, max, draws[0], elapsed)
      case None => None
      case Some(elapsed') =>
        var scheduled := SaturatingAdd(height, elapsed');
        After([ScheduleUpdate(item.itemId, scheduled, height)],
              Place(items[order[0] := ReplacingSchedule(item, scheduled, height)], order[1..], height, max,
                    draws[1..], elapsed'))
  }

  function After(updates: seq<ScheduleUpdate>, rest: Option<Rescheduled>): Option<Rescheduled> {
    match rest
    case None => None
    case Some(r) => Some(r.(updates := updates + r.updates))
  }

  lemma PlanStep(items: seq<Item>, order: seq<nat>, scheduled: U64, rest: seq<U64>, height: U64)
    requires Positions(order, items) && order != [] && |rest| == |order| - 1
    ensures var items' := items[order[0] := ReplacingSchedule(items[order[0]], scheduled, height)];
            && ApplyPlan(items, order, [scheduled] + rest, height) == ApplyPlan(items', order[1..], rest, height)
            && Updates(items, order, [scheduled] + rest, height)
               == [ScheduleUpdate(items[order[0]].itemId, scheduled, height)]
                  + Updates(items', order[1..], rest, height)
  {
    assert ([scheduled] + rest)[1..] == rest;
  }

  /** The plan of heights, applied to the items, is what the single pass leaves. */
  lemma {:induction false} PlaceIsPlan(items: seq<Item>, order: seq<nat>, height: U64, max: U64, draws: seq<U64>,
                                       elapsed: U64)
    requires max > 0 && Positions(order, items) && |draws| >= |order|
    ensures Place(items, order, height, max, draws, elapsed)
            == match Plan(Expiries(items, order), height, max, draws, elapsed)
               case None => None
               case Some(plan) => Some(Rescheduled(ApplyPlan(items, order, plan, height),
                                                   Updates(items, order, plan, height)))
    decreases |order|
  {
    var expiries := Expiries(items, order);
    if order != [] {
      var item := items[order[0]];
      var next := NextElapsed(item.expiryHeight, |order|, height, max, draws[0], elapsed);
      if next.Some? {
        var scheduled := SaturatingAdd(height, next.value);
        var items' := items[order[0] := ReplacingSchedule(item, scheduled, height)];
        assert Expiries(items', order[1..]) == expiries[1..];
        PlaceIsPlan(items', order[1..], height, max, draws[1..], next.value);
        var rest := Plan(expiries[1..], height, max, draws[1..], next.value);
        if rest.Some? {
          PlanStep(items, order, scheduled, rest.value, height);
        }
      }
    } else {
      assert Updates(items, order, [], height) == [];
    }
  }

  lemma OrderedPeers(items: seq<Item>, excluded: string, height: U64, random: Randomness)
    requires Shuffles(random, items, excluded, height)
    ensures Positions(random.shuffled, items) && |random.draws| >= |random.shuffled|
  {
  }

  lemma PlaceStart(items: seq<Item>, order: seq<nat>, draws: seq<U64>, all: Option<Rescheduled>)
    ensures order[0..] == order && draws[0..] == draws
    ensures After([], all) == all
  {
    assert all.Some? ==> [] + all.value.updates == all.value.updates;
  }

  /** One more peer placed: its update joins the updates so far. */
  lemma PlaceNext(items: seq<Item>, order: seq<nat>, height: U64, max: U64, draws: seq<U64>, elapsed: U64, n: nat,
                  updates: seq<ScheduleUpdate>)
    requires max > 0 && Positions(order, items) && |draws| >= |order| && n < |order|
    ensures var item := items[order[n]];
            var next := NextElapsed(item.expiryHeight, |order| - n, height, max, draws[n], elapsed);
            var all := After(updates, Place(items, order[n..], height, max, draws[n..], elapsed));
            match next
            case None => all == None
            case Some(elapsed') =>
              var scheduled := SaturatingAdd(height, elapsed');
              all == After(updates + [ScheduleUpdate(item.itemId, scheduled, height)],
                           Place(items[order[n] := ReplacingSchedule(item, scheduled, height)], order[n + 1..],
                                 height, max,
                                 draws[n + 1..], elapsed'))
  {
    var item := items[order[n]];
    var next := NextElapsed(item.expiryHeight, |order| - n, height, max, draws[n], elapsed);
    assert order[n..][1..] == order[n + 1..] && draws[n..][1..] == draws[n + 1..];
    if next.Some? {
      var scheduled := SaturatingAdd(height, next.value);
      var rest := Place(items[order[n] := ReplacingSchedule(item, scheduled, height)], order[n + 1..], height, max,
                        draws[n + 1..], next.value);
      var update := ScheduleUpdate(item.itemId, scheduled, height);
      if rest.Some? {
        assert updates + ([update] + rest.value.updates) == (updates + [update]) + rest.value.updates;
      }
    }
  }

  // ----- The snapshot

  class Snapshot {
    var batches: seq<Batch>
    var receipts: seq<Receipt>
    var lastAttemptedScopeKey: Option<string>
    var lastInspectedEndpoint: Option<string>
    var announcedBatchIds: seq<string>

    function View(): State
      reads this
    {
      State(batches, receipts, lastAttemptedScopeKey, lastInspectedEndpoint, announcedBatchIds)
    }

    constructor (s: State)
      ensures View() == s
    {
      batches, receipts := s.batches, s.receipts;
      lastAttemptedScopeKey, lastInspectedEndpoint := s.lastScope, s.lastEndpoint;
      announcedBatchIds := s.announced;
    }

    method Stage(batch: Batch) returns (r: Result<(), OutboxError>)
      modifies this
      ensures r.Ok? <==> Ops.Stage(old(View()), batch).Ok?
      ensures r.Ok? ==> View() == Ops.Stage(old(View()), batch).value
      ensures r.Err? ==> r.error == Ops.Stage(old(View()), batch).error
    {
      hide Ops.NewItems, Ops.ValidNewBatch;
      if !Ops.ValidNewBatch(batch) {
        return Err(InvalidBatch);
      }
      var found := Ops.FindBatch(batches, batch.batchId);
      if found.None? {
        batches := batches + [batch];
        return Ok(());
      }
      var i := found.value;
      var existing := batches[i];
      if existing.network != batch.network || existing.accountUuid != batch.accountUuid
          || existing.runId != batch.runId {
        return Err(ConflictingBatch);
      }
      var ok := AdoptPolicy(i, batch);
      if !ok {
        return Err(ConflictingBatch);
      }
      ok := AddItems(i, existing, batch);
      if !ok {
        return Err(ConflictingBatch);
      }
      ResetNotices(i, existing, batch);
      assert batches == old(batches)[i := Ops.Restaged(existing, batch,
                                                       Ops.NewItems(existing.items, batch.items).value)];
      return Ok(());
    }

    /** Endpoint and cadence are taken over, unless a submission is under way that would then belong to another. */
    method AdoptPolicy(i: nat, batch: Batch) returns (ok: bool)
      requires i < |batches|
      modifies this`batches
      ensures var b := old(batches)[i];
              ok <==> !(b.HasStatus(Submitting)
                        && (b.url != batch.url || b.timingMean != batch.timingMean || b.timingMax != batch.timingMax))
      ensures ok ==> batches == old(batches)[i := old(batches)[i].(url := batch.url, timingMean := batch.timingMean,
                                                                   timingMax := batch.timingMax)]
    {
      var existing := batches[i];
      if existing.url != batch.url {
        if existing.HasStatus(Submitting) {
          return false;
        }
        batches := batches[i := batches[i].(url := batch.url)];
      }
      if existing.timingMean != batch.timingMean || existing.timingMax != batch.timingMax {
        if existing.HasStatus(Submitting) {
          return false;
        }
        batches := batches[i := batches[i].(timingMean := batch.timingMean, timingMax := batch.timingMax)];
      }
      assert batches == old(batches)[i := existing.(url := batch.url, timingMean := batch.timingMean,
                                                    timingMax := batch.timingMax)];
      return true;
    }

    /** A new proof height starts its notices over, and new work of any kind the "transfers sent" notice. */
    method ResetNotices(i: nat, existing: Batch, batch: Batch)
      requires i < |batches| && |batches[i].items| >= |existing.items|
      modifies this`batches
      ensures var b := old(batches)[i];
              var b1 := if existing.nextProofHeight == batch.nextProofHeight then b
                        else b.(nextProofHeight := batch.nextProofHeight, proofPendingAt := None,
                                proofNotifiedAt := None,
                                heightPendingAt := None, heightNoticedAt := None);
              var b2 := if |b.items| == |existing.items| && existing.nextProofHeight == batch.nextProofHeight then b1
                        else b1.(sentPendingAt := None, sentNotifiedAt := None);
              batches == old(batches)[i := b2]
    {
      var addedItem := |batches[i].items| > |existing.items|;
      if existing.nextProofHeight != batch.nextProofHeight {
        batches := batches[i := batches[i].(nextProofHeight := batch.nextProofHeight, proofPendingAt := None,
                                            proofNotifiedAt := None, heightPendingAt := None, heightNoticedAt := None)];
      }
      if addedItem || existing.nextProofHeight != batch.nextProofHeight {
        batches := batches[i := batches[i].(sentPendingAt := None, sentNotifiedAt := None)];
      }
    }

    /** The loop of `stage` over the incoming items of a stored batch. */
    method AddItems(i: nat, existing: Batch, batch: Batch) returns (ok: bool)
      requires i < |batches| && batches[i].items == existing.items
      modifies this`batches
      ensures ok <==> Ops.NewItems(existing.items, batch.items).Some?
      ensures ok ==> batches == WithAdded(old(batches), i, existing, Ops.NewItems(existing.items, batch.items).value)
    {
      hide Ops.NewItems;
      var n := 0;
      ghost var added: seq<Item> := [];
      AddNothing(batches, i, existing, batch.items);
      while n < |batch.items|
        invariant n <= |batch.items| && batches == WithAdded(old(batches), i, existing, added)
        invariant Ops.NewItems(existing.items, batch.items[..n]) == Some(added)
      {
        var incoming := batch.items[n];
        var stored := Ops.FindItem(existing.items, incoming.itemId);
        AddNext(existing.items, batch.items, n, added);
        if stored.Some? {
          if !Ops.SameTransaction(existing.items[stored.value], incoming) {
            return false;
          }
        } else {
          if Ops.Clashes(existing.items, incoming) {
            return false;
          }
          AddOne(old(batches), i, existing, added, incoming);
          batches := batches[i := batches[i].(items := batches[i].items + [incoming])];
          added := added + [incoming];
        }
        n := n + 1;
      }
      assert batch.items[..n] == batch.items;
      return true;
    }

    method ArmBatch(batchId: string, digests: map<string, Digest>, date: Date) returns (r: Result<(), OutboxError>)
      modifies this`batches
      ensures r.Ok? <==> Ops.Arm(old(View()), batchId, digests, date).Ok?
      ensures r.Ok? ==> View() == Ops.Arm(old(View()), batchId, digests, date).value
      ensures r.Err? ==> r.error == Ops.Arm(old(View()), batchId, digests, date).error
    {
      hide Ops.ArmRequestOk;
      var found := Ops.FindBatch(batches, batchId);
      if found.None? {
        return Err(BatchNotFound);
      }
      var i := found.value;
      var b := batches[i];
      if !Ops.ArmRequestOk(b, digests) {
        return Err(InvalidArmRequest);
      }
      if b.armedAt.None? {
        batches := batches[i := batches[i].(armedAt := Some(date))];
      }
      var k := 0;
      while k < |b.items|
        invariant k <= |b.items| && |batches| == |old(batches)|
        invariant forall j :: 0 <= j < |batches| && j != i ==> batches[j] == old(batches)[j]
        invariant batches[i] == b.(armedAt := if b.armedAt.None? then Some(date) else b.armedAt,
                                   items := batches[i].items)
        invariant |batches[i].items| == |b.items|
        invariant forall j :: 0 <= j < |b.items| ==>
                    batches[i].items[j] == if j < k then Ops.ArmItem(b.items[j], digests) else b.items[j]
      {
        var item := batches[i].items[k];
        if item.itemId in digests && item.status == Staged {
          batches := batches[i := batches[i].(items := batches[i].items[k := item.(status := Armed)])];
        }
        k := k + 1;
      }
      ghost var armed := Ops.Arm(old(View()), batchId, digests, date).value;
      assert batches[i].items == armed.batches[i].items;
      assert batches == armed.batches;
      return Ok(());
    }

    method RecoverBatch(batchId: string, network: string, accountUuid: string, runId: string, txids: set<string>,
                        url: string, date: Date) returns (r: Result<bool, OutboxError>)
      modifies this`batches
      ensures r.Ok? <==> Ops.Recover(old(View()), batchId, network, accountUuid, runId, txids, url, date).Ok?
      ensures r.Ok? ==> (View(), r.value) == Ops.Recover(old(View()), batchId, network, accountUuid, runId, txids,
                                                         url, date).value
      ensures r.Err? ==> r.error == Ops.Recover(old(View()), batchId, network, accountUuid, runId, txids, url,
                                                date).error
    {
      if txids == {} || url == "" {
        return Err(InvalidArmRequest);
      }
      var found := Ops.FindBatch(batches, batchId);
      if found.None? {
        return Ok(false);
      }
      var i := found.value;
      var b := batches[i];
      if !Ops.RecoverMatches(b, network, accountUuid, runId, txids) {
        return Err(ConflictingBatch);
      }
      var items := b.items;
      var k := 0;
      while k < |items|
        invariant k <= |items| == |b.items|
        invariant forall j :: 0 <= j < |items| ==> items[j] == if j < k then Ops.RecoverItem(b.items[j], date)
                  else b.items[j]
      {
        var item := items[k];
        if item.status == Submitting {
          items := items[k := Ops.Uncertain(item, Ops.UNKNOWN_OUTCOME, date)];
        } else if item.status == Staged {
          items := items[k := item.(status := Armed)];
        }
        k := k + 1;
      }
      var recovered := b.(items := items, url := url);
      if recovered.HasStatus(Armed) && b.armedAt.None? {
        recovered := recovered.(armedAt := Some(date));
      }
      assert items == Ops.RecoveredBatch(b, url, date).items;
      batches := batches[i := recovered];
      return Ok(true);
    }

    method RecoverInterruptedSubmissions(date: Date)
      modifies this`batches
      ensures View() == Ops.RecoverInterrupted(old(View()), date)
    {
      var i := 0;
      while i < |batches|
        invariant i <= |batches| == |old(batches)|
        invariant forall j :: 0 <= j < |batches| ==>
                    batches[j] == if j < i then Ops.InterruptedBatch(old(batches)[j], date) else old(batches)[j]
      {
        var b := batches[i];
        var items := b.items;
        var k := 0;
        while k < |items|
          invariant k <= |items| == |b.items|
          invariant forall j :: 0 <= j < |items| ==> items[j] == if j < k then Ops.InterruptedItem(b.items[j], date)
                    else b.items[j]
        {
          if items[k].status == Submitting {
            items := items[k := Ops.Uncertain(items[k], Ops.UNKNOWN_OUTCOME, date)];
          }
          k := k + 1;
        }
        assert items == Ops.InterruptedBatch(b, date).items;
        batches := batches[i := b.(items := items)];
        i := i + 1;
      }
      assert batches == Ops.RecoverInterrupted(old(View()), date).batches;
    }

    method NextEndpointForInspection() returns (endpoint: Option<string>)
      modifies this`lastInspectedEndpoint
      ensures (View(), endpoint) == Ops.NextEndpoint(old(View()))
    {
      var endpoints := Ops.Endpoints(batches);
      if endpoints == [] {
        return None;
      }
      var selected := NextKey(endpoints, lastInspectedEndpoint);
      lastInspectedEndpoint := Some(selected);
      return Some(selected);
    }

    /** The loops shared by `expireItems` and `markDueItemsNeedingResign`. */
    method RetireItems(why: Ops.Retirement, height: U64, endpoint: string, date: Date)
      modifies this`batches, this`receipts
      ensures View() == Ops.Retire(old(View()), why, height, endpoint, date)
    {
      hide Ops.RetiresAny, Ops.BatchReceipts, Ops.RetiredBatch, Ops.RetireFirst;
      var i := 0;
      RetireNone(View(), why, height, endpoint, date);
      while i < |batches|
        invariant i <= |batches| == |old(batches)|
        invariant View() == Ops.RetireFirst(old(View()), why, height, endpoint, date, i)
      {
        RetireNext(old(View()), why, height, endpoint, date, i);
        if batches[i].url == endpoint {
          RetireBatch(i, why, height, endpoint, date);
        }
        i := i + 1;
      }
    }

    method RetireBatch(i: nat, why: Ops.Retirement, height: U64, endpoint: string, date: Date)
      requires i < |batches| && batches[i].url == endpoint
      modifies this`batches, this`receipts
      ensures batches == old(batches)[i := Ops.RetiredBatch(why, old(batches)[i], height, endpoint)]
      ensures receipts == old(receipts) + Ops.BatchReceipts(why, old(batches)[i], height, date, |old(batches)[i].items|)
    {
      hide RetiredUpTo, Ops.BatchReceipts, Ops.RetiredBatch, Ops.RetirementReceipt;
      var b := batches[i];
      var k := 0;
      RetiredUpToNone(why, b, height, date, receipts);
      while k < |b.items|
        invariant k <= |b.items| && batches == old(batches)[i := RetiredUpTo(why, b, height, k)]
        invariant receipts == old(receipts) + Ops.BatchReceipts(why, b, height, date, k)
      {
        var item := b.items[k];
        RetiredUpToNext(why, b, height, date, k, old(receipts));
        if Ops.Retires(why, item, height) {
          var items := batches[i].items[k := item.(status := StatusOf(Ops.RetirementOutcome(why)))];
          batches := batches[i := batches[i].(items := items, armedAt := None, nextProofHeight := None)];
          receipts := receipts + [Ops.RetirementReceipt(why, b, item, height, date)];
        }
        k := k + 1;
      }
      RetiredUpToEnd(why, b, height, endpoint);
    }

    method ExpireItems(height: U64, endpoint: string, date: Date)
      modifies this`batches, this`receipts
      ensures View() == Ops.ExpireItems(old(View()), height, endpoint, date)
    {
      RetireItems(Ops.PastExpiry, height, endpoint, date);
    }

    method MarkDueItemsNeedingResign(height: U64, endpoint: string, date: Date)
      modifies this`batches, this`receipts
      ensures View() == Ops.MarkNeedingResign(old(View()), height, endpoint, date)
    {
      var canonical := Ops.CanonicalExpiry(height);
      if canonical.Some? {
        RetireItems(Ops.OtherWindow(canonical.value), height, endpoint, date);
      }
    }

    method SelectDue(height: U64, endpoint: Option<string>, date: Date) returns (selection: Option<Selection>)
      modifies this`lastAttemptedScopeKey
      ensures (View(), selection) == Ops.SelectDue(old(View()), height, endpoint, date)
    {
      hide Ops.Selectable, Ops.DueScopes, Ops.EarliestDue, NextKey;
      var scopes := Ops.DueScopes(batches, height, endpoint, date);
      if scopes == [] {
        return None;
      }
      var scope := NextKey(scopes, lastAttemptedScopeKey);
      var i := 0;
      while i < |batches|
        invariant i <= |batches|
        invariant forall j :: 0 <= j < i ==> !(Ops.Selectable(batches[j], height, endpoint, date)
                                               && batches[j].ScopeKey() == scope)
      {
        var b := batches[i];
        if Ops.Selectable(b, height, endpoint, date) && b.ScopeKey() == scope {
          var k := EarliestDueItem(b.items, height, date);
          if k.None? {
            return None;
          }
          lastAttemptedScopeKey := Some(scope);
          return Some(Selection(b.batchId, b.accountUuid, b.ScopeKey(), b.url, b.items[k.value]));
        }
        i := i + 1;
      }
      return None;
    }

    /** The first of the due items in sending order. */
    method EarliestDueItem(items: seq<Item>, height: U64, date: Date) returns (best: Option<nat>)
      ensures best == Ops.EarliestDue(items, height, date)
    {
      best := None;
      var k := 0;
      while k < |items|
        invariant k <= |items| && best == Ops.EarliestDue(items[..k], height, date)
      {
        assert items[..k + 1][..k] == items[..k];
        if Ops.Due(items[k], height, date) && (best.None? || Ops.Earlier(items[k], items[best.value])) {
          best := Some(k);
        }
        k := k + 1;
      }
      assert items[..k] == items;
    }

    /** `itemLocation`. */
    method ItemLocation(itemId: string) returns (at: Option<Ops.Location>)
      ensures at == Ops.Locate(batches, itemId)
    {
      var i := 0;
      while i < |batches|
        invariant i <= |batches|
        invariant Ops.Locate(batches, itemId) == Ops.LocateFrom(batches, itemId, i)
      {
        var k := Ops.FindItem(batches[i].items, itemId);
        if k.Some? {
          return Some(Ops.Location(i, k.value));
        }
        i := i + 1;
      }
      return None;
    }

    method BeginSubmission(itemId: string, attemptId: string, date: Date) returns (r: Result<(), OutboxError>)
      modifies this`batches
      ensures r.Ok? <==> Ops.BeginSubmission(old(View()), itemId, attemptId, date).Ok?
      ensures r.Ok? ==> View() == Ops.BeginSubmission(old(View()), itemId, attemptId, date).value
      ensures r.Err? ==>
                r.error == Ops.BeginSubmission(old(View()), itemId, attemptId, date).error && View() == old(View())
    {
      var at := ItemLocation(itemId);
      if at.None? {
        return Err(ItemNotFound);
      }
      var item := Ops.ItemAt(batches, at.value);
      if item.status != Armed {
        return Err(InvalidTransition);
      }
      PutItem(at.value, item.(status := Submitting, attemptId := Some(attemptId), attemptStartedAt := Some(date)));
      return Ok(());
    }

    method PutItem(at: Ops.Location, item: Item)
      requires Ops.At(batches, at)
      modifies this`batches
      ensures View() == Ops.WithItem(old(View()), at, item)
    {
      batches := batches[at.batch := batches[at.batch].(items := batches[at.batch].items[at.item := item])];
    }

    method ValidateReschedulingAfterAcceptance(itemId: string, height: U64) returns (r: Result<(), OutboxError>)
      ensures r == Ops.ValidateRescheduling(View(), itemId, height)
    {
      var at := ItemLocation(itemId);
      if at.None? {
        return Err(ItemNotFound);
      }
      var expiries := PeerExpiries(batches[at.value.batch].items, itemId, height);
      var nextHeight: U64 := height;
      var n := 0;
      while n < |expiries|
        invariant n <= |expiries|
        invariant Preflight(expiries, height) <==> Preflight(expiries[n..], nextHeight)
      {
        if nextHeight + 1 >= TWO_64 || nextHeight + 1 >= expiries[n] {
          return Err(InvalidSchedule);
        }
        nextHeight := nextHeight + 1;
        n := n + 1;
      }
      return Ok(());
    }

    method RecordUncertain(itemId: string, error: string, date: Date) returns (r: Result<(), OutboxError>)
      modifies this`batches
      ensures r.Ok? <==> Ops.RecordUncertain(old(View()), itemId, error, date).Ok?
      ensures r.Ok? ==> View() == Ops.RecordUncertain(old(View()), itemId, error, date).value
      ensures r.Err? ==> r.error == Ops.RecordUncertain(old(View()), itemId, error, date).error && View() == old(View())
    {
      var at := ItemLocation(itemId);
      if at.None? {
        return Err(ItemNotFound);
      }
      var item := Ops.ItemAt(batches, at.value);
      if item.status != Submitting {
        return Err(InvalidTransition);
      }
      PutItem(at.value, Ops.Uncertain(item, error, date));
      return Ok(());
    }

    method RecordCancelledBeforeSubmission(itemId: string, error: string) returns (r: Result<(), OutboxError>)
      modifies this`batches
      ensures r.Ok? <==> Ops.RecordCancelled(old(View()), itemId, error).Ok?
      ensures r.Ok? ==> View() == Ops.RecordCancelled(old(View()), itemId, error).value
      ensures r.Err? ==> r.error == Ops.RecordCancelled(old(View()), itemId, error).error && View() == old(View())
    {
      var at := ItemLocation(itemId);
      if at.None? {
        return Err(ItemNotFound);
      }
      var item := Ops.ItemAt(batches, at.value);
      if item.status != Submitting {
        return Err(InvalidTransition);
      }
      PutItem(at.value, Ops.CancelledItem(item, error));
      return Ok(());
    }

    /** `rescheduleOverdueItems`: one pass over the shuffled and expiry-sorted peers, placing one after the other. */
    method RescheduleOverdueItems(i: nat, excluded: string, height: U64, random: Randomness)
      returns (r: Option<seq<ScheduleUpdate>>)
      requires i < |batches| && 0 < batches[i].timingMean <= batches[i].timingMax
      requires Shuffles(random, batches[i].items, excluded, height)
      modifies this`batches
      ensures var result := Reschedule(old(batches)[i].items, excluded, height, old(batches)[i].timingMax, random);
              && (r.Some? <==> result.Some?)
              && (r.Some? ==> |result.value.items| == |old(batches)[i].items|)
              && (r.Some? ==>
                        batches == old(batches)[i := old(batches)[i].(items := result.value.items)]
                          && r.value == result.value.updates)
    {
      hide Plan, NextElapsed, SortByExpiry, ApplyPlan, Shuffles;
      var items := batches[i].items;
      var max := batches[i].timingMax;
      OrderedPeers(items, excluded, height, random);
      var order := SortByExpiry(items, random.shuffled);
      ghost var all := Place(items, order, height, max, random.draws, 0);
      PlaceIsPlan(items, order, height, max, random.draws, 0);
      var elapsed: U64 := 0;
      var updates: seq<ScheduleUpdate> := [];
      var n := 0;
      PlaceStart(items, order, random.draws, all);
      while n < |order|
        invariant batches == old(batches) && n <= |order| && Positions(order, items)
        invariant all == After(updates, Place(items, order[n..], height, max, random.draws[n..], elapsed))
      {
        var item := items[order[n]];
        var next := NextElapsed(item.expiryHeight, |order| - n, height, max, random.draws[n], elapsed);
        PlaceNext(items, order, height, max, random.draws, elapsed, n, updates);
        if next.None? {
          return None;
        }
        elapsed := next.value;
        var scheduled := SaturatingAdd(height, elapsed);
        items := items[order[n] := ReplacingSchedule(item, scheduled, height)];
        updates := updates + [ScheduleUpdate(item.itemId, scheduled, height)];
        n := n + 1;
      }
      assert order[n..] == [] && updates + [] == updates;
      batches := batches[i := batches[i].(items := items)];
      return Some(updates);
    }

    method RecordAccepted(itemId: string, equivalent: bool, height: U64, code: int, message: string, date: Date,
                          random: Randomness) returns (r: Result<(), OutboxError>)
      requires Ops.RandomnessFits(View(), itemId, height, random)
      modifies this`batches, this`receipts
      ensures r.Ok? <==> Ops.RecordAccepted(old(View()), itemId, equivalent, height, code, message, date, random).Ok?
      ensures r.Ok? ==> View() == Ops.RecordAccepted(old(View()), itemId, equivalent, height, code, message, date,
                                                     random).value
      ensures r.Err? ==> r.error == Ops.RecordAccepted(old(View()), itemId, equivalent, height, code, message, date,
                                                       random).error
    {
      hide Reschedule, Shuffles, Ops.LocateFrom;
      var found := ItemLocation(itemId);
      if found.None? {
        return Err(ItemNotFound);
      }
      var at := found.value;
      var b := batches[at.batch];
      var item := b.items[at.item];
      if item.status != Submitting {
        return Err(InvalidTransition);
      }
      var finished := Ops.FinishedItem(item, AcceptedAwaiting);
      PutItem(at, finished);
      if !(0 < b.timingMean <= b.timingMax) {
        return Err(InvalidSchedule);
      }
      RescheduleAround(b.items, at.item, finished, height, b.timingMax, random);
      var updates := RescheduleOverdueItems(at.batch, itemId, height, random);
      if updates.None? {
        return Err(InvalidSchedule);
      }
      var outcome := if equivalent then AcceptedEquivalent else Accepted;
      receipts := receipts + [Ops.MakeReceipt(b, finished, outcome, height, Some(code), Some(message), updates.value,
                                              date)];
      return Ok(());
    }

    method RecordRejected(itemId: string, height: U64, code: int, message: string, date: Date)
      returns (r: Result<(), OutboxError>)
      modifies this`batches, this`receipts
      ensures r.Ok? <==> Ops.RecordRejected(old(View()), itemId, height, code, message, date).Ok?
      ensures r.Ok? ==> View() == Ops.RecordRejected(old(View()), itemId, height, code, message, date).value
      ensures r.Err? ==>
                r.error == Ops.RecordRejected(old(View()), itemId, height, code, message, date).error
                  && View() == old(View())
    {
      var at := ItemLocation(itemId);
      if at.None? {
        return Err(ItemNotFound);
      }
      var item := Ops.ItemAt(batches, at.value);
      if item.status != Submitting {
        return Err(InvalidTransition);
      }
      var finished := Ops.FinishedItem(item, RejectedAwaiting);
      PutItem(at.value, finished);
      var b := batches[at.value.batch].(armedAt := None, nextProofHeight := None);
      batches := batches[at.value.batch := b];
      receipts := receipts + [Ops.MakeReceipt(b, finished, Rejected, height, Some(code), Some(message), [], date)];
      return Ok(());
    }

    method AcknowledgeReceipts(ids: set<ReceiptId>)
      modifies this`batches, this`receipts
      ensures View() == Ops.AcknowledgeReceipts(old(View()), ids)
    {
      hide Ops.AckedItemIds, Ops.EndedBatchIds, Ops.PruneBatches, Ops.WithoutItems, Filter;
      var itemIds := Ops.AckedItemIds(receipts, ids);
      var ended := Ops.EndedBatchIds(receipts, ids);
      receipts := Ops.KeptReceipts(receipts, ids);
      batches := Filter(batches, Ops.OutsideBatches(ended));
      ghost var left := batches;
      var i := 0;
      while i < |batches|
        invariant i <= |batches| == |left| && receipts == Ops.KeptReceipts(old(receipts), ids)
        invariant forall j :: 0 <= j < |left| ==> batches[j] == if j < i then Ops.WithoutItems(left[j], itemIds)
                  else left[j]
      {
        batches := batches[i := Ops.WithoutItems(batches[i], itemIds)];
        i := i + 1;
      }
      ghost var finished := Ops.Finished(old(receipts), ids);
      assert ended == Ops.EndedBatchIds(old(receipts), ids) && itemIds == Ops.AckedItemIds(old(receipts), ids);
      assert left == Filter(old(batches), Ops.OutsideBatches(ended));
      PruneInPasses(old(batches), ended, itemIds, batches, finished);
      batches := Filter(batches, Unspent());
    }

    method DiscardBatch(batchId: string) returns (r: Result<bool, OutboxError>)
      modifies this`batches
      ensures r.Ok? <==> Ops.DiscardBatch(old(View()), batchId).Ok?
      ensures r.Ok? ==> (View(), r.value) == Ops.DiscardBatch(old(View()), batchId).value
      ensures r.Err? ==> r.error == Ops.DiscardBatch(old(View()), batchId).error && View() == old(View())
    {
      var found := Ops.FindBatch(batches, batchId);
      if found.None? {
        return Ok(false);
      }
      if Ops.DeliveryStarted(batches[found.value]) || Ops.HasReceipt(receipts, batchId) {
        return Err(ConflictingBatch);
      }
      batches := Ops.RemoveAt(batches, found.value);
      return Ok(true);
    }

    method Revoke(network: string, accountUuid: string)
      modifies this
      ensures View() == Ops.Revoke(old(View()), network, accountUuid)
    {
      var ids := Ops.ScopeBatchIds(batches, network, accountUuid);
      batches := Filter(batches, Ops.OutsideBatches(ids));
      receipts := Filter(receipts, Ops.OutsideReceipts(ids));
      if lastAttemptedScopeKey == Some(network + ":" + accountUuid) {
        lastAttemptedScopeKey := None;
      }
      announcedBatchIds := Filter(announcedBatchIds, (id: string) => !(Ops.ScopePrefix(network, accountUuid) <= id));
    }

    // ----- Notices

    method PutBatch(i: nat, b: Batch)
      requires i < |batches|
      modifies this`batches
      ensures View() == Ops.WithBatch(old(View()), i, b)
    {
      batches := batches[i := b];
    }

    method MarkProofReadyIfNeeded(height: U64, endpoint: string, date: Date) returns (ready: Option<string>)
      modifies this`batches
      ensures (View(), ready) == Ops.MarkProofReady(old(View()), height, endpoint, date)
    {
      var i := Ops.FirstProof(batches, Ops.ReadyAt(height, endpoint));
      if i.None? {
        return None;
      }
      var b := batches[i.value];
      if b.proofPendingAt.None? {
        PutBatch(i.value, b.(proofPendingAt := Some(date)));
      }
      return Some(b.batchId);
    }

    method RecordVerifiedProofReadiness(network: string, accountUuid: string, runId: string,
                                        date: Date) returns (found: bool)
      modifies this`batches
      ensures (View(), found) == Ops.RecordVerified(old(View()), network, accountUuid, runId, date)
    {
      var i := Ops.FirstProof(batches, Ops.VerifiedFor(network, accountUuid, runId));
      if i.None? {
        return false;
      }
      var b := batches[i.value];
      if b.proofNotifiedAt.None? && b.proofPendingAt.None? {
        PutBatch(i.value, b.(proofPendingAt := Some(date)));
      }
      return true;
    }

    method AcknowledgeProofReadyNotification(batchId: string, date: Date) returns (r: Result<(), OutboxError>)
      modifies this`batches
      ensures r.Ok? <==> Ops.AcknowledgeProofReady(old(View()), batchId, date).Ok?
      ensures r.Ok? ==> View() == Ops.AcknowledgeProofReady(old(View()), batchId, date).value
      ensures r.Err? ==> r.error == Ops.AcknowledgeProofReady(old(View()), batchId, date).error && View() == old(View())
    {
      var i := Ops.FindBatch(batches, batchId);
      if i.None? {
        return Err(BatchNotFound);
      }
      var b := batches[i.value];
      if b.proofPendingAt.None? {
        return Err(InvalidTransition);
      }
      PutBatch(i.value, b.(proofPendingAt := None, proofNotifiedAt := Some(date)));
      return Ok(());
    }

    method MarkUnverifiedProofReadyNotice(batchId: string, date: Date) returns (queued: bool)
      modifies this`batches
      ensures (View(), queued) == Ops.MarkHeightNotice(old(View()), batchId, date)
    {
      var i := Ops.FindBatch(batches, batchId);
      if i.None? {
        return false;
      }
      var b := batches[i.value];
      if b.armedAt.None? || b.nextProofHeight.None? || b.proofNotifiedAt.Some? || b.proofPendingAt.Some? {
        return false;
      }
      if b.heightPendingAt.Some? || b.heightNoticedAt.Some? {
        return false;
      }
      PutBatch(i.value, b.(heightPendingAt := Some(date)));
      return true;
    }

    method AcknowledgeUnverifiedProofReadyNotice(batchId: string, date: Date) returns (r: Result<(), OutboxError>)
      modifies this`batches
      ensures r.Ok? <==> Ops.AcknowledgeHeightNotice(old(View()), batchId, date).Ok?
      ensures r.Ok? ==> View() == Ops.AcknowledgeHeightNotice(old(View()), batchId, date).value
      ensures r.Err? ==>
                r.error == Ops.AcknowledgeHeightNotice(old(View()), batchId, date).error && View() == old(View())
    {
      var i := Ops.FindBatch(batches, batchId);
      if i.None? {
        return Err(BatchNotFound);
      }
      var b := batches[i.value];
      if b.heightPendingAt.None? {
        return Err(InvalidTransition);
      }
      PutBatch(i.value, b.(heightPendingAt := None, heightNoticedAt := Some(date)));
      return Ok(());
    }

    method MarkBroadcastCompleteIfNeeded(batchId: string, date: Date)
      modifies this`batches
      ensures View() == Ops.MarkSent(old(View()), batchId, date)
    {
      var i := Ops.FindBatch(batches, batchId);
      if i.None? {
        return;
      }
      var b := batches[i.value];
      if b.nextProofHeight.Some? || b.sentNotifiedAt.Some? || batchId in announcedBatchIds {
        return;
      }
      if b.items == [] || !Ops.AllAccepted(b.items) {
        return;
      }
      if b.sentPendingAt.None? {
        PutBatch(i.value, b.(sentPendingAt := Some(date)));
      }
    }

    method AcknowledgeBroadcastCompleteNotification(batchId: string, date: Date) returns (r: Result<(), OutboxError>)
      modifies this`batches, this`announcedBatchIds
      ensures r.Ok? <==> Ops.AcknowledgeSent(old(View()), batchId, date).Ok?
      ensures r.Ok? ==> View() == Ops.AcknowledgeSent(old(View()), batchId, date).value
      ensures r.Err? ==> r.error == Ops.AcknowledgeSent(old(View()), batchId, date).error && View() == old(View())
    {
      var i := Ops.FindBatch(batches, batchId);
      if i.None? {
        return Err(BatchNotFound);
      }
      var b := batches[i.value];
      if b.sentPendingAt.None? {
        return Err(InvalidTransition);
      }
      if batchId !in announcedBatchIds {
        announcedBatchIds := announcedBatchIds + [batchId];
      }
      if b.items == [] && b.nextProofHeight.None? {
        batches := Ops.RemoveAt(batches, i.value);
      } else {
        PutBatch(i.value, b.(sentPendingAt := None, sentNotifiedAt := Some(date)));
      }
      return Ok(());
    }
  }
}
