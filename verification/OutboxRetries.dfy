/**
 * The app repeats a call when its reply was lost, and the runner repeats its
 * updates at every wake. A repeated operation finds its work done and changes
 * nothing, at whatever later date it comes.
 */
module OutboxRetries {
  import opened Common
  import opened Sequences
  import opened OutboxTypes
  import opened OutboxOps
  import opened OutboxRecords

  // ----- Staging

  /**
   * What a stored record holds of a staged batch: its endpoint, cadence and proof height, and each
   * of its transactions.
   */
  ghost predicate Holds(stored: Batch, batch: Batch) {
    && stored.batchId == batch.batchId && stored.network == batch.network
    && stored.accountUuid == batch.accountUuid && stored.runId == batch.runId
    && stored.url == batch.url && stored.timingMean == batch.timingMean && stored.timingMax == batch.timingMax
    && stored.nextProofHeight == batch.nextProofHeight
    && HoldsItems(stored.items, batch.items)
  }

  ghost predicate HoldsItems(stored: seq<Item>, items: seq<Item>) {
    forall k :: 0 <= k < |items| ==>
      FindItem(stored, items[k].itemId).Some? && SameTransaction(stored[FindItem(stored, items[k].itemId).value],
                                                                 items[k])
  }

  lemma {:induction false} NothingNew(stored: seq<Item>, items: seq<Item>)
    requires HoldsItems(stored, items)
    ensures NewItems(stored, items) == Some([])
  {
    if items != [] {
      assert forall k :: 0 <= k < |items[1..]| ==> items[1..][k] == items[k + 1];
      NothingNew(stored, items[1..]);
    }
  }

  /** An item that the stored ones lack is among the new ones. */
  lemma {:induction false} MissingIsNew(existing: seq<Item>, items: seq<Item>, k: nat) returns (j: nat)
    requires NewItems(existing, items).Some? && k < |items|
    ensures FindItem(existing, items[k].itemId).Some? ==>
              SameTransaction(existing[FindItem(existing, items[k].itemId).value], items[k])
    ensures FindItem(existing, items[k].itemId).None? ==>
              j < |NewItems(existing, items).value| && NewItems(existing, items).value[j] == items[k]
  {
    j := 0;
    if k > 0 {
      j := MissingIsNew(existing, items[1..], k - 1);
      if FindItem(existing, items[0].itemId).None? {
        j := j + 1;
      }
    }
  }

  lemma FindInAppended(existing: seq<Item>, added: seq<Item>, itemId: string)
    ensures FindItem(existing, itemId).Some? ==> FindItem(existing + added, itemId) == FindItem(existing, itemId)
    ensures FindItem(existing, itemId).None? && DistinctItems(added) ==>
              forall j :: 0 <= j < |added| && added[j].itemId == itemId ==>
                FindItem(existing + added, itemId) == Some(|existing| + j)
  {
    var all := existing + added;
    assert forall k :: 0 <= k < |existing| ==> all[k] == existing[k];
    assert forall j :: 0 <= j < |added| ==> all[|existing| + j] == added[j];
  }

  lemma AddedAreHeld(existing: seq<Item>, items: seq<Item>)
    requires NewItems(existing, items).Some? && DistinctItems(items)
    ensures HoldsItems(existing + NewItems(existing, items).value, items)
  {
    var added := NewItems(existing, items).value;
    NewItemsDistinct(existing, items);
    forall k | 0 <= k < |items|
      ensures var at := FindItem(existing + added, items[k].itemId);
              at.Some? && SameTransaction((existing + added)[at.value], items[k])
    {
      var j := MissingIsNew(existing, items, k);
      FindInAppended(existing, added, items[k].itemId);
    }
  }

  lemma OwnItemsHeld(items: seq<Item>)
    requires DistinctItems(items)
    ensures HoldsItems(items, items)
  {
  }

  /**
   * What staging leaves: the record holds every transaction of the batch and what
   * it held before, in place; every other record, receipt and cursor is as it was.
   */
  lemma StageStores(s: State, batch: Batch) returns (i: nat)
    requires Stage(s, batch).Ok?
    ensures var s' := Stage(s, batch).value;
            && FindBatch(s'.batches, batch.batchId) == Some(i) && i < |s'.batches| && Holds(s'.batches[i], batch)
            && s' == s.(batches := s'.batches)
            && |s.batches| <= |s'.batches|
            && (forall j :: 0 <= j < |s.batches| && j != i ==> s'.batches[j] == s.batches[j])
            && (if i < |s.batches| then |s'.batches| == |s.batches| && s.batches[i].items <= s'.batches[i].items
                else s'.batches == s.batches + [batch])
  {
    hide NewItems, HoldsItems;
    var s' := Stage(s, batch).value;
    match FindBatch(s.batches, batch.batchId)
    case None =>
      i := |s.batches|;
      OwnItemsHeld(batch.items);
      FindStaged(s'.batches, batch.batchId, i);
    case Some(at) =>
      i := at;
      AddedAreHeld(s.batches[i].items, batch.items);
      FindStaged(s'.batches, batch.batchId, i);
  }

  lemma FindStaged(batches: seq<Batch>, batchId: string, i: nat)
    requires i < |batches| && batches[i].batchId == batchId
    requires forall j :: 0 <= j < i ==> batches[j].batchId != batchId
    ensures FindBatch(batches, batchId) == Some(i)
  {
  }

  lemma StagingAgain(s: State, batch: Batch)
    requires Stage(s, batch).Ok?
    ensures Stage(Stage(s, batch).value, batch) == Stage(s, batch)
  {
    var i := StageStores(s, batch);
    var s' := Stage(s, batch).value;
    NothingNew(s'.batches[i].items, batch.items);
    hide NewItems, HoldsItems;
    RestagedSame(s'.batches[i], batch);
    assert s'.batches[i := s'.batches[i]] == s'.batches;
  }

  lemma RestagedSame(stored: Batch, batch: Batch)
    requires stored.url == batch.url && stored.timingMean == batch.timingMean && stored.timingMax == batch.timingMax
    requires stored.nextProofHeight == batch.nextProofHeight
    ensures Restaged(stored, batch, []) == stored
  {
    assert stored.items + [] == stored.items;
  }

  // ----- Arming and recovery

  lemma ArmingAgain(s: State, batchId: string, digests: map<string, Digest>, date: Date, later: Date)
    requires Arm(s, batchId, digests, date).Ok?
    ensures Arm(Arm(s, batchId, digests, date).value, batchId, digests, later) == Arm(s, batchId, digests, date)
  {
    hide ArmRequestOk, MapItems;
    var i := FindBatch(s.batches, batchId).value;
    var b := s.batches[i];
    var b' := ArmedBatch(b, digests, date);
    ArmedTwice(b, digests, date, later);
    var batches := s.batches[i := b'];
    FindStaged(batches, batchId, i);
    assert Arm(s, batchId, digests, date) == Ok(s.(batches := batches));
    assert batches[i := b'] == batches;
  }

  function ArmedBatch(b: Batch, digests: map<string, Digest>, date: Date): Batch {
    b.(armedAt := if b.armedAt.None? then Some(date) else b.armedAt,
       items := MapItems(b.items, it => ArmItem(it, digests)))
  }

  lemma ArmedTwice(b: Batch, digests: map<string, Digest>, date: Date, later: Date)
    requires ArmRequestOk(b, digests)
    ensures var b' := ArmedBatch(b, digests, date); ArmRequestOk(b', digests) && ArmedBatch(b', digests, later) == b'
  {
    ArmRequestStays(b, digests, date);
    ArmItemsTwice(b.items, digests);
    hide ArmRequestOk, MapItems, ArmItem;
  }

  lemma ArmItemsTwice(items: seq<Item>, digests: map<string, Digest>)
    ensures var once := MapItems(items, it => ArmItem(it, digests)); MapItems(once, it => ArmItem(it, digests)) == once
  {
    hide ArmItem;
    forall item
      ensures ArmItem(ArmItem(item, digests), digests) == ArmItem(item, digests)
    {
      ArmItemTwice(item, digests);
    }
  }

  lemma ArmItemTwice(item: Item, digests: map<string, Digest>)
    ensures ArmItem(ArmItem(item, digests), digests) == ArmItem(item, digests)
  {
  }

  lemma ArmRequestStays(b: Batch, digests: map<string, Digest>, date: Date)
    requires ArmRequestOk(b, digests)
    ensures ArmRequestOk(ArmedBatch(b, digests, date), digests)
  {
    var items := ArmedBatch(b, digests, date).items;
    forall id | id in digests
      ensures exists k :: 0 <= k < |items| && items[k].itemId == id && items[k].digest == digests[id]
    {
      var k :| 0 <= k < |b.items| && b.items[k].itemId == id && b.items[k].digest == digests[id];
      assert items[k] == ArmItem(b.items[k], digests);
    }
  }

  lemma RecoveringAgain(s: State, batchId: string, network: string, accountUuid: string, runId: string,
                        txids: set<string>,
                        url: string, date: Date, later: Date)
    requires Recover(s, batchId, network, accountUuid, runId, txids, url, date).Ok?
    ensures Recover(Recover(s, batchId, network, accountUuid, runId, txids, url, date).value.0,
                    batchId, network, accountUuid, runId, txids, url, later)
            == Recover(s, batchId, network, accountUuid, runId, txids, url, date)
  {
    var s' := Recover(s, batchId, network, accountUuid, runId, txids, url, date).value.0;
    match FindBatch(s.batches, batchId)
    case None =>
    case Some(i) =>
      FindStaged(s'.batches, batchId, i);
      RecoveredTwice(s.batches[i], url, date, later);
      assert forall k :: 0 <= k < |s.batches[i].items| ==> s'.batches[i].items[k].txid == s.batches[i].items[k].txid;
      assert s'.batches[i := s'.batches[i]] == s'.batches;
  }

  lemma RecoveredTwice(b: Batch, url: string, date: Date, later: Date)
    ensures RecoveredBatch(RecoveredBatch(b, url, date), url, later) == RecoveredBatch(b, url, date)
  {
    var b' := RecoveredBatch(b, url, date);
    var b'' := RecoveredBatch(b', url, later);
    assert b''.items == b'.items;
  }

  lemma RecoveringInterruptedAgain(s: State, date: Date, later: Date)
    ensures RecoverInterrupted(RecoverInterrupted(s, date), later) == RecoverInterrupted(s, date)
  {
    var s' := RecoverInterrupted(s, date);
    forall i | 0 <= i < |s.batches|
      ensures InterruptedBatch(s'.batches[i], later) == s'.batches[i]
    {
      assert InterruptedBatch(s'.batches[i], later).items == s'.batches[i].items;
    }
    assert RecoverInterrupted(s', later).batches == s'.batches;
  }

  // ----- Retiring

  lemma RetiredTwice(why: Retirement, b: Batch, height: U64, endpoint: string, date: Date)
    ensures var b' := RetiredBatch(why, b, height, endpoint);
            b.url == endpoint ==> !RetiresAny(why, b', height) && BatchReceipts(why, b', height, date, |b'.items|) == []
  {
    var b' := RetiredBatch(why, b, height, endpoint);
    if b.url == endpoint {
      assert forall k :: 0 <= k < |b'.items| ==> !Retires(why, b'.items[k], height);
      NothingRetires(why, b', height, date, |b'.items|);
    }
  }

  lemma {:induction false} NothingRetires(why: Retirement, b: Batch, height: U64, date: Date, n: nat)
    requires n <= |b.items| && forall k :: 0 <= k < |b.items| ==> !Retires(why, b.items[k], height)
    ensures BatchReceipts(why, b, height, date, n) == []
  {
    if n > 0 {
      NothingRetires(why, b, height, date, n - 1);
    }
  }

  lemma {:induction false} NoMoreReceipts(why: Retirement, batches: seq<Batch>, height: U64, endpoint: string,
                                          date: Date, n: nat)
    requires n <= |batches|
    requires forall i :: 0 <= i < |batches| && batches[i].url == endpoint ==>
               BatchReceipts(why, batches[i], height, date, |batches[i].items|) == []
    ensures RetiredReceipts(why, batches, height, endpoint, date, n) == []
  {
    if n > 0 {
      NoMoreReceipts(why, batches, height, endpoint, date, n - 1);
    }
  }

  /** Retiring again at the same height adds no second receipt. */
  lemma RetiringAgain(s: State, why: Retirement, height: U64, endpoint: string, date: Date, later: Date)
    ensures var s' := Retire(s, why, height, endpoint, date); Retire(s', why, height, endpoint, later) == s'
  {
    hide BatchReceipts, RetiresAny;
    var s' := Retire(s, why, height, endpoint, date);
    forall i | 0 <= i < |s'.batches|
      ensures s'.batches[i].url == endpoint ==>
                !RetiresAny(why, s'.batches[i], height)
                && BatchReceipts(why, s'.batches[i], height, later, |s'.batches[i].items|) == []
      ensures RetiredBatch(why, s'.batches[i], height, endpoint) == s'.batches[i]
    {
      RetiredTwice(why, s.batches[i], height, endpoint, later);
    }
    NoMoreReceipts(why, s'.batches, height, endpoint, later, |s'.batches|);
    var s'' := Retire(s', why, height, endpoint, later);
    assert s''.batches == s'.batches;
    assert s''.receipts == s'.receipts + [];
  }

  // ----- Acknowledging and removing

  lemma {:induction false} PruneSpentNothing(batches: seq<Batch>, drop: Batch -> bool)
    requires forall i :: 0 <= i < |batches| ==> !drop(batches[i])
    ensures PruneBatches(batches, {}, drop) == batches
  {
    if batches != [] {
      PruneSpentNothing(batches[1..], drop);
      WithoutNothing(batches[0]);
      assert batches == [batches[0]] + batches[1..];
    }
  }

  lemma AcknowledgingAgain(s: State, ids: set<ReceiptId>)
    ensures var s' := AcknowledgeReceipts(s, ids); AcknowledgeReceipts(s', ids) == s'
  {
    var s' := AcknowledgeReceipts(s, ids);
    FilterMembers(s.receipts, Unacknowledged(ids));
    assert forall r :: r in s'.receipts ==> r.Id() !in ids;
    assert AckedItemIds(s'.receipts, ids) == {} && EndedBatchIds(s'.receipts, ids) == {};
    FilterAll(s'.receipts, Unacknowledged(ids));
    var drop := Finished(s'.receipts, ids);
    forall i | 0 <= i < |s'.batches|
      ensures !drop(s'.batches[i])
    {
      var from := PruneOrigin(s.batches, AckedItemIds(s.receipts, ids), Finished(s.receipts, ids), i);
      WithoutNothing(s'.batches[i]);
    }
    PruneSpentNothing(s'.batches, drop);
  }

  /** A second discard finds nothing and says so. */
  lemma DiscardingAgain(s: State, batchId: string)
    requires DiscardBatch(s, batchId).Ok?
    requires forall i, j :: 0 <= i < j < |s.batches| ==> s.batches[i].batchId != s.batches[j].batchId
    ensures var s' := DiscardBatch(s, batchId).value.0; DiscardBatch(s', batchId) == Ok((s', false))
  {
  }

  lemma RevokingAgain(s: State, network: string, accountUuid: string)
    ensures var s' := Revoke(s, network, accountUuid); Revoke(s', network, accountUuid) == s'
    ensures forall b :: b in Revoke(s, network, accountUuid).batches ==>
              b in s.batches && !InScope(b, network, accountUuid)
  {
    var s' := Revoke(s, network, accountUuid);
    var ids := ScopeBatchIds(s.batches, network, accountUuid);
    FilterMembers(s.batches, OutsideBatches(ids));
    forall b | b in s'.batches
      ensures b in s.batches && !InScope(b, network, accountUuid)
    {
      assert b.batchId !in ids;
    }
    assert ScopeBatchIds(s'.batches, network, accountUuid) == {};
    FilterAll(s'.batches, OutsideBatches({}));
    FilterAll(s'.receipts, OutsideReceipts({}));
    var keep := (id: string) => !(ScopePrefix(network, accountUuid) <= id);
    KeptAgain(s.announced, keep);
    hide Filter;
  }

  lemma KeptAgain<T>(xs: seq<T>, keep: T -> bool)
    ensures Filter(Filter(xs, keep), keep) == Filter(xs, keep)
  {
    var kept := Filter(xs, keep);
    forall i | 0 <= i < |kept|
      ensures keep(kept[i])
    {
      assert kept[i] in kept;
      FilterMember(xs, keep, kept[i]);
    }
    FilterAll(kept, keep);
  }

  // ----- Waiting before a retry

  /**
   * After a submission of unknown outcome the item is not due for a minute, and for longer the more
   * often it was tried.
   */
  lemma RetryWaits(item: Item, error: string, date: Date, height: U64, later: Date)
    requires Due(Uncertain(item, error, date), height, later)
    ensures later - date >= 60
    ensures item.attemptCount >= 1 ==> later - date >= 300
    ensures item.attemptCount >= 2 ==> later - date >= 900
    ensures item.attemptCount >= 3 ==> later - date >= 3600
  {
  }
}
