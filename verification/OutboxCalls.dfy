/**
 * What the app's calls do to a record, said of payloads, receipts and scopes: who
 * is armed or recovered, what an acknowledgement, a discard or a revocation
 * removes, and what each refuses.
 */
module OutboxCalls {
  import opened Common
  import opened Sequences
  import opened OutboxTypes
  import opened OutboxOps
  import opened OutboxInvariant
  import opened OutboxRecords

  lemma StoredBatch(s: State, i: nat)
    requires Valid(s) && i < |s.batches|
    ensures FindBatch(s.batches, s.batches[i].batchId) == Some(i)
    ensures BatchOk(s.batches[i])
  {
    var j := FindBatch(s.batches, s.batches[i].batchId).value;
    assert UniqueBatches(s.batches) && s.batches[j].batchId == s.batches[i].batchId;
  }

  // ----- Staging

  /** The record holds this very transaction under its id, or nothing that resembles it. */
  predicate Agrees(existing: seq<Item>, incoming: Item) {
    || (exists k ::
          0 <= k < |existing| && existing[k].itemId == incoming.itemId
          && SameTransaction(existing[k], incoming))
    || (forall k :: 0 <= k < |existing| ==>
          existing[k].itemId != incoming.itemId && existing[k].txid != incoming.txid
          && existing[k].partIndex != incoming.partIndex)
  }

  lemma {:induction false} NewItemsExactly(existing: seq<Item>, incoming: seq<Item>)
    requires DistinctItems(existing)
    ensures NewItems(existing, incoming).Some? <==> forall j :: 0 <= j < |incoming| ==> Agrees(existing, incoming[j])
    ensures NewItems(existing, incoming).Some? ==>
              forall it :: it in NewItems(existing, incoming).value <==>
                           it in incoming && FindItem(existing, it.itemId).None?
  {
    if incoming != [] {
      hide DistinctItems;
      NewItemsExactly(existing, incoming[1..]);
      AgreesExactly(existing, incoming[0]);
      assert incoming == [incoming[0]] + incoming[1..];
      hide SameTransaction, Clashes, Agrees;
      assert (forall j :: 0 <= j < |incoming| ==> Agrees(existing, incoming[j]))
        <==> Agrees(existing, incoming[0])
             && forall j :: 0 <= j < |incoming[1..]| ==> Agrees(existing, incoming[1..][j]) by {
        assert forall j :: 1 <= j < |incoming| ==> incoming[j] == incoming[1..][j - 1];
      }
    }
  }

  lemma AgreesExactly(existing: seq<Item>, incoming: Item)
    requires DistinctItems(existing)
    ensures Agrees(existing, incoming)
            <==> match FindItem(existing, incoming.itemId)
                 case Some(k) => SameTransaction(existing[k], incoming)
                 case None => !Clashes(existing, incoming)
  {
    match FindItem(existing, incoming.itemId)
    case Some(k) =>
      forall m | 0 <= m < |existing| && existing[m].itemId == incoming.itemId
        ensures m == k
      {
      }
    case None =>
  }

  /** A stored record takes a batch of its own run, unless a submission under way would change node or cadence. */
  predicate Takes(b: Batch, batch: Batch) {
    && ValidNewBatch(batch)
    && b.network == batch.network && b.accountUuid == batch.accountUuid && b.runId == batch.runId
    && ((exists k :: 0 <= k < |b.items| && b.items[k].status == Submitting) ==>
          b.url == batch.url && b.timingMean == batch.timingMean && b.timingMax == batch.timingMax)
    && forall j :: 0 <= j < |batch.items| ==> Agrees(b.items, batch.items[j])
  }

  /** The record with the batch's node, cadence and new items; its notices start over as far as that is news. */
  ghost predicate Taken(a: Batch, batch: Batch, b: Batch) {
    && SameBatch(a, b) && b.armedAt == a.armedAt && b.createdAt == a.createdAt
    && b.url == batch.url && b.timingMean == batch.timingMean && b.timingMax == batch.timingMax
    && b.nextProofHeight == batch.nextProofHeight
    && a.items <= b.items
    && (forall it :: it in b.items[|a.items|..] <==> it in batch.items && FindItem(a.items, it.itemId).None?)
    && (a.nextProofHeight != batch.nextProofHeight ==>
          && b.proofPendingAt.None? && b.proofNotifiedAt.None? && b.heightPendingAt.None? && b.heightNoticedAt.None?)
    && (a.nextProofHeight == batch.nextProofHeight ==>
          && b.proofPendingAt == a.proofPendingAt && b.proofNotifiedAt == a.proofNotifiedAt
          && b.heightPendingAt == a.heightPendingAt && b.heightNoticedAt == a.heightNoticedAt)
    && (if a.nextProofHeight != batch.nextProofHeight || |b.items| > |a.items|
        then b.sentPendingAt.None? && b.sentNotifiedAt.None?
        else b.sentPendingAt == a.sentPendingAt && b.sentNotifiedAt == a.sentNotifiedAt)
  }

  /** Restaging a stored record, exactly: what it accepts, what it refuses, and what it makes of the record. */
  lemma RestageExactly(s: State, i: nat, batch: Batch)
    requires Valid(s) && i < |s.batches| && s.batches[i].batchId == batch.batchId
    ensures var r := Stage(s, batch);
            && (r.Ok? <==> Takes(s.batches[i], batch))
            && (r.Err? ==> r.error == if ValidNewBatch(batch) then ConflictingBatch else InvalidBatch)
            && (r.Ok? ==>
                  && |r.value.batches| == |s.batches| && r.value == s.(batches := r.value.batches)
                  && (forall j :: 0 <= j < |s.batches| && j != i ==> r.value.batches[j] == s.batches[j])
                  && Taken(s.batches[i], batch, r.value.batches[i]))
  {
    StoredBatch(s, i);
    var b := s.batches[i];
    hide Valid, ValidNewBatch, Agrees, NewItems, Restaged, Taken;
    NewItemsExactly(b.items, batch.items);
    if NewItems(b.items, batch.items).Some? && SameRun(b, batch) {
      RestagedIsTaken(b, batch, NewItems(b.items, batch.items).value);
    }
  }

  predicate SameRun(b: Batch, batch: Batch) {
    b.batchId == batch.batchId && b.network == batch.network && b.accountUuid == batch.accountUuid
    && b.runId == batch.runId
  }

  lemma RestagedIsTaken(a: Batch, batch: Batch, added: seq<Item>)
    requires SameRun(a, batch)
    requires forall it :: it in added <==> it in batch.items && FindItem(a.items, it.itemId).None?
    ensures Taken(a, batch, Restaged(a, batch, added))
  {
    hide FindItem;
    assert Restaged(a, batch, added).items[|a.items|..] == added;
  }

  // ----- Arming

  /** The request names something to do, and gives for every id the digest of the very bytes stored under it. */
  predicate NamesItsPayloads(b: Batch, digests: map<string, Digest>) {
    && (digests.Keys != {} || b.nextProofHeight.Some?)
    && (forall id :: id in digests ==>
          exists k :: 0 <= k < |b.items| && b.items[k].itemId == id && digests[id].data == b.items[k].raw)
  }

  /**
   * Arming, exactly: granted if and only if each named id has the digest of its
   * stored bytes; then exactly the named staged items become armed, every other item
   * and batch stays as it was, and the batch keeps its first arming date.
   */
  lemma ArmExactly(s: State, i: nat, digests: map<string, Digest>, date: Date)
    requires Valid(s) && i < |s.batches|
    ensures var b := s.batches[i];
            var r := Arm(s, b.batchId, digests, date);
            && (r.Ok? <==> NamesItsPayloads(b, digests))
            && (r.Err? ==> r.error == InvalidArmRequest)
            && (r.Ok? ==>
                  && |r.value.batches| == |s.batches| && r.value.receipts == s.receipts
                  && (forall j :: 0 <= j < |s.batches| && j != i ==> r.value.batches[j] == s.batches[j])
                  && ArmsItems(b, r.value.batches[i], digests, date))
  {
    StoredBatch(s, i);
    var b := s.batches[i];
    assert forall k :: 0 <= k < |b.items| ==> ItemOk(b.items[k]);
    hide Valid, BatchOk;
    ArmRequestExactly(b, digests);
  }

  lemma ArmRequestExactly(b: Batch, digests: map<string, Digest>)
    requires forall k :: 0 <= k < |b.items| ==> ItemOk(b.items[k])
    ensures ArmRequestOk(b, digests) <==> NamesItsPayloads(b, digests)
  {
    forall id | id in digests
      ensures (exists k :: 0 <= k < |b.items| && b.items[k].itemId == id && b.items[k].digest == digests[id])
              <==> exists k :: 0 <= k < |b.items| && b.items[k].itemId == id && digests[id].data == b.items[k].raw
    {
      forall k | 0 <= k < |b.items|
        ensures b.items[k].digest == digests[id] <==> digests[id].data == b.items[k].raw
      {
        assert b.items[k].digest == Sha256(b.items[k].raw);
        assert digests[id] == Sha256(digests[id].data);
      }
    }
  }

  /** Exactly the named staged items become armed. */
  predicate ArmsItems(a: Batch, b: Batch, digests: map<string, Digest>, date: Date) {
    && b == a.(armedAt := b.armedAt, items := b.items) && |b.items| == |a.items|
    && (a.armedAt.Some? ==> b.armedAt == a.armedAt) && (a.armedAt.None? ==> b.armedAt == Some(date))
    && (forall k :: 0 <= k < |a.items| ==>
          if a.items[k].itemId in digests && a.items[k].status == Staged
          then b.items[k] == a.items[k].(status := Armed)
          else b.items[k] == a.items[k])
  }

  // ----- Recovery

  /**
   * Recovery, exactly: with a node to go to and all transactions known, nothing of
   * the record is left staged or in submission, an interrupted submission counts as
   * one more attempt and every finished item stays; the record is armed if anything
   * is left to send, on the new node.
   */
  lemma RecoverExactly(s: State, i: nat, network: string, accountUuid: string, runId: string, txids: set<string>,
                       url: string, date: Date)
    requires Valid(s) && i < |s.batches|
    ensures var b := s.batches[i];
            var r := Recover(s, b.batchId, network, accountUuid, runId, txids, url, date);
            && (r.Ok? <==> txids != {} && url != "" && RecoverMatches(b, network, accountUuid, runId, txids))
            && (r.Err? ==> r.error == if txids == {} || url == "" then InvalidArmRequest else ConflictingBatch)
            && (r.Ok? ==>
                  && r.value.1 && |r.value.0.batches| == |s.batches| && r.value.0.receipts == s.receipts
                  && (forall j :: 0 <= j < |s.batches| && j != i ==> r.value.0.batches[j] == s.batches[j])
                  && RecoversItems(b, r.value.0.batches[i], url, date))
  {
    StoredBatch(s, i);
    hide Valid, BatchOk, RecoveredBatch;
    if RecoverMatches(s.batches[i], network, accountUuid, runId, txids) {
      RecoveredItems(s.batches[i], url, date);
    }
  }

  lemma RecoveredItems(a: Batch, url: string, date: Date)
    ensures RecoversItems(a, RecoveredBatch(a, url, date), url, date)
  {
    var b := RecoveredBatch(a, url, date);
    forall k | 0 <= k < |a.items|
      ensures RecoversItem(a.items[k], b.items[k], date)
      ensures b.items[k].status == Armed <==> !Terminal(a.items[k].status)
    {
    }
  }

  predicate RecoversItem(a: Item, b: Item, date: Date) {
    && SamePayload(a, b) && b.scheduledHeight == a.scheduledHeight
    && (a.status == Staged ==> b == a.(status := Armed))
    && (a.status == Submitting ==> b.status == Armed && b.attemptCount == a.attemptCount + 1 && b.attemptId.None?
                                   && b.nextAttemptAt.Some? && b.nextAttemptAt.value > date)
    && (a.status != Staged && a.status != Submitting ==> b == a)
  }

  predicate RecoversItems(a: Batch, b: Batch, url: string, date: Date) {
    && b == a.(armedAt := b.armedAt, url := url, items := b.items) && |b.items| == |a.items|
    && (forall k :: 0 <= k < |a.items| ==> RecoversItem(a.items[k], b.items[k], date))
    && (a.armedAt.Some? ==> b.armedAt == a.armedAt)
    && (a.armedAt.None? ==>
          b.armedAt == if exists k :: 0 <= k < |a.items| && !Terminal(a.items[k].status) then Some(date) else None)
  }

  // ----- Acknowledging receipts

  /** The receipt is acknowledged. */
  predicate Acked(s: State, ids: set<ReceiptId>, m: nat)
    requires m < |s.receipts|
  {
    s.receipts[m].Id() in ids
  }

  /** Every receipt of the batch is acknowledged, among them one that ended its delivery. */
  ghost predicate EndAcked(s: State, ids: set<ReceiptId>, batchId: string) {
    && (exists m :: 0 <= m < |s.receipts| && Acked(s, ids, m) && s.receipts[m].batchId == batchId
                    && s.receipts[m].outcome != Accepted && s.receipts[m].outcome != AcceptedEquivalent)
    && (forall m :: 0 <= m < |s.receipts| && s.receipts[m].batchId == batchId ==> Acked(s, ids, m))
  }

  /** The item's own receipt is acknowledged. */
  ghost predicate ItemAcked(s: State, ids: set<ReceiptId>, itemId: string) {
    exists m :: 0 <= m < |s.receipts| && Acked(s, ids, m) && s.receipts[m].itemId == itemId
  }

  /** Nothing is left to do for the batch once the acknowledged items are gone. */
  ghost predicate NothingLeft(s: State, ids: set<ReceiptId>, b: Batch) {
    && (forall k :: 0 <= k < |b.items| ==> ItemAcked(s, ids, b.items[k].itemId))
    && b.nextProofHeight.None? && b.sentPendingAt.None?
  }

  lemma EndedExactly(s: State, ids: set<ReceiptId>, batchId: string)
    ensures batchId in EndedBatchIds(s.receipts, ids) <==> EndAcked(s, ids, batchId)
  {
    FilterMembers(s.receipts, Unacknowledged(ids));
    var kept := KeptReceipts(s.receipts, ids);
    assert (forall q :: q in kept ==> q.batchId != batchId)
      <==> forall m :: 0 <= m < |s.receipts| && s.receipts[m].batchId == batchId ==> Acked(s, ids, m) by {
      forall m | 0 <= m < |s.receipts|
        ensures s.receipts[m] in kept <==> !Acked(s, ids, m)
      {
      }
    }
  }

  lemma AckedItemExactly(s: State, ids: set<ReceiptId>, itemId: string)
    ensures itemId in AckedItemIds(s.receipts, ids) <==> ItemAcked(s, ids, itemId)
  {
  }

  lemma SpentExactly(s: State, ids: set<ReceiptId>, b: Batch)
    ensures Spent(WithoutItems(b, AckedItemIds(s.receipts, ids))) <==> NothingLeft(s, ids, b)
  {
    var itemIds := AckedItemIds(s.receipts, ids);
    FilterMembers(b.items, NotIn(itemIds));
    var kept := WithoutItems(b, itemIds).items;
    forall k | 0 <= k < |b.items|
      ensures b.items[k] in kept <==> !ItemAcked(s, ids, b.items[k].itemId)
    {
      AckedItemExactly(s, ids, b.items[k].itemId);
    }
    if kept != [] {
      assert kept[0] in b.items;
    }
  }

  /**
   * What an acknowledgement removes, exactly: the acknowledged receipts; a batch
   * once all its receipts are acknowledged and one of them ended its delivery, with
   * whatever items it still holds, or once nothing is left to do for it; and of the
   * other batches the acknowledged items only.
   */
  lemma AcknowledgingRemovesExactly(s: State, ids: set<ReceiptId>, i: nat)
    requires Valid(s) && i < |s.batches|
    ensures var b, s' := s.batches[i], AcknowledgeReceipts(s, ids);
            && (FindBatch(s'.batches, b.batchId).None? <==> EndAcked(s, ids, b.batchId) || NothingLeft(s, ids, b))
            && (FindBatch(s'.batches, b.batchId).Some? ==>
                  KeepsUnacked(s, ids, b, s'.batches[FindBatch(s'.batches, b.batchId).value]))
            && (forall q :: q in s'.receipts <==> q in s.receipts && q.Id() !in ids)
  {
    var b, s' := s.batches[i], AcknowledgeReceipts(s, ids);
    var itemIds, drop := AckedItemIds(s.receipts, ids), Finished(s.receipts, ids);
    assert UniqueBatches(s.batches);
    FilterMembers(s.receipts, Unacknowledged(ids));
    EndedExactly(s, ids, b.batchId);
    SpentExactly(s, ids, b);
    hide Valid, EndedBatchIds, AckedItemIds, Spent, EndAcked, NothingLeft, KeepsUnacked;
    if drop(b) {
      DroppedIsGone(s, itemIds, drop, i);
    } else {
      var j := PruneComplete(s.batches, itemIds, drop, i);
      KeptUnacked(s, ids, b);
      var found := FindBatch(s'.batches, b.batchId).value;
      var from := PruneOrigin(s.batches, itemIds, drop, found);
      assert from == i;
    }
  }

  lemma DroppedIsGone(s: State, itemIds: set<string>, drop: Batch -> bool, i: nat)
    requires UniqueBatches(s.batches) && i < |s.batches| && drop(s.batches[i])
    ensures FindBatch(PruneBatches(s.batches, itemIds, drop), s.batches[i].batchId).None?
  {
    var found := FindBatch(PruneBatches(s.batches, itemIds, drop), s.batches[i].batchId);
    if found.Some? {
      var from := PruneOrigin(s.batches, itemIds, drop, found.value);
      assert false;
    }
  }

  /** The batch as it was, without the acknowledged items. */
  ghost predicate KeepsUnacked(s: State, ids: set<ReceiptId>, a: Batch, b: Batch) {
    && b == a.(items := b.items)
    && forall it :: it in b.items <==> it in a.items && !ItemAcked(s, ids, it.itemId)
  }

  lemma KeptUnacked(s: State, ids: set<ReceiptId>, b: Batch)
    ensures KeepsUnacked(s, ids, b, WithoutItems(b, AckedItemIds(s.receipts, ids)))
  {
    FilterMembers(b.items, NotIn(AckedItemIds(s.receipts, ids)));
    forall it: Item
      ensures it.itemId in AckedItemIds(s.receipts, ids) <==> ItemAcked(s, ids, it.itemId)
    {
      AckedItemExactly(s, ids, it.itemId);
    }
  }

  // ----- Discarding and revoking

  /** Discarding, exactly: the record goes unless it was sent or is being sent, or a receipt of it is waiting. */
  lemma DiscardExactly(s: State, i: nat)
    requires Valid(s) && i < |s.batches|
    ensures var b := s.batches[i];
            var r := DiscardBatch(s, b.batchId);
            && (r.Ok? <==>
                && (forall k :: 0 <= k < |b.items| ==> b.items[k].status != Submitting && b.items[k].attemptCount == 0)
                && (forall m :: 0 <= m < |s.receipts| ==> s.receipts[m].batchId != b.batchId))
            && (r.Err? ==> r.error == ConflictingBatch)
            && (r.Ok? ==> r.value.1 && r.value.0 == s.(batches := r.value.0.batches)
                          && forall other :: other in r.value.0.batches <==> other in s.batches && other != b)
  {
    StoredBatch(s, i);
    assert UniqueBatches(s.batches);
    hide Valid, BatchOk;
    RemovedExactly(s.batches, i);
  }

  lemma RemovedExactly(batches: seq<Batch>, i: nat)
    requires UniqueBatches(batches) && i < |batches|
    ensures forall other :: other in RemoveAt(batches, i) <==> other in batches && other != batches[i]
  {
    forall other
      ensures other in RemoveAt(batches, i) <==> other in batches && other != batches[i]
    {
      if other in batches && other != batches[i] {
        var j :| 0 <= j < |batches| && batches[j] == other;
        assert if j < i then other in batches[..i] else other in batches[i + 1..];
      }
      if other in RemoveAt(batches, i) {
        var j :| 0 <= j < |RemoveAt(batches, i)| && RemoveAt(batches, i)[j] == other;
        var from := if j < i then j else j + 1;
        assert batches[from] == other && from != i;
      }
    }
  }

  /**
   * Revoking, exactly: the batches of the scope go, with all their receipts and the
   * scope's cursor; every other batch stays as it is, with its receipts.
   */
  lemma RevokeExactly(s: State, network: string, accountUuid: string)
    requires Valid(s)
    ensures var s' := Revoke(s, network, accountUuid);
            && (forall b :: b in s'.batches <==> b in s.batches && !InScope(b, network, accountUuid))
            && (forall q :: q in s'.receipts <==> q in s.receipts && !OfRevoked(s, q, network, accountUuid))
            && s'.lastScope == (if s.lastScope == Some(network + ":" + accountUuid) then None else s.lastScope)
            && s'.lastEndpoint == s.lastEndpoint
            && (forall id :: id in s'.announced <==>
                  id in s.announced && !(network + ":" + accountUuid + ":" <= id))
  {
    var ids := ScopeBatchIds(s.batches, network, accountUuid);
    FilterMembers(s.batches, OutsideBatches(ids));
    FilterMembers(s.receipts, OutsideReceipts(ids));
    FilterMembers(s.announced, (id: string) => !(ScopePrefix(network, accountUuid) <= id));
    assert UniqueBatches(s.batches);
    hide Valid;
    ScopeIdsExactly(s, network, accountUuid);
  }

  /** The receipt is about a batch of the scope. */
  ghost predicate OfRevoked(s: State, q: Receipt, network: string, accountUuid: string) {
    exists b :: b in s.batches && InScope(b, network, accountUuid) && b.batchId == q.batchId
  }

  lemma ScopeIdsExactly(s: State, network: string, accountUuid: string)
    requires UniqueBatches(s.batches)
    ensures forall b :: b in s.batches ==>
              (b.batchId in ScopeBatchIds(s.batches, network, accountUuid) <==> InScope(b, network, accountUuid))
  {
    forall b, c | b in s.batches && c in s.batches && b.batchId == c.batchId
      ensures b == c
    {
      var i :| 0 <= i < |s.batches| && s.batches[i] == b;
      var j :| 0 <= j < |s.batches| && s.batches[j] == c;
      assert i == j;
    }
  }

  // ----- The "transfers sent" notice

  /**
   * Acknowledging the notice, exactly: granted if it is owed; the id joins the
   * announced ones, and the record goes if it holds and watches nothing, and
   * otherwise counts as told.
   */
  lemma SentAcknowledgedExactly(s: State, i: nat, date: Date)
    requires Valid(s) && i < |s.batches|
    ensures var b := s.batches[i];
            var r := AcknowledgeSent(s, b.batchId, date);
            && (r.Ok? <==> b.sentPendingAt.Some?)
            && (r.Err? ==> r.error == InvalidTransition)
            && (r.Ok? ==>
                  && (forall id :: id in r.value.announced <==> id in s.announced || id == b.batchId)
                  && r.value.receipts == s.receipts
                  && if b.items == [] && b.nextProofHeight.None?
                     then forall other :: other in r.value.batches <==> other in s.batches && other != b
                     else r.value.batches == s.batches[i := b.(sentPendingAt := None, sentNotifiedAt := Some(date))])
  {
    StoredBatch(s, i);
    assert UniqueBatches(s.batches);
    hide Valid, BatchOk;
    RemovedExactly(s.batches, i);
  }
}
