/**
 * What every operation of the outbox keeps: unique ids, sound items, one
 * receipt for each terminal item and one terminal item for each receipt, and
 * notice markers that cannot ask for the same announcement twice. Beside the
 * invariant stands the relation between a stored item before and after a step.
 */
module OutboxInvariant {
  import opened Common
  import opened OutboxTypes
  import opened OutboxOps

  // ----- The invariant

  predicate ItemOk(item: Item) {
    && item.scheduledHeight < item.expiryHeight
    && item.itemId != "" && item.txid != "" && item.raw != []
    && item.digest == Sha256(item.raw)
    && item.txid == Lower(item.txid)
    && (item.status != Submitting ==> item.attemptId.None? && item.attemptStartedAt.None?)
  }

  predicate MarkersOk(b: Batch) {
    && (b.proofPendingAt.Some? ==> b.proofNotifiedAt.None?)
    && (b.heightPendingAt.Some? ==> b.heightNoticedAt.None?)
  }

  predicate Named(b: Batch) {
    b.batchId != "" && b.network != "" && b.accountUuid != "" && b.runId != "" && b.url != ""
  }

  ghost predicate BatchOk(b: Batch) {
    && Named(b)
    && 0 < b.timingMean <= b.timingMax
    && MarkersOk(b)
    && DistinctItems(b.items)
    && (forall k :: 0 <= k < |b.items| ==> ItemOk(b.items[k]))
  }

  ghost predicate UniqueBatches(batches: seq<Batch>) {
    forall i, j :: 0 <= i < |batches| && 0 <= j < |batches| && batches[i].batchId == batches[j].batchId ==> i == j
  }

  /** Item ids are unique over the whole outbox. */
  ghost predicate UniqueItems(batches: seq<Batch>) {
    forall a, b :: At(batches, a) && At(batches, b) && ItemAt(batches, a).itemId == ItemAt(batches, b).itemId ==> a == b
  }

  /** The receipt speaks about this item of this batch. */
  predicate Describes(r: Receipt, b: Batch, item: Item) {
    && r.batchId == b.batchId && r.itemId == item.itemId && r.txid == item.txid
    && r.network == b.network && r.accountUuid == b.accountUuid && r.runId == b.runId
    && item.status == StatusOf(r.outcome)
  }

  predicate DescribesAt(r: Receipt, batches: seq<Batch>, at: Location) {
    At(batches, at) && Describes(r, batches[at.batch], ItemAt(batches, at))
  }

  predicate SameSubject(q: Receipt, r: Receipt) {
    q.batchId == r.batchId && q.itemId == r.itemId
  }

  ghost predicate HasItem(r: Receipt, batches: seq<Batch>) {
    exists at :: DescribesAt(r, batches, at)
  }

  ghost predicate ReceiptsHaveItems(s: State) {
    forall m :: 0 <= m < |s.receipts| ==> HasItem(s.receipts[m], s.batches)
  }

  predicate Receipted(b: Batch, item: Item, receipts: seq<Receipt>) {
    exists m :: 0 <= m < |receipts| && Describes(receipts[m], b, item)
  }

  ghost predicate TerminalItemsHaveReceipts(s: State) {
    forall i, k :: 0 <= i < |s.batches| && 0 <= k < |s.batches[i].items| && Terminal(s.batches[i].items[k].status) ==>
      Receipted(s.batches[i], s.batches[i].items[k], s.receipts)
  }

  predicate DistinctReceipts(receipts: seq<Receipt>) {
    forall m, n :: 0 <= m < n < |receipts| ==> !SameSubject(receipts[m], receipts[n])
  }

  predicate AnnouncedOnce(s: State) {
    forall i :: 0 <= i < |s.batches| && s.batches[i].batchId in s.announced ==> s.batches[i].sentPendingAt.None?
  }

  ghost predicate Valid(s: State) {
    && (forall i :: 0 <= i < |s.batches| ==> BatchOk(s.batches[i]))
    && UniqueBatches(s.batches)
    && UniqueItems(s.batches)
    && ReceiptsHaveItems(s)
    && TerminalItemsHaveReceipts(s)
    && DistinctReceipts(s.receipts)
    && AnnouncedOnce(s)
  }

  // ----- One step in the life of an item

  /** The edges of an item's life cycle. */
  predicate Edge(from: Status, to: Status) {
    || from == to
    || (from == Staged && to == Armed)
    || (from == Armed && to == Submitting)
    || (from == Submitting && to == Armed)
    || (from == Submitting && (to == AcceptedAwaiting || to == RejectedAwaiting))
    || (from == Armed && (to == ExpiredAwaiting || to == NeedsResignAwaiting))
  }

  /** `listAttemptedTxids` reports exactly the items that satisfy this. */
  predicate Attempted(item: Item) {
    item.attemptCount > 0 || item.status == Submitting || item.status == AcceptedAwaiting
        || item.status == RejectedAwaiting
  }

  /**
   * What a step may do beyond following the edges: begin some submissions,
   * forget some attempts, and reset the notices of some batches.
   */
  datatype Licence = Licence(begins: set<string>, forgets: set<string>, resets: set<string>)

  const PLAIN := Licence({}, {}, {})

  predicate SamePayload(a: Item, b: Item) {
    && a.itemId == b.itemId && a.partIndex == b.partIndex && a.txid == b.txid && a.raw == b.raw
    && a.digest == b.digest && a.anchorHeight == b.anchorHeight && a.expiryHeight == b.expiryHeight
  }

  predicate ItemEvolves(a: Item, b: Item, licence: Licence) {
    && SamePayload(a, b)
    && ItemOk(b)
    && Edge(a.status, b.status)
    && a.attemptCount <= b.attemptCount
    && (a.status == Submitting && b.status == Submitting ==> b.attemptCount == a.attemptCount)
    && (b.status == Submitting ==> a.status == Submitting || a.itemId in licence.begins)
    && (Attempted(a) && a.itemId !in licence.forgets ==> Attempted(b))
    && (Attempted(b) && !Attempted(a) ==> a.itemId in licence.begins)
  }

  predicate SameBatch(a: Batch, b: Batch) {
    a.batchId == b.batchId && a.network == b.network && a.accountUuid == b.accountUuid && a.runId == b.runId
  }

  /**
   * A delivered proof-ready notice stays delivered, an owed verified notice stays
   * owed or is delivered, a notice is queued only for a watched height and where
   * it was not delivered, and the watched height stays or is given up.
   */
  predicate NoticesKept(a: Batch, b: Batch) {
    && (a.proofNotifiedAt.Some? ==> b.proofNotifiedAt.Some?)
    && (a.heightNoticedAt.Some? ==> b.heightNoticedAt.Some?)
    && (a.proofPendingAt.Some? ==> b.proofPendingAt.Some? || b.proofNotifiedAt.Some?)
    && (b.proofPendingAt.Some? && a.proofPendingAt.None? ==> a.proofNotifiedAt.None? && a.nextProofHeight.Some?)
    && (b.heightPendingAt.Some? && a.heightPendingAt.None? ==>
          && a.heightNoticedAt.None? && a.proofPendingAt.None? && a.proofNotifiedAt.None?
          && a.nextProofHeight.Some?)
    && (b.nextProofHeight == a.nextProofHeight || b.nextProofHeight.None?)
  }

  ghost predicate BatchEvolves(a: Batch, b: Batch, licence: Licence) {
    && SameBatch(a, b)
    && b.url != ""
    && 0 < b.timingMean <= b.timingMax
    && MarkersOk(b)
    && NoticesKept(a, b)
    && |a.items| == |b.items|
    && (forall k :: 0 <= k < |a.items| ==> ItemEvolves(a.items[k], b.items[k], licence))
  }

  /** A step that neither adds nor removes a record. */
  ghost predicate Evolves(s: State, s': State, licence: Licence) {
    && |s.batches| == |s'.batches|
    && (forall i :: 0 <= i < |s.batches| ==> BatchEvolves(s.batches[i], s'.batches[i], licence))
  }

  /** Any step, as seen by the items stored before and after it under the same id: they stay in their batch. */
  ghost predicate Lifecycle(s: State, s': State, licence: Licence) {
    forall a, b :: At(s.batches, a) && At(s'.batches, b) && ItemAt(s.batches, a).itemId == ItemAt(s'.batches, b).itemId
      ==> && SameBatch(s.batches[a.batch], s'.batches[b.batch])
          && ItemEvolves(ItemAt(s.batches, a), ItemAt(s'.batches, b), licence)
  }

  lemma EvolvesLifecycle(s: State, s': State, licence: Licence)
    requires UniqueItems(s.batches) && Evolves(s, s', licence)
    ensures Lifecycle(s, s', licence)
  {
    forall a, b | At(s.batches, a) && At(s'.batches, b) && ItemAt(s.batches, a).itemId == ItemAt(s'.batches, b).itemId
      ensures SameBatch(s.batches[a.batch], s'.batches[b.batch])
      ensures ItemEvolves(ItemAt(s.batches, a), ItemAt(s'.batches, b), licence)
    {
      assert BatchEvolves(s.batches[b.batch], s'.batches[b.batch], licence);
      assert ItemEvolves(ItemAt(s.batches, b), ItemAt(s'.batches, b), licence);
      assert a == b;
    }
  }

  lemma ItemReflexive(item: Item, licence: Licence)
    requires ItemOk(item)
    ensures ItemEvolves(item, item, licence)
  {
  }

  lemma BatchReflexive(b: Batch, licence: Licence)
    requires BatchOk(b)
    ensures BatchEvolves(b, b, licence)
  {
  }

  lemma EvolvesReflexive(s: State, licence: Licence)
    requires forall i :: 0 <= i < |s.batches| ==> BatchOk(s.batches[i])
    ensures Evolves(s, s, licence)
  {
  }

  // ----- Changing one batch

  /** The receipts added for one batch are those of the items that became terminal in it. */
  ghost predicate Accounts(a: Batch, b: Batch, added: seq<Receipt>)
    requires |a.items| == |b.items|
  {
    && (forall m :: 0 <= m < |added| ==> Finishes(a, b, added[m]))
    && (forall k :: 0 <= k < |a.items| && Terminal(b.items[k].status) && !Terminal(a.items[k].status) ==>
          Receipted(b, b.items[k], added))
    && DistinctReceipts(added)
  }

  /** The receipt is about an item that was not terminal before. */
  ghost predicate Finishes(a: Batch, b: Batch, r: Receipt)
    requires |a.items| == |b.items|
  {
    exists k :: 0 <= k < |a.items| && !Terminal(a.items[k].status) && Describes(r, b, b.items[k])
  }

  ghost predicate BatchStep(s: State, i: nat, b: Batch, added: seq<Receipt>, licence: Licence)
    requires i < |s.batches|
  {
    && BatchEvolves(s.batches[i], b, licence)
    && Accounts(s.batches[i], b, added)
    && (b.batchId in s.announced ==> b.sentPendingAt.None?)
  }

  function AfterBatchStep(s: State, i: nat, b: Batch, added: seq<Receipt>): State
    requires i < |s.batches|
  {
    WithBatch(s, i, b).(receipts := s.receipts + added)
  }

  lemma BatchStepShape(s: State, i: nat, b: Batch, added: seq<Receipt>, licence: Licence)
    requires Valid(s) && i < |s.batches| && BatchStep(s, i, b, added, licence)
    ensures Evolves(s, AfterBatchStep(s, i, b, added), licence)
    ensures UniqueItems(AfterBatchStep(s, i, b, added).batches)
    ensures BatchOk(b)
  {
    var s' := AfterBatchStep(s, i, b, added);
    forall x, y | At(s'.batches, x) && At(s'.batches, y) && ItemAt(s'.batches, x).itemId == ItemAt(s'.batches, y).itemId
      ensures x == y
    {
      assert ItemAt(s.batches, x).itemId == ItemAt(s.batches, y).itemId;
    }
    assert DistinctItems(b.items) by {
      var a := s.batches[i];
      assert forall k :: 0 <= k < |a.items| ==> ItemEvolves(a.items[k], b.items[k], licence);
    }
    forall j | 0 <= j < |s.batches|
      ensures BatchEvolves(s.batches[j], s'.batches[j], licence)
    {
      BatchReflexive(s.batches[j], licence);
    }
  }

  /** A terminal item keeps its status, so a receipt keeps describing it. */
  lemma TerminalStays(a: Batch, b: Batch, k: nat, licence: Licence)
    requires BatchEvolves(a, b, licence) && k < |a.items|
    ensures Terminal(a.items[k].status) ==> b.items[k].status == a.items[k].status
    ensures a.items[k].itemId == b.items[k].itemId && a.items[k].txid == b.items[k].txid
  {
    assert ItemEvolves(a.items[k], b.items[k], licence);
  }

  lemma StoredReceiptStays(batches: seq<Batch>, i: nat, b: Batch, licence: Licence, r: Receipt)
    requires i < |batches| && BatchEvolves(batches[i], b, licence)
    requires HasItem(r, batches)
    ensures HasItem(r, batches[i := b])
  {
    var at :| DescribesAt(r, batches, at);
    if at.batch == i {
      TerminalStays(batches[i], b, at.item, licence);
    }
    assert DescribesAt(r, batches[i := b], at);
  }

  lemma AddedReceiptHasItem(batches: seq<Batch>, i: nat, b: Batch, r: Receipt)
    requires i < |batches| && |batches[i].items| == |b.items| && Finishes(batches[i], b, r)
    ensures HasItem(r, batches[i := b])
  {
    var k :| 0 <= k < |b.items| && Describes(r, b, b.items[k]);
    assert DescribesAt(r, batches[i := b], Location(i, k));
  }

  /** One receipt of the state after a batch step, old or new. */
  lemma BatchStepReceiptHasItem(s: State, i: nat, b: Batch, added: seq<Receipt>, licence: Licence, m: nat)
    requires ReceiptsHaveItems(s) && i < |s.batches| && |b.items| == |s.batches[i].items|
    requires BatchEvolves(s.batches[i], b, licence) && Accounts(s.batches[i], b, added)
    requires m < |s.receipts + added|
    ensures HasItem((s.receipts + added)[m], s.batches[i := b])
  {
    hide HasItem, BatchEvolves, Finishes, Receipted, DistinctReceipts;
    if m < |s.receipts| {
      StoredReceiptStays(s.batches, i, b, licence, s.receipts[m]);
    } else {
      AddedReceiptHasItem(s.batches, i, b, added[m - |s.receipts|]);
    }
  }

  lemma BatchStepReceiptsHaveItems(s: State, i: nat, b: Batch, added: seq<Receipt>, licence: Licence)
    requires ReceiptsHaveItems(s) && i < |s.batches|
    requires BatchEvolves(s.batches[i], b, licence) && Accounts(s.batches[i], b, added)
    ensures ReceiptsHaveItems(AfterBatchStep(s, i, b, added))
  {
    assert |b.items| == |s.batches[i].items|;
    forall m | 0 <= m < |s.receipts + added|
      ensures HasItem((s.receipts + added)[m], s.batches[i := b])
    {
      BatchStepReceiptHasItem(s, i, b, added, licence, m);
    }
    hide *;
    ReceiptsOf(AfterBatchStep(s, i, b, added), s.receipts + added, s.batches[i := b]);
  }

  lemma ReceiptsOf(s: State, receipts: seq<Receipt>, batches: seq<Batch>)
    requires s.receipts == receipts && s.batches == batches
    requires forall m :: 0 <= m < |receipts| ==> HasItem(receipts[m], batches)
    ensures ReceiptsHaveItems(s)
  {
  }

  lemma ReceiptedAppend(b: Batch, item: Item, receipts: seq<Receipt>, added: seq<Receipt>)
    requires Receipted(b, item, receipts) || Receipted(b, item, added)
    ensures Receipted(b, item, receipts + added)
  {
    if Receipted(b, item, receipts) {
      var m :| 0 <= m < |receipts| && Describes(receipts[m], b, item);
      assert (receipts + added)[m] == receipts[m];
    } else {
      var m :| 0 <= m < |added| && Describes(added[m], b, item);
      assert (receipts + added)[|receipts| + m] == added[m];
    }
  }

  lemma ReceiptedStays(a: Batch, b: Batch, k: nat, licence: Licence, receipts: seq<Receipt>)
    requires BatchEvolves(a, b, licence) && k < |a.items| && Terminal(a.items[k].status)
    requires Receipted(a, a.items[k], receipts)
    ensures Receipted(b, b.items[k], receipts)
  {
    TerminalStays(a, b, k, licence);
    var m :| 0 <= m < |receipts| && Describes(receipts[m], a, a.items[k]);
    assert Describes(receipts[m], b, b.items[k]);
  }

  lemma BatchStepTerminalItems(s: State, i: nat, b: Batch, added: seq<Receipt>, licence: Licence)
    requires TerminalItemsHaveReceipts(s) && i < |s.batches|
    requires BatchEvolves(s.batches[i], b, licence) && Accounts(s.batches[i], b, added)
    ensures TerminalItemsHaveReceipts(AfterBatchStep(s, i, b, added))
  {
    var s' := AfterBatchStep(s, i, b, added);
    forall j, k | 0 <= j < |s'.batches| && 0 <= k < |s'.batches[j].items| && Terminal(s'.batches[j].items[k].status)
      ensures Receipted(s'.batches[j], s'.batches[j].items[k], s'.receipts)
    {
      if j == i && Terminal(s.batches[i].items[k].status) {
        ReceiptedStays(s.batches[i], b, k, licence, s.receipts);
      }
      ReceiptedAppend(s'.batches[j], s'.batches[j].items[k], s.receipts, added);
    }
  }

  lemma AddedReceiptIsNew(batches: seq<Batch>, i: nat, b: Batch, licence: Licence, q: Receipt, r: Receipt)
    requires UniqueItems(batches) && i < |batches|
    requires BatchEvolves(batches[i], b, licence)
    requires HasItem(q, batches) && Finishes(batches[i], b, r)
    ensures !SameSubject(q, r)
  {
    var at :| DescribesAt(q, batches, at);
    var k :| 0 <= k < |b.items| && !Terminal(batches[i].items[k].status) && Describes(r, b, b.items[k]);
    TerminalStays(batches[i], b, k, licence);
    assert At(batches, Location(i, k)) && ItemAt(batches, Location(i, k)).itemId == r.itemId;
  }

  lemma BatchStepDistinctReceipts(s: State, i: nat, b: Batch, added: seq<Receipt>, licence: Licence)
    requires ReceiptsHaveItems(s) && UniqueItems(s.batches) && DistinctReceipts(s.receipts) && i < |s.batches|
    requires BatchEvolves(s.batches[i], b, licence) && Accounts(s.batches[i], b, added)
    ensures DistinctReceipts(s.receipts + added)
  {
    var receipts := s.receipts + added;
    forall m, n | 0 <= m < n < |receipts|
      ensures !SameSubject(receipts[m], receipts[n])
    {
      if m < |s.receipts| <= n {
        AddedReceiptIsNew(s.batches, i, b, licence, receipts[m], receipts[n]);
      }
    }
  }

  /** One batch follows the life cycle and accounts for what became terminal: the invariant is kept. */
  lemma BatchStepKeepsValid(s: State, i: nat, b: Batch, added: seq<Receipt>, licence: Licence)
    requires Valid(s) && i < |s.batches| && BatchStep(s, i, b, added, licence)
    ensures Valid(AfterBatchStep(s, i, b, added))
    ensures Evolves(s, AfterBatchStep(s, i, b, added), licence)
  {
    BatchStepShape(s, i, b, added, licence);
    BatchStepReceiptsHaveItems(s, i, b, added, licence);
    BatchStepTerminalItems(s, i, b, added, licence);
    BatchStepDistinctReceipts(s, i, b, added, licence);
    var s' := AfterBatchStep(s, i, b, added);
    assert UniqueBatches(s'.batches) by {
      assert forall j :: 0 <= j < |s.batches| ==> s'.batches[j].batchId == s.batches[j].batchId;
    }
  }
}
