/** The operations that add or remove records: staging, acknowledging, discarding and revoking. */
module OutboxRecords {
  import opened Common
  import opened Sequences
  import opened OutboxTypes
  import opened OutboxOps
  import opened OutboxInvariant
  import opened OutboxSteps

  // ----- Staging

  /** An item as its initializer leaves it. */
  predicate Constructed(item: Item) {
    && item.digest == Sha256(item.raw) && item.txid == Lower(item.txid)
    && item.status == Staged && item.attemptCount == 0
    && item.attemptId.None? && item.attemptStartedAt.None? && item.nextAttemptAt.None?
  }

  /**
   * What staging relies on without checking: the batch comes from the channel's
   * decoder, and no other batch uses its item ids.
   */
  predicate FreshBatch(s: State, batch: Batch) {
    && batch.armedAt.None?
    && (forall k :: 0 <= k < |batch.items| ==> Constructed(batch.items[k]))
    && (forall i, j, k ::
          0 <= i < |s.batches| && s.batches[i].batchId != batch.batchId
          && 0 <= j < |s.batches[i].items| && 0 <= k < |batch.items|
          ==> s.batches[i].items[j].itemId != batch.items[k].itemId)
  }

  lemma HasItemInExtension(r: Receipt, batches: seq<Batch>, i: nat, b: Batch)
    requires i < |batches| && SameBatch(batches[i], b)
    requires |batches[i].items| <= |b.items| && b.items[..|batches[i].items|] == batches[i].items
    requires HasItem(r, batches)
    ensures HasItem(r, batches[i := b])
  {
    var at :| DescribesAt(r, batches, at);
    if at.batch == i {
      assert b.items[at.item] == batches[i].items[at.item];
    }
    assert DescribesAt(r, batches[i := b], at);
  }

  /** A record grows by items that are new to the whole outbox. */
  ghost predicate Extends(s: State, i: nat, b: Batch)
    requires i < |s.batches|
  {
    && SameBatch(s.batches[i], b)
    && BatchOk(b)
    && |s.batches[i].items| <= |b.items| && b.items[..|s.batches[i].items|] == s.batches[i].items
    && (forall k :: |s.batches[i].items| <= k < |b.items| ==>
          && b.items[k].status == Staged
          && (forall at :: At(s.batches, at) ==> ItemAt(s.batches, at).itemId != b.items[k].itemId))
    && (b.batchId in s.announced ==> b.sentPendingAt.None?)
  }

  lemma ExtendedItems(s: State, i: nat, b: Batch, a: Location, c: Location)
    requires UniqueItems(s.batches) && i < |s.batches| && Extends(s, i, b)
    requires At(s.batches[i := b], a) && At(s.batches[i := b], c)
    requires ItemAt(s.batches[i := b], a).itemId == ItemAt(s.batches[i := b], c).itemId
    ensures a == c
  {
    var stored := |s.batches[i].items|;
    var newA, newC := a.batch == i && a.item >= stored, c.batch == i && c.item >= stored;
    if !newA {
      StoredInExtension(s, i, b, a);
    }
    if !newC {
      StoredInExtension(s, i, b, c);
    }
    if newA && newC {
      assert DistinctItems(b.items);
    } else if !newA && !newC {
      assert ItemAt(s.batches, a).itemId == ItemAt(s.batches, c).itemId;
    }
  }

  /** An item that was stored before the record grew. */
  lemma StoredInExtension(s: State, i: nat, b: Batch, at: Location)
    requires i < |s.batches| && Extends(s, i, b)
    requires At(s.batches[i := b], at) && (at.batch != i || at.item < |s.batches[i].items|)
    ensures At(s.batches, at) && ItemAt(s.batches, at) == ItemAt(s.batches[i := b], at)
  {
    hide BatchOk;
    if at.batch == i {
      assert b.items[..|s.batches[i].items|][at.item] == b.items[at.item];
    }
  }

  lemma ExtensionReceipts(s: State, i: nat, b: Batch)
    requires ReceiptsHaveItems(s) && TerminalItemsHaveReceipts(s) && i < |s.batches| && Extends(s, i, b)
    ensures ReceiptsHaveItems(WithBatch(s, i, b)) && TerminalItemsHaveReceipts(WithBatch(s, i, b))
  {
    var s' := WithBatch(s, i, b);
    var stored := |s.batches[i].items|;
    forall m | 0 <= m < |s'.receipts|
      ensures HasItem(s'.receipts[m], s'.batches)
    {
      HasItemInExtension(s.receipts[m], s.batches, i, b);
    }
    forall j, k | 0 <= j < |s'.batches| && 0 <= k < |s'.batches[j].items| && Terminal(s'.batches[j].items[k].status)
      ensures Receipted(s'.batches[j], s'.batches[j].items[k], s'.receipts)
    {
      if j == i {
        assert k < stored && b.items[k] == s.batches[i].items[k];
        assert Receipted(s.batches[i], s.batches[i].items[k], s.receipts);
        var m :| 0 <= m < |s.receipts| && Describes(s.receipts[m], s.batches[i], s.batches[i].items[k]);
        assert Describes(s.receipts[m], b, b.items[k]);
      }
    }
  }

  lemma ExtensionKeeps(s: State, i: nat, b: Batch)
    requires Valid(s) && i < |s.batches| && Extends(s, i, b)
    ensures Valid(WithBatch(s, i, b)) && Lifecycle(s, WithBatch(s, i, b), PLAIN)
  {
    var s' := WithBatch(s, i, b);
    ExtensionReceipts(s, i, b);
    forall a, c | At(s'.batches, a) && At(s'.batches, c) && ItemAt(s'.batches, a).itemId == ItemAt(s'.batches, c).itemId
      ensures a == c
    {
      ExtendedItems(s, i, b, a, c);
    }
    forall a, c | At(s.batches, a) && At(s'.batches, c) && ItemAt(s.batches, a).itemId == ItemAt(s'.batches, c).itemId
      ensures SameBatch(s.batches[a.batch], s'.batches[c.batch])
      ensures ItemEvolves(ItemAt(s.batches, a), ItemAt(s'.batches, c), PLAIN)
    {
      ExtensionItem(s, i, b, a, c);
    }
  }

  lemma ExtensionItem(s: State, i: nat, b: Batch, a: Location, c: Location)
    requires Valid(s) && i < |s.batches| && Extends(s, i, b)
    requires At(s.batches, a) && At(s.batches[i := b], c)
    requires ItemAt(s.batches, a).itemId == ItemAt(s.batches[i := b], c).itemId
    ensures SameBatch(s.batches[a.batch], s.batches[i := b][c.batch])
    ensures ItemEvolves(ItemAt(s.batches, a), ItemAt(s.batches[i := b], c), PLAIN)
  {
    assert At(s.batches[i := b], a);
    if a.batch == i {
      assert b.items[a.item] == s.batches[i].items[a.item];
    }
    assert ItemAt(s.batches[i := b], a) == ItemAt(s.batches, a);
    ExtendedItems(s, i, b, a, c);
    ItemReflexive(ItemAt(s.batches, a), PLAIN);
  }

  lemma {:induction false} NewItemsAreNew(existing: seq<Item>, incoming: seq<Item>, j: nat) returns (k: nat)
    requires NewItems(existing, incoming).Some? && j < |NewItems(existing, incoming).value|
    ensures k < |incoming| && NewItems(existing, incoming).value[j] == incoming[k]
    ensures FindItem(existing, incoming[k].itemId).None? && !Clashes(existing, incoming[k])
  {
    if FindItem(existing, incoming[0].itemId).Some? {
      k := NewItemsAreNew(existing, incoming[1..], j);
      k := k + 1;
    } else if j == 0 {
      k := 0;
    } else {
      k := NewItemsAreNew(existing, incoming[1..], j - 1);
      k := k + 1;
    }
  }

  lemma {:induction false} NewItemsDistinct(existing: seq<Item>, incoming: seq<Item>)
    requires NewItems(existing, incoming).Some? && DistinctItems(incoming)
    ensures DistinctItems(NewItems(existing, incoming).value)
  {
    if incoming != [] {
      NewItemsDistinct(existing, incoming[1..]);
      if FindItem(existing, incoming[0].itemId).None? {
        var rest := NewItems(existing, incoming[1..]).value;
        forall j | 0 <= j < |rest|
          ensures rest[j].itemId != incoming[0].itemId && rest[j].txid != incoming[0].txid
        {
          var k := NewItemsAreNew(existing, incoming[1..], j);
        }
      }
    }
  }

  lemma RestagedItems(existing: Batch, batch: Batch, added: seq<Item>)
    requires BatchOk(existing) && ValidNewBatch(batch)
    requires forall k :: 0 <= k < |batch.items| ==> Constructed(batch.items[k])
    requires NewItems(existing.items, batch.items) == Some(added)
    ensures BatchOk(Restaged(existing, batch, added))
  {
    hide ItemOk;
    NewItemsDistinct(existing.items, batch.items);
    GrownItemsDistinct(existing.items, batch.items, added);
    forall k | 0 <= k < |added|
      ensures ItemOk(added[k])
    {
      NewItemOk(existing.items, batch, added, k);
    }
    hide NewItems, Clashes, Stageable;
  }

  lemma NewItemOk(existing: seq<Item>, batch: Batch, added: seq<Item>, k: nat)
    requires ValidNewBatch(batch) && forall k :: 0 <= k < |batch.items| ==> Constructed(batch.items[k])
    requires NewItems(existing, batch.items) == Some(added) && k < |added|
    ensures ItemOk(added[k])
  {
    var n := NewItemsAreNew(existing, batch.items, k);
    assert Stageable(batch.items[n]) && Constructed(batch.items[n]);
  }

  lemma GrownItemsDistinct(existing: seq<Item>, incoming: seq<Item>, added: seq<Item>)
    requires DistinctItems(existing) && DistinctItems(added) && NewItems(existing, incoming) == Some(added)
    ensures DistinctItems(existing + added)
  {
    forall j, k | 0 <= j < |existing| && 0 <= k < |added|
      ensures existing[j].itemId != added[k].itemId && existing[j].txid != added[k].txid
    {
      var n := NewItemsAreNew(existing, incoming, k);
    }
    hide NewItems;
  }

  lemma RestagedExtends(s: State, batch: Batch, i: nat, added: seq<Item>)
    requires Valid(s) && FreshBatch(s, batch) && ValidNewBatch(batch)
    requires i < |s.batches| && s.batches[i].batchId == batch.batchId
    requires SameBatch(s.batches[i], batch)
    requires NewItems(s.batches[i].items, batch.items) == Some(added)
    ensures Extends(s, i, Restaged(s.batches[i], batch, added))
  {
    var existing := s.batches[i];
    var b := Restaged(existing, batch, added);
    RestagedItems(existing, batch, added);
    forall k | |existing.items| <= k < |b.items|
      ensures b.items[k].status == Staged
      ensures forall at :: At(s.batches, at) ==> ItemAt(s.batches, at).itemId != b.items[k].itemId
    {
      var n := NewItemsAreNew(existing.items, batch.items, k - |existing.items|);
      assert b.items[k] == batch.items[n] && Stageable(batch.items[n]);
      forall at | At(s.batches, at)
        ensures ItemAt(s.batches, at).itemId != b.items[k].itemId
      {
        if s.batches[at.batch].batchId == batch.batchId {
          assert at.batch == i;
        }
      }
    }
  }

  lemma AppendedReceipts(s: State, batch: Batch)
    requires ReceiptsHaveItems(s) && TerminalItemsHaveReceipts(s)
    requires forall k :: 0 <= k < |batch.items| ==> batch.items[k].status == Staged
    ensures var s' := s.(batches := s.batches + [batch]); ReceiptsHaveItems(s') && TerminalItemsHaveReceipts(s')
  {
    hide HasItem, Receipted;
    var s' := s.(batches := s.batches + [batch]);
    forall m | 0 <= m < |s'.receipts|
      ensures HasItem(s'.receipts[m], s'.batches)
    {
      HasItemAppended(s.receipts[m], s.batches, batch);
    }
  }

  lemma HasItemAppended(r: Receipt, batches: seq<Batch>, batch: Batch)
    requires HasItem(r, batches)
    ensures HasItem(r, batches + [batch])
  {
    var at :| DescribesAt(r, batches, at);
    assert DescribesAt(r, batches + [batch], at);
  }

  lemma AppendKeeps(s: State, batch: Batch)
    requires Valid(s) && FreshBatch(s, batch) && ValidNewBatch(batch)
    requires FindBatch(s.batches, batch.batchId).None?
    ensures var s' := s.(batches := s.batches + [batch]); Valid(s') && Lifecycle(s, s', PLAIN)
  {
    var s' := s.(batches := s.batches + [batch]);
    AppendedReceipts(s, batch);
    assert BatchOk(batch);
    forall a, b | At(s'.batches, a) && At(s'.batches, b) && ItemAt(s'.batches, a).itemId == ItemAt(s'.batches, b).itemId
      ensures a == b
    {
      AppendedItems(s, batch, a, b);
    }
    forall a, b | At(s.batches, a) && At(s'.batches, b) && ItemAt(s.batches, a).itemId == ItemAt(s'.batches, b).itemId
      ensures SameBatch(s.batches[a.batch], s'.batches[b.batch])
      ensures ItemEvolves(ItemAt(s.batches, a), ItemAt(s'.batches, b), PLAIN)
    {
      assert ItemAt(s'.batches, a) == ItemAt(s.batches, a);
      AppendedItems(s, batch, a, b);
      ItemReflexive(ItemAt(s.batches, a), PLAIN);
    }
  }

  lemma AppendedItems(s: State, batch: Batch, a: Location, b: Location)
    requires UniqueItems(s.batches) && FreshBatch(s, batch) && DistinctItems(batch.items)
    requires FindBatch(s.batches, batch.batchId).None?
    requires At(s.batches + [batch], a) && At(s.batches + [batch], b)
    requires ItemAt(s.batches + [batch], a).itemId == ItemAt(s.batches + [batch], b).itemId
    ensures a == b
  {
    if At(s.batches, a) && At(s.batches, b) {
      assert ItemAt(s.batches, a).itemId == ItemAt(s.batches, b).itemId;
    }
  }

  lemma StageKeeps(s: State, batch: Batch)
    requires Valid(s) && FreshBatch(s, batch) && Stage(s, batch).Ok?
    ensures Valid(Stage(s, batch).value) && Lifecycle(s, Stage(s, batch).value, PLAIN)
  {
    match FindBatch(s.batches, batch.batchId)
    case None =>
      AppendKeeps(s, batch);
    case Some(i) =>
      var added := NewItems(s.batches[i].items, batch.items).value;
      RestagedExtends(s, batch, i, added);
      ExtensionKeeps(s, i, Restaged(s.batches[i], batch, added));
  }

  // ----- Removing records

  lemma {:induction false} PruneOrigin(batches: seq<Batch>, itemIds: set<string>, drop: Batch -> bool, i: nat)
    returns (i': nat)
    requires i < |PruneBatches(batches, itemIds, drop)|
    ensures i' < |batches| && !drop(batches[i'])
    ensures PruneBatches(batches, itemIds, drop)[i] == WithoutItems(batches[i'], itemIds)
  {
    if drop(batches[0]) {
      i' := PruneOrigin(batches[1..], itemIds, drop, i);
      i' := i' + 1;
    } else if i == 0 {
      i' := 0;
    } else {
      i' := PruneOrigin(batches[1..], itemIds, drop, i - 1);
      i' := i' + 1;
    }
  }

  lemma {:induction false} PruneOrigins(batches: seq<Batch>, itemIds: set<string>, drop: Batch -> bool, i: nat, j: nat)
    returns (i': nat, j': nat)
    requires i < j < |PruneBatches(batches, itemIds, drop)|
    ensures i' < j' < |batches|
    ensures PruneBatches(batches, itemIds, drop)[i] == WithoutItems(batches[i'], itemIds)
    ensures PruneBatches(batches, itemIds, drop)[j] == WithoutItems(batches[j'], itemIds)
  {
    hide WithoutItems;
    if drop(batches[0]) {
      i', j' := PruneOrigins(batches[1..], itemIds, drop, i, j);
      i', j' := i' + 1, j' + 1;
    } else if i == 0 {
      i' := 0;
      j' := PruneOrigin(batches[1..], itemIds, drop, j - 1);
      j' := j' + 1;
    } else {
      i', j' := PruneOrigins(batches[1..], itemIds, drop, i - 1, j - 1);
      i', j' := i' + 1, j' + 1;
    }
  }

  lemma {:induction false} PruneComplete(batches: seq<Batch>, itemIds: set<string>, drop: Batch -> bool, i: nat)
    returns (i': nat)
    requires i < |batches| && !drop(batches[i])
    ensures i' < |PruneBatches(batches, itemIds, drop)|
    ensures PruneBatches(batches, itemIds, drop)[i'] == WithoutItems(batches[i], itemIds)
  {
    if i == 0 {
      i' := 0;
    } else {
      i' := PruneComplete(batches[1..], itemIds, drop, i - 1);
      i' := if drop(batches[0]) then i' else i' + 1;
    }
  }

  /** An item of a pruned batch is an item of the original one. */
  lemma KeptItem(b: Batch, itemIds: set<string>, k: nat) returns (k': nat)
    requires k < |WithoutItems(b, itemIds).items|
    ensures k' < |b.items| && b.items[k'] == WithoutItems(b, itemIds).items[k]
    ensures b.items[k'].itemId !in itemIds
  {
    var kept := WithoutItems(b, itemIds).items;
    assert kept[k] in kept;
    FilterMember(b.items, NotIn(itemIds), kept[k]);
    k' :| 0 <= k' < |b.items| && b.items[k'] == kept[k];
  }

  lemma KeptLocation(batches: seq<Batch>, itemIds: set<string>, drop: Batch -> bool, at: Location)
    returns (from: Location)
    requires At(PruneBatches(batches, itemIds, drop), at)
    ensures At(batches, from) && !drop(batches[from.batch])
    ensures ItemAt(batches, from) == ItemAt(PruneBatches(batches, itemIds, drop), at)
    ensures ItemAt(batches, from).itemId !in itemIds
    ensures PruneBatches(batches, itemIds, drop)[at.batch] == WithoutItems(batches[from.batch], itemIds)
  {
    var i := PruneOrigin(batches, itemIds, drop, at.batch);
    var k := KeptItem(batches[i], itemIds, at.item);
    from := Location(i, k);
  }

  lemma FindKept(batches: seq<Batch>, itemIds: set<string>, drop: Batch -> bool, at: Location)
    returns (to: Location)
    requires At(batches, at) && !drop(batches[at.batch]) && ItemAt(batches, at).itemId !in itemIds
    ensures At(PruneBatches(batches, itemIds, drop), to)
    ensures ItemAt(PruneBatches(batches, itemIds, drop), to) == ItemAt(batches, at)
    ensures PruneBatches(batches, itemIds, drop)[to.batch] == WithoutItems(batches[at.batch], itemIds)
  {
    var i := PruneComplete(batches, itemIds, drop, at.batch);
    var b := batches[at.batch];
    var kept := WithoutItems(b, itemIds).items;
    FilterMember(b.items, NotIn(itemIds), b.items[at.item]);
    var k :| 0 <= k < |kept| && kept[k] == b.items[at.item];
    to := Location(i, k);
  }

  lemma PrunedItemsUnique(batches: seq<Batch>, itemIds: set<string>, drop: Batch -> bool, a: Location, b: Location)
    requires UniqueItems(batches)
    requires a.batch < b.batch || (a.batch == b.batch && a.item < b.item)
    requires At(PruneBatches(batches, itemIds, drop), a) && At(PruneBatches(batches, itemIds, drop), b)
    ensures ItemAt(PruneBatches(batches, itemIds, drop), a).itemId != ItemAt(PruneBatches(batches, itemIds, drop),
              b).itemId
  {
    if a.batch < b.batch {
      var i, j := PruneOrigins(batches, itemIds, drop, a.batch, b.batch);
      var k := KeptItem(batches[i], itemIds, a.item);
      var l := KeptItem(batches[j], itemIds, b.item);
      assert At(batches, Location(i, k)) && At(batches, Location(j, l));
      assert ItemAt(batches, Location(i, k)).itemId != ItemAt(batches, Location(j, l)).itemId;
    } else {
      var i := PruneOrigin(batches, itemIds, drop, a.batch);
      var k, l := FilterPositions(batches[i].items, NotIn(itemIds), a.item, b.item);
      assert At(batches, Location(i, k)) && At(batches, Location(i, l));
      assert ItemAt(batches, Location(i, k)).itemId != ItemAt(batches, Location(i, l)).itemId;
    }
  }

  lemma PrunedUnique(batches: seq<Batch>, itemIds: set<string>, drop: Batch -> bool)
    requires UniqueItems(batches) && UniqueBatches(batches)
    ensures UniqueItems(PruneBatches(batches, itemIds, drop))
    ensures UniqueBatches(PruneBatches(batches, itemIds, drop))
  {
    var pruned := PruneBatches(batches, itemIds, drop);
    forall a, b | At(pruned, a) && At(pruned, b) && ItemAt(pruned, a).itemId == ItemAt(pruned, b).itemId
      ensures a == b
    {
      if a.batch < b.batch || (a.batch == b.batch && a.item < b.item) {
        PrunedItemsUnique(batches, itemIds, drop, a, b);
      } else if a != b {
        PrunedItemsUnique(batches, itemIds, drop, b, a);
      }
    }
    forall i, j | 0 <= i < j < |pruned|
      ensures pruned[i].batchId != pruned[j].batchId
    {
      var i', j' := PruneOrigins(batches, itemIds, drop, i, j);
    }
  }

  lemma PrunedBatchOk(b: Batch, itemIds: set<string>)
    requires BatchOk(b)
    ensures BatchOk(WithoutItems(b, itemIds))
  {
    var b' := WithoutItems(b, itemIds);
    forall j, k | 0 <= j < k < |b'.items|
      ensures b'.items[j].itemId != b'.items[k].itemId && b'.items[j].txid != b'.items[k].txid
    {
      var j', k' := FilterPositions(b.items, NotIn(itemIds), j, k);
    }
    forall k | 0 <= k < |b'.items|
      ensures ItemOk(b'.items[k])
    {
      var k' := KeptItem(b, itemIds, k);
    }
  }

  /** Whether a batch with this id survives. */
  predicate Survives(batches: seq<Batch>, drop: Batch -> bool, batchId: string) {
    forall i :: 0 <= i < |batches| && batches[i].batchId == batchId ==> !drop(batches[i])
  }

  /** Receipts and items are removed together: a receipt is kept exactly when its item is. */
  ghost predicate Together(s: State, itemIds: set<string>, drop: Batch -> bool, keep: Receipt -> bool) {
    forall m :: 0 <= m < |s.receipts| ==>
      (keep(s.receipts[m]) <==> s.receipts[m].itemId !in itemIds && Survives(s.batches, drop, s.receipts[m].batchId))
  }

  lemma KeptReceiptHasItem(s: State, itemIds: set<string>, drop: Batch -> bool, r: Receipt)
    requires HasItem(r, s.batches) && r.itemId !in itemIds && Survives(s.batches, drop, r.batchId)
    ensures HasItem(r, PruneBatches(s.batches, itemIds, drop))
  {
    var at :| DescribesAt(r, s.batches, at);
    var to := FindKept(s.batches, itemIds, drop, at);
    assert DescribesAt(r, PruneBatches(s.batches, itemIds, drop), to);
  }

  lemma KeptItemHasReceipt(s: State, itemIds: set<string>, drop: Batch -> bool, keep: Receipt -> bool, at: Location)
    requires UniqueBatches(s.batches) && TerminalItemsHaveReceipts(s) && Together(s, itemIds, drop, keep)
    requires At(PruneBatches(s.batches, itemIds, drop), at)
    requires Terminal(ItemAt(PruneBatches(s.batches, itemIds, drop), at).status)
    ensures Receipted(PruneBatches(s.batches, itemIds, drop)[at.batch],
                      ItemAt(PruneBatches(s.batches, itemIds, drop), at),
                      Filter(s.receipts, keep))
  {
    var kept := Filter(s.receipts, keep);
    var from := KeptLocation(s.batches, itemIds, drop, at);
    var b, item := s.batches[from.batch], ItemAt(s.batches, from);
    assert Receipted(b, item, s.receipts);
    var m :| 0 <= m < |s.receipts| && Describes(s.receipts[m], b, item);
    assert keep(s.receipts[m]);
    FilterMember(s.receipts, keep, s.receipts[m]);
    var n :| 0 <= n < |kept| && kept[n] == s.receipts[m];
    assert Describes(kept[n], PruneBatches(s.batches, itemIds, drop)[at.batch], item);
  }

  lemma PrunedReceipts(s: State, s': State, itemIds: set<string>, drop: Batch -> bool, keep: Receipt -> bool)
    requires Valid(s) && Together(s, itemIds, drop, keep)
    requires s'.batches == PruneBatches(s.batches, itemIds, drop)
    requires s'.receipts == Filter(s.receipts, keep)
    ensures ReceiptsHaveItems(s') && TerminalItemsHaveReceipts(s') && DistinctReceipts(s'.receipts)
  {
    FilterMembers(s.receipts, keep);
    forall m | 0 <= m < |s'.receipts|
      ensures HasItem(s'.receipts[m], s'.batches)
    {
      assert s'.receipts[m] in s'.receipts;
      KeptReceiptHasItem(s, itemIds, drop, s'.receipts[m]);
    }
    forall i, k | 0 <= i < |s'.batches| && 0 <= k < |s'.batches[i].items| && Terminal(s'.batches[i].items[k].status)
      ensures Receipted(s'.batches[i], s'.batches[i].items[k], s'.receipts)
    {
      KeptItemHasReceipt(s, itemIds, drop, keep, Location(i, k));
    }
    forall m, n | 0 <= m < n < |s'.receipts|
      ensures !SameSubject(s'.receipts[m], s'.receipts[n])
    {
      var m', n' := FilterPositions(s.receipts, keep, m, n);
    }
  }

  lemma PrunedBatches(s: State, s': State, itemIds: set<string>, drop: Batch -> bool)
    requires Valid(s)
    requires s'.batches == PruneBatches(s.batches, itemIds, drop)
    ensures forall i :: 0 <= i < |s'.batches| ==> BatchOk(s'.batches[i])
    ensures forall i :: 0 <= i < |s'.batches| && s'.batches[i].batchId in s.announced ==>
              s'.batches[i].sentPendingAt.None?
  {
    forall i | 0 <= i < |s'.batches|
      ensures BatchOk(s'.batches[i])
      ensures s'.batches[i].batchId in s.announced ==> s'.batches[i].sentPendingAt.None?
    {
      var i' := PruneOrigin(s.batches, itemIds, drop, i);
      PrunedBatchOk(s.batches[i'], itemIds);
    }
  }

  lemma PrunedLifecycle(s: State, s': State, itemIds: set<string>, drop: Batch -> bool)
    requires Valid(s)
    requires s'.batches == PruneBatches(s.batches, itemIds, drop)
    ensures Lifecycle(s, s', PLAIN)
  {
    forall a, b | At(s.batches, a) && At(s'.batches, b) && ItemAt(s.batches, a).itemId == ItemAt(s'.batches, b).itemId
      ensures SameBatch(s.batches[a.batch], s'.batches[b.batch])
      ensures ItemEvolves(ItemAt(s.batches, a), ItemAt(s'.batches, b), PLAIN)
    {
      var from := KeptLocation(s.batches, itemIds, drop, b);
      assert a == from;
      ItemReflexive(ItemAt(s.batches, a), PLAIN);
    }
  }

  /** Removing items together with their receipts keeps the invariant. */
  lemma PruneKeeps(s: State, s': State, itemIds: set<string>, drop: Batch -> bool, keep: Receipt -> bool)
    requires Valid(s) && Together(s, itemIds, drop, keep)
    requires s'.batches == PruneBatches(s.batches, itemIds, drop)
    requires s'.receipts == Filter(s.receipts, keep)
    requires AnnouncedOnce(s')
    ensures Valid(s') && Lifecycle(s, s', PLAIN)
  {
    PrunedReceipts(s, s', itemIds, drop, keep);
    PrunedUnique(s.batches, itemIds, drop);
    PrunedBatches(s, s', itemIds, drop);
    PrunedLifecycle(s, s', itemIds, drop);
  }

  // ----- The removing operations

  /** With unique ids, two receipts about one item id are the same receipt. */
  lemma SameItemSameReceipt(s: State, m: nat, n: nat)
    requires Valid(s) && m < |s.receipts| && n < |s.receipts|
    requires s.receipts[m].itemId == s.receipts[n].itemId
    ensures m == n
  {
    assert HasItem(s.receipts[m], s.batches) && HasItem(s.receipts[n], s.batches);
    var a :| DescribesAt(s.receipts[m], s.batches, a);
    var b :| DescribesAt(s.receipts[n], s.batches, b);
    assert ItemAt(s.batches, a).itemId == ItemAt(s.batches, b).itemId;
    assert SameSubject(s.receipts[m], s.receipts[n]) && SameSubject(s.receipts[n], s.receipts[m]);
  }

  lemma UnacknowledgedItem(s: State, ids: set<ReceiptId>, m: nat)
    requires Valid(s) && m < |s.receipts| && s.receipts[m].Id() !in ids
    ensures s.receipts[m].itemId !in AckedItemIds(s.receipts, ids)
  {
    var r := s.receipts[m];
    forall q | q in s.receipts && q.itemId == r.itemId
      ensures q == r
    {
      var n :| 0 <= n < |s.receipts| && s.receipts[n] == q;
      SameItemSameReceipt(s, m, n);
    }
  }

  /** A receipt that is not acknowledged keeps its batch. */
  lemma UnacknowledgedBatch(s: State, ids: set<ReceiptId>, m: nat)
    requires Valid(s) && m < |s.receipts| && s.receipts[m].Id() !in ids
    ensures Survives(s.batches, Finished(s.receipts, ids), s.receipts[m].batchId)
  {
    var r := s.receipts[m];
    var itemIds := AckedItemIds(s.receipts, ids);
    UnacknowledgedItem(s, ids, m);
    FilterMember(s.receipts, Unacknowledged(ids), r);
    assert r.batchId !in EndedBatchIds(s.receipts, ids);
    assert HasItem(r, s.batches);
    var at :| DescribesAt(r, s.batches, at);
    FilterMember(s.batches[at.batch].items, NotIn(itemIds), ItemAt(s.batches, at));
    assert ItemAt(s.batches, at) in WithoutItems(s.batches[at.batch], itemIds).items;
  }

  /** An acknowledged receipt takes its item with it, and no kept receipt loses its item. */
  lemma AcknowledgedTogether(s: State, ids: set<ReceiptId>)
    requires Valid(s)
    ensures Together(s, AckedItemIds(s.receipts, ids), Finished(s.receipts, ids), Unacknowledged(ids))
  {
    forall m | 0 <= m < |s.receipts|
      ensures s.receipts[m].Id() !in ids <==>
              s.receipts[m].itemId !in AckedItemIds(s.receipts, ids)
              && Survives(s.batches, Finished(s.receipts, ids), s.receipts[m].batchId)
    {
      if s.receipts[m].Id() !in ids {
        UnacknowledgedItem(s, ids, m);
        UnacknowledgedBatch(s, ids, m);
      }
    }
  }

  lemma AcknowledgeReceiptsKeeps(s: State, ids: set<ReceiptId>)
    requires Valid(s)
    ensures var s' := AcknowledgeReceipts(s, ids); Valid(s') && Lifecycle(s, s', PLAIN)
  {
    hide Valid;
    var s' := AcknowledgeReceipts(s, ids);
    AcknowledgedTogether(s, ids);
    PrunedBatches(s, s', AckedItemIds(s.receipts, ids), Finished(s.receipts, ids));
    PruneKeeps(s, s', AckedItemIds(s.receipts, ids), Finished(s.receipts, ids), Unacknowledged(ids));
  }

  lemma {:induction false} FilterAll<T>(xs: seq<T>, keep: T -> bool)
    requires forall i :: 0 <= i < |xs| ==> keep(xs[i])
    ensures Filter(xs, keep) == xs
  {
    if xs != [] {
      FilterAll(xs[1..], keep);
      assert xs == [xs[0]] + xs[1..];
    }
  }

  lemma WithoutNothing(b: Batch)
    ensures WithoutItems(b, {}) == b
  {
    FilterAll(b.items, NotIn({}));
  }

  /** Dropping whole batches is pruning without item ids. */
  lemma {:induction false} PruneWhole(batches: seq<Batch>, keep: Batch -> bool, drop: Batch -> bool)
    requires forall b :: keep(b) == !drop(b)
    ensures PruneBatches(batches, {}, drop) == Filter(batches, keep)
  {
    if batches != [] {
      PruneWhole(batches[1..], keep, drop);
      WithoutNothing(batches[0]);
    }
  }

  function InsideBatches(ids: set<string>): Batch -> bool {
    (b: Batch) => b.batchId in ids
  }

  /** Removing every batch of some ids, with their receipts. */
  lemma RemoveBatchesKeeps(s: State, s': State, ids: set<string>)
    requires Valid(s)
    requires s'.batches == Filter(s.batches, OutsideBatches(ids))
    requires s'.receipts == Filter(s.receipts, OutsideReceipts(ids))
    requires AnnouncedOnce(s')
    ensures Valid(s') && Lifecycle(s, s', PLAIN)
  {
    hide Valid;
    PruneWhole(s.batches, OutsideBatches(ids), InsideBatches(ids));
    forall m | 0 <= m < |s.receipts|
      ensures s.receipts[m].batchId !in ids <==> Survives(s.batches, InsideBatches(ids), s.receipts[m].batchId)
    {
      ReceiptBatchStored(s, m);
    }
    PruneKeeps(s, s', {}, InsideBatches(ids), OutsideReceipts(ids));
  }

  lemma ReceiptBatchStored(s: State, m: nat)
    requires Valid(s) && m < |s.receipts|
    ensures exists i :: 0 <= i < |s.batches| && s.batches[i].batchId == s.receipts[m].batchId
  {
    assert HasItem(s.receipts[m], s.batches);
    var at :| DescribesAt(s.receipts[m], s.batches, at);
    assert s.batches[at.batch].batchId == s.receipts[m].batchId;
  }

  lemma FilteredBatchesAnnounced(s: State, batches: seq<Batch>, keep: Batch -> bool)
    requires Valid(s) && batches == Filter(s.batches, keep)
    ensures forall i :: 0 <= i < |batches| ==> batches[i] in s.batches
    ensures forall i :: 0 <= i < |batches| && batches[i].batchId in s.announced ==> batches[i].sentPendingAt.None?
  {
    FilterMembers(s.batches, keep);
    assert forall i :: 0 <= i < |batches| ==> batches[i] in batches;
  }

  lemma RevokeKeeps(s: State, network: string, accountUuid: string)
    requires Valid(s)
    ensures var s' := Revoke(s, network, accountUuid); Valid(s') && Lifecycle(s, s', PLAIN)
  {
    hide Valid;
    var s' := Revoke(s, network, accountUuid);
    var ids := ScopeBatchIds(s.batches, network, accountUuid);
    FilteredBatchesAnnounced(s, s'.batches, OutsideBatches(ids));
    FilterMembers(s.announced, (id: string) => !(ScopePrefix(network, accountUuid) <= id));
    assert forall x :: x in s'.announced ==> x in s.announced;
    RemoveBatchesKeeps(s, s', ids);
  }

  /** With unique batch ids, removing one position is removing one id. */
  lemma {:induction false} RemoveAtFilters(batches: seq<Batch>, i: nat)
    requires UniqueBatches(batches) && i < |batches|
    ensures RemoveAt(batches, i) == Filter(batches, OutsideBatches({batches[i].batchId}))
  {
    var keep := OutsideBatches({batches[i].batchId});
    if i == 0 {
      FilterAll(batches[1..], keep);
    } else {
      var rest := batches[1..];
      assert rest[i - 1] == batches[i] && keep(batches[0]);
      RemoveAtFilters(rest, i - 1);
      assert RemoveAt(batches, i) == [batches[0]] + RemoveAt(rest, i - 1);
    }
  }

  lemma RemoveOneKeeps(s: State, i: nat, s': State)
    requires Valid(s) && i < |s.batches| && !HasReceipt(s.receipts, s.batches[i].batchId)
    requires s'.batches == RemoveAt(s.batches, i) && s'.receipts == s.receipts
    requires AnnouncedOnce(s')
    ensures Valid(s') && Lifecycle(s, s', PLAIN)
  {
    var ids := {s.batches[i].batchId};
    RemoveAtFilters(s.batches, i);
    FilterAll(s.receipts, OutsideReceipts(ids));
    RemoveBatchesKeeps(s, s', ids);
  }

  lemma DiscardBatchKeeps(s: State, batchId: string)
    requires Valid(s) && DiscardBatch(s, batchId).Ok?
    ensures var s' := DiscardBatch(s, batchId).value.0; Valid(s') && Lifecycle(s, s', PLAIN)
  {
    match FindBatch(s.batches, batchId)
    case None =>
      UnchangedLifecycle(s);
    case Some(i) =>
      RemoveOneKeeps(s, i, s.(batches := RemoveAt(s.batches, i)));
  }

  lemma UnchangedLifecycle(s: State)
    requires Valid(s)
    ensures Lifecycle(s, s, PLAIN)
  {
    EvolvesReflexive(s, PLAIN);
    EvolvesLifecycle(s, s, PLAIN);
  }

  lemma EmptyBatchHasNoReceipt(s: State, i: nat)
    requires Valid(s) && i < |s.batches| && s.batches[i].items == []
    ensures !HasReceipt(s.receipts, s.batches[i].batchId)
  {
    forall m | 0 <= m < |s.receipts|
      ensures s.receipts[m].batchId != s.batches[i].batchId
    {
      assert HasItem(s.receipts[m], s.batches);
      var at :| DescribesAt(s.receipts[m], s.batches, at);
    }
  }

  lemma AnnounceKeeps(s: State, announced: seq<string>)
    requires Valid(s) && AnnouncedOnce(s.(announced := announced))
    ensures Valid(s.(announced := announced))
  {
  }

  lemma AcknowledgeSentKeeps(s: State, batchId: string, date: Date)
    requires Valid(s) && AcknowledgeSent(s, batchId, date).Ok?
    ensures var s' := AcknowledgeSent(s, batchId, date).value; Valid(s') && Lifecycle(s, s', PLAIN)
  {
    var i := FindBatch(s.batches, batchId).value;
    var b := s.batches[i];
    var s' := AcknowledgeSent(s, batchId, date).value;
    if b.items == [] && b.nextProofHeight.None? {
      EmptyBatchHasNoReceipt(s, i);
      RemoveOneKeeps(s, i, s');
    } else {
      var b' := b.(sentPendingAt := None, sentNotifiedAt := Some(date));
      MarkerStep(s, i, b');
      AnnounceKeeps(WithBatch(s, i, b'), s'.announced);
      EvolvesLifecycle(s, WithBatch(s, i, b'), PLAIN);
    }
  }
}
