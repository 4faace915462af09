/**
 * No lost attempt: which stored items `listAttemptedTxids` reports, for every
 * history of selections, sends, cancellations, removals and restagings.
 */
module OutboxAttempts {
  import opened Common
  import opened OutboxTypes
  import opened OutboxOps
  import opened OutboxInvariant
  import opened OutboxSteps
  import opened OutboxRecords
  import opened OutboxRunner
  import opened OutboxSubmission
  import opened OutboxWorld
  import opened OutboxRuns
  import opened OutboxSafety
  import opened OutboxRetries

  // ----- What is listed

  function AttemptedTxids(items: seq<Item>): (r: seq<string>) {
    if items == [] then []
    else (if Attempted(items[0]) then [items[0].txid] else []) + AttemptedTxids(items[1..])
  }

  /** `listAttemptedTxids`. */
  function ListAttempted(batches: seq<Batch>, network: string, accountUuid: string, runId: string): (r: seq<string>) {
    if batches == [] then []
    else
      var b := batches[0];
      (if b.network == network && b.accountUuid == accountUuid && b.runId == runId then AttemptedTxids(b.items) else [])
      + ListAttempted(batches[1..], network, accountUuid, runId)
  }

  lemma {:induction false} AttemptedTxidsMember(items: seq<Item>, txid: string)
    ensures txid in AttemptedTxids(items) <==>
              exists k :: 0 <= k < |items| && Attempted(items[k]) && items[k].txid == txid
  {
    if items != [] {
      AttemptedTxidsMember(items[1..], txid);
      assert forall k :: 1 <= k < |items| ==> items[k] == items[1..][k - 1];
      if exists k :: 0 <= k < |items[1..]| && Attempted(items[1..][k]) && items[1..][k].txid == txid {
        var k :| 0 <= k < |items[1..]| && Attempted(items[1..][k]) && items[1..][k].txid == txid;
        assert items[k + 1] == items[1..][k];
      }
    }
  }

  predicate OfRun(b: Batch, network: string, accountUuid: string, runId: string) {
    b.network == network && b.accountUuid == accountUuid && b.runId == runId
  }

  /** An attempted item of the run, at this place, with this txid. */
  ghost predicate ListsAt(batches: seq<Batch>, network: string, accountUuid: string, runId: string, txid: string,
                          at: Location) {
    && At(batches, at) && OfRun(batches[at.batch], network, accountUuid, runId)
    && Attempted(ItemAt(batches, at)) && ItemAt(batches, at).txid == txid
  }

  lemma {:induction false} ListedMember(batches: seq<Batch>, network: string, accountUuid: string, runId: string,
                                        txid: string)
    ensures txid in ListAttempted(batches, network, accountUuid, runId)
            <==> exists at :: ListsAt(batches, network, accountUuid, runId, txid, at)
  {
    if batches != [] {
      var rest := batches[1..];
      ListedMember(rest, network, accountUuid, runId, txid);
      AttemptedTxidsMember(batches[0].items, txid);
      if at :| ListsAt(batches, network, accountUuid, runId, txid, at) {
        if at.batch > 0 {
          assert ListsAt(rest, network, accountUuid, runId, txid, Location(at.batch - 1, at.item));
        }
      }
      if at :| ListsAt(rest, network, accountUuid, runId, txid, at) {
        assert ListsAt(batches, network, accountUuid, runId, txid, Location(at.batch + 1, at.item));
      }
      if k :| 0 <= k < |batches[0].items| && Attempted(batches[0].items[k]) && batches[0].items[k].txid == txid {
        if OfRun(batches[0], network, accountUuid, runId) {
          assert ListsAt(batches, network, accountUuid, runId, txid, Location(0, k));
        }
      }
    }
  }

  /** The query of the item's own scope and run lists it. */
  predicate Reported(s: State, itemId: string) {
    match Locate(s.batches, itemId)
    case None => false
    case Some(at) =>
      var b := s.batches[at.batch];
      b.items[at.item].txid in ListAttempted(s.batches, b.network, b.accountUuid, b.runId)
  }

  /** Another attempted item of the same run has the same txid. */
  ghost predicate ListedElsewhere(s: State, itemId: string)
    requires Stored(s, itemId)
  {
    var at := Locate(s.batches, itemId).value;
    var b := s.batches[at.batch];
    var txid := ItemAt(s.batches, at).txid;
    exists other :: other != at && ListsAt(s.batches, b.network, b.accountUuid, b.runId, txid, other)
  }

  /** The list is by txid: a stored item is on it through its own attempt or through that of a namesake. */
  lemma ReportedExactly(s: State, itemId: string)
    requires Stored(s, itemId)
    ensures Reported(s, itemId) <==> Attempted(ItemBy(s, itemId).value) || ListedElsewhere(s, itemId)
  {
    var at := Locate(s.batches, itemId).value;
    var b := s.batches[at.batch];
    ListedMember(s.batches, b.network, b.accountUuid, b.runId, ItemAt(s.batches, at).txid);
    assert Attempted(ItemAt(s.batches, at)) ==>
        ListsAt(s.batches, b.network, b.accountUuid, b.runId, ItemAt(s.batches, at).txid, at);
  }

  // ----- What was sent

  /**
   * No lost attempt: in every reachable world a stored item counts as attempted
   * exactly when its record is not untried, that is, when some selection of this
   * very record was sent or may have been. So an item whose bytes were handed to
   * the transport is reported unless its record was added after that, or a
   * namesake is reported for it.
   */
  lemma NoLostAttempt(w: World, itemId: string)
    requires Reachable(w) && Stored(w.store, itemId)
    ensures Attempted(ItemBy(w.store, itemId).value) <==> itemId !in w.untried
    ensures Reported(w.store, itemId) <==> itemId !in w.untried || ListedElsewhere(w.store, itemId)
  {
    ReachableOk(w);
    ReportedExactly(w.store, itemId);
  }

  /** Discarding a batch removes untried records only. */
  lemma DiscardRemovesOnlyUntried(w: World, batchId: string, itemId: string)
    requires Reachable(w) && Stored(w.store, itemId) && DiscardBatch(w.store, batchId).Ok?
    ensures !Stored(DiscardBatch(w.store, batchId).value.0, itemId) ==> itemId in w.untried
  {
    ReachableOk(w);
    var s := w.store;
    var at := Locate(s.batches, itemId).value;
    if itemId !in w.untried && FindBatch(s.batches, batchId).Some? {
      var i := FindBatch(s.batches, batchId).value;
      AttemptedBatchStays(s, i, at);
      var s' := DiscardBatch(s, batchId).value.0;
      var j := if at.batch < i then at.batch else at.batch - 1;
      assert s'.batches[j] == s.batches[at.batch];
      StoredAt(s', Location(j, at.item));
    }
  }

  lemma AttemptedBatchStays(s: State, i: nat, at: Location)
    requires Valid(s) && i < |s.batches| && At(s.batches, at) && Attempted(ItemAt(s.batches, at))
    requires !DeliveryStarted(s.batches[i]) && !HasReceipt(s.receipts, s.batches[i].batchId)
    ensures at.batch != i
  {
    if Terminal(ItemAt(s.batches, at).status) {
      assert Receipted(s.batches[at.batch], s.batches[at.batch].items[at.item], s.receipts);
    }
  }

  // ----- Which events add records

  lemma StageAddsOnlyItsItems(s: State, batch: Batch, id: string)
    requires Valid(s) && FreshBatch(s, batch) && Stage(s, batch).Ok?
    requires !Stored(s, id) && Stored(Stage(s, batch).value, id)
    ensures exists k :: 0 <= k < |batch.items| && batch.items[k].itemId == id
  {
    hide Valid, FreshBatch, ValidNewBatch, NewItems;
    var s' := Stage(s, batch).value;
    var at := Locate(s'.batches, id).value;
    match FindBatch(s.batches, batch.batchId)
    case None =>
      if at.batch < |s.batches| {
        StoredAt(s, at);
      }
    case Some(i) =>
      var existing := s.batches[i];
      if at.batch != i || at.item < |existing.items| {
        StoredAt(s, at);
      } else {
        var k := NewItemsAreNew(existing.items, batch.items, at.item - |existing.items|);
        assert batch.items[k].itemId == id;
      }
  }

  /** Only staging adds items. */
  lemma CallAddsNothing(s: State, call: Call)
    requires Valid(s) && !call.StageBatch?
    ensures var s' := Apply(s, call); forall at :: At(s'.batches, at) ==> Stored(s, ItemAt(s'.batches, at).itemId)
  {
    hide Valid;
    var s' := Apply(s, call);
    ValidUnique(s);
    match call
    case AckReceipts(ids) =>
      PruneOnlyRemoves(s, s', AckedItemIds(s.receipts, ids), Finished(s.receipts, ids));
    case Discard(id) =>
      SubsetOnlyRemoves(s, s');
    case RevokeScope(network, account) =>
      FilteredBatchesAnnounced(s, s'.batches, OutsideBatches(ScopeBatchIds(s.batches, network, account)));
      SubsetOnlyRemoves(s, s');
    case RemoveAll =>
    case AckSent(id, now) =>
      if AcknowledgeSent(s, id, now).Ok? {
        AckSentOnlyRemoves(s, id, now);
      } else {
        SubsetOnlyRemoves(s, s');
      }
    case _ =>
      SameIdsCall(s, call);
  }

  lemma SameIdsCall(s: State, call: Call)
    requires Valid(s)
    requires call.ArmBatch? || call.RecoverBatch? || call.VerifiedProof? || call.AckProof? || call.HeightNotice?
             || call.AckHeight?
    ensures var s' := Apply(s, call); forall at :: At(s'.batches, at) ==> Stored(s, ItemAt(s'.batches, at).itemId)
  {
    hide Valid, SameIds;
    var s' := Apply(s, call);
    if call.ArmBatch? {
      ArmSameIds(s, call);
    } else if call.RecoverBatch? {
      RecoverSameIds(s, call);
    } else {
      MarkerSameIds(s, call);
    }
    SameIdsStored(s, s');
  }

  lemma MarkerSameIds(s: State, call: Call)
    requires call.VerifiedProof? || call.AckProof? || call.HeightNotice? || call.AckHeight?
    ensures SameIds(s.batches, Apply(s, call).batches)
  {
  }

  lemma SameIdsStored(s: State, s': State)
    requires SameIds(s.batches, s'.batches)
    ensures forall at :: At(s'.batches, at) ==> Stored(s, ItemAt(s'.batches, at).itemId)
  {
    forall at | At(s'.batches, at)
      ensures Stored(s, ItemAt(s'.batches, at).itemId)
    {
      assert SameItemIds(s.batches[at.batch], s'.batches[at.batch]);
      StoredAt(s, at);
    }
  }

  /** The same items, by position and id. */
  ghost predicate SameIds(before: seq<Batch>, after: seq<Batch>) {
    |before| == |after| && forall i :: 0 <= i < |before| ==> SameItemIds(before[i], after[i])
  }

  ghost predicate SameItemIds(before: Batch, after: Batch) {
    |before.items| == |after.items| && forall k :: 0 <= k < |before.items| ==>
          after.items[k].itemId == before.items[k].itemId
  }

  lemma ArmSameIds(s: State, call: Call)
    requires call.ArmBatch?
    ensures SameIds(s.batches, Apply(s, call).batches)
  {
    hide ArmRequestOk;
  }

  lemma RecoverSameIds(s: State, call: Call)
    requires call.RecoverBatch?
    ensures SameIds(s.batches, Apply(s, call).batches)
  {
    hide RecoverMatches;
  }

  lemma OtherCallsAddNothing(s: State, call: Call, id: string)
    requires Valid(s) && !call.StageBatch? && Stored(Apply(s, call), id)
    ensures Stored(s, id)
  {
    hide Valid;
    CallAddsNothing(s, call);
    var s' := Apply(s, call);
    var at := Locate(s'.batches, id).value;
    assert Stored(s, ItemAt(s'.batches, at).itemId);
  }

  lemma EvolvesAddsNothing(s: State, s': State, licence: Licence, id: string)
    requires Evolves(s, s', licence) && Stored(s', id)
    ensures Stored(s, id)
  {
    var at := Locate(s'.batches, id).value;
    assert BatchEvolves(s.batches[at.batch], s'.batches[at.batch], licence);
    assert ItemEvolves(s.batches[at.batch].items[at.item], s'.batches[at.batch].items[at.item], licence);
    StoredAt(s, at);
  }

  predicate Brings(batch: Batch, id: string) {
    exists k :: 0 <= k < |batch.items| && batch.items[k].itemId == id
  }

  /** Staging is the only call that adds a record, and it adds those of its batch. */
  lemma CallAddsExactly(s: State, call: Call, id: string)
    requires Valid(s) && Assumed(s, call) && !Stored(s, id)
    ensures Stored(Apply(s, call), id) <==> call.StageBatch? && Stage(s, call.batch).Ok? && Brings(call.batch, id)
  {
    hide Valid;
    var s' := Apply(s, call);
    if call.StageBatch? {
      if Stage(s, call.batch).Ok? {
        if Stored(s', id) {
          StageAddsOnlyItsItems(s, call.batch, id);
        } else if Brings(call.batch, id) {
          StagedIsStored(s, call.batch, id);
        }
      }
    } else {
      if Stored(s', id) {
        OtherCallsAddNothing(s, call, id);
      }
    }
  }

  lemma StagedIsStored(s: State, batch: Batch, id: string)
    requires Stage(s, batch).Ok? && Brings(batch, id)
    ensures Stored(Stage(s, batch).value, id)
  {
    var i := StageStores(s, batch);
    var s' := Stage(s, batch).value;
    hide Stage;
    var k :| 0 <= k < |batch.items| && batch.items[k].itemId == id;
    assert Holds(s'.batches[i], batch);
    var j := FindItem(s'.batches[i].items, batch.items[k].itemId).value;
    StoredAt(s', Location(i, j));
  }

  /** The runner's updates add no record. */
  lemma RunnerAddsNothing(w: World, e: Event, id: string)
    requires WorldOk(w) && Step(w, e).Some? && !e.ChannelCall? && Stored(Step(w, e).value.store, id)
    ensures Stored(w.store, id)
  {
    hide Valid, Evolves, FirstUpdate, SelectUpdate, OutcomeUpdate, RecordCancelled, Told, ChoiceOk;
    match e
    case Inspect(now) =>
      FirstAddsNothing(w.store, now, id);
    case Select(verifyProofs, attemptId, now) =>
      var r := SelectUpdate(w.store, w.phase.endpoint, w.phase.height, verifyProofs, attemptId, now);
      if r.Ok? {
        SelectUpdateKeeps(w.store, w.phase.endpoint, w.phase.height, verifyProofs, attemptId, now);
        EvolvesAddsNothing(w.store, r.value.state, SelectLicence(r), id);
      }
    case CancelBeforeSend(stored, message) =>
      var chosen := w.phase.selection.item.itemId;
      if stored && RecordCancelled(w.store, chosen, message).Ok? {
        RecordCancelledKeeps(w.store, chosen, message);
        EvolvesAddsNothing(w.store, RecordCancelled(w.store, chosen, message).value, Licence({}, {chosen}, {}), id);
      }
    case RecordOutcome(stored, message, now, random) =>
      if stored {
        OutcomeAddsNothing(w.store, w.phase.selection, w.phase.height, w.phase.response, message, now, random, id);
      }
    case _ =>
  }

  lemma FirstAddsNothing(s: State, now: Date, id: string)
    requires Valid(s) && Stored(FirstUpdate(s, now).0, id)
    ensures Stored(s, id)
  {
    RecoverInterruptedKeeps(s, now);
    EvolvesAddsNothing(s, RecoverInterrupted(s, now), PLAIN, id);
  }

  lemma OutcomeAddsNothing(s: State, selection: Selection, height: U64, response: Option<SendResponse>, message: string,
                           now: Date, random: Randomness, id: string)
    requires Valid(s) && RandomnessFits(s, selection.item.itemId, height, random)
    requires Stored(Written(s, OutcomeUpdate(s, selection, height, response, message, now, random)), id)
    ensures Stored(s, id)
  {
    hide Valid, Evolves, RecordAccepted, RecordRejected, RecordUncertain;
    var itemId := selection.item.itemId;
    var r := OutcomeUpdate(s, selection, height, response, message, now, random);
    if r.Ok? {
      if response.None? {
        RecordUncertainKeeps(s, itemId, message, now);
        EvolvesAddsNothing(s, r.value, PLAIN, id);
      } else if AcceptsResponse(response.value) {
        var reply := response.value;
        RecordAcceptedKeeps(s, itemId, reply.errorCode != 0, height, reply.errorCode, reply.errorMessage, now, random);
        var t := RecordAccepted(s, itemId, reply.errorCode != 0, height, reply.errorCode, reply.errorMessage, now,
                                random).value;
        MarkSentKeeps(t, selection.batchId, now);
        EvolvesAddsNothing(t, r.value, PLAIN, id);
        EvolvesAddsNothing(s, t, PLAIN, id);
      } else {
        RecordRejectedKeeps(s, itemId, height, response.value.errorCode, response.value.errorMessage, now);
        EvolvesAddsNothing(s, r.value, PLAIN, id);
      }
    }
  }

  // ----- How an attempt escapes the report

  /** Bytes of this id were handed to the transport, and the stored record does not show it. */
  predicate Unreported(w: World, id: string) {
    id in w.sent && Stored(w.store, id) && id in w.untried
  }

  predicate Selected(w: World, id: string) {
    w.phase.Chose? && w.phase.selection.item.itemId == id
  }

  /** A record is staged for an id that was sent and is no longer stored. */
  predicate StagesSent(w: World, e: Event, id: string) {
    && e.ChannelCall? && e.call.StageBatch? && Stage(w.store, e.call.batch).Ok? && Brings(e.call.batch, id)
    && !Stored(w.store, id) && id in w.sent
  }

  /** The bytes of a selected item are sent although its record was replaced by an untried one. */
  predicate SendsReplaced(w: World, e: Event, id: string) {
    e.Send? && Selected(w, id) && Stored(w.store, id) && id in w.untried && id !in w.sent
  }

  /** A selection is taken back that had hidden that the record was staged after an earlier send of its id. */
  predicate TakesBack(w: World, e: Event, id: string) {
    && e.CancelBeforeSend? && e.stored && Selected(w, id) && w.phase.untried && id in w.sent
    && RecordCancelled(w.store, id, e.message).Ok?
  }

  predicate Escapes(w: World, e: Event, id: string) {
    StagesSent(w, e, id) || SendsReplaced(w, e, id) || TakesBack(w, e, id)
  }

  /** Exactly when an attempt escapes: one of these three events, and no other, makes a stored sent id unreported. */
  lemma AttemptEscapesExactly(w: World, e: Event, id: string)
    requires WorldOk(w) && Step(w, e).Some?
    ensures !Unreported(w, id) && Unreported(Step(w, e).value, id) <==> Escapes(w, e, id)
  {
    if e.ChannelCall? {
      CallEscapes(w, e.call, id);
    } else {
      RunnerEscapes(w, e, id);
    }
  }

  lemma CallEscapes(w: World, call: Call, id: string)
    requires WorldOk(w) && Assumed(w.store, call)
    ensures var w' := Step(w, ChannelCall(call)).value;
            !Unreported(w, id) && Unreported(w', id) <==> StagesSent(w, ChannelCall(call), id)
  {
    hide Valid, Apply, Told, ChoiceOk, Stage;
    if !Stored(w.store, id) {
      CallAddsExactly(w.store, call, id);
    }
  }

  lemma RunnerEscapes(w: World, e: Event, id: string)
    requires WorldOk(w) && Step(w, e).Some? && !e.ChannelCall?
    ensures !Unreported(w, id) && Unreported(Step(w, e).value, id) <==> SendsReplaced(w, e, id) || TakesBack(w, e, id)
  {
    hide WorldOk, FirstUpdate, SelectUpdate, OutcomeUpdate, RecordCancelled;
    var w' := Step(w, e).value;
    if Stored(w'.store, id) {
      RunnerAddsNothing(w, e, id);
    }
    if e.CancelBeforeSend? {
      CancelEscapes(w, e, id);
    } else if !e.Send? {
      RunnerUntried(w, e, id);
    }
  }

  /** Apart from a send and a cancellation, the runner neither sends nor makes a stored record untried. */
  lemma RunnerUntried(w: World, e: Event, id: string)
    requires Step(w, e).Some? && !e.ChannelCall? && !e.Send? && !e.CancelBeforeSend?
    ensures Step(w, e).value.sent == w.sent
    ensures id in Step(w, e).value.untried ==> id in w.untried || !Stored(w.store, id)
  {
    hide FirstUpdate, SelectUpdate, OutcomeUpdate;
  }

  lemma CancelEscapes(w: World, e: Event, id: string)
    requires WorldOk(w) && Step(w, e).Some? && e.CancelBeforeSend?
    ensures !Unreported(w, id) && Unreported(Step(w, e).value, id) <==> TakesBack(w, e, id)
  {
    hide WorldOk, RecordCancelled, Attempted;
    var chosen := w.phase.selection.item.itemId;
    if e.stored && RecordCancelled(w.store, chosen, e.message).Ok? {
      CancelledTells(w, e.message);
      if Stored(Step(w, e).value.store, id) {
        RunnerAddsNothing(w, e, id);
      }
    }
  }

  // ----- What the app has to keep to

  /** Staging a record for an id that is not stored although it was sent, or is selected to be. */
  predicate Restages(w: World, e: Event) {
    && e.ChannelCall? && e.call.StageBatch?
    && exists k :: 0 <= k < |e.call.batch.items|
         && !Stored(w.store, e.call.batch.items[k].itemId)
         && (e.call.batch.items[k].itemId in w.sent || Selected(w, e.call.batch.items[k].itemId))
  }

  ghost predicate NeverRestages(w: World, events: seq<Event>)
    decreases |events|
  {
    events == [] ||
    (!Restages(w, events[0]) && (Step(w, events[0]).Some? ==> NeverRestages(Step(w, events[0]).value, events[1..])))
  }

  /** Nothing is unreported, nor will be by the selection under way. */
  ghost predicate NothingHidden(w: World) {
    && (forall id :: !Unreported(w, id))
    && (w.phase.Chose? ==>
          var id := w.phase.selection.item.itemId;
          (Stored(w.store, id) ==> id !in w.untried) && (w.phase.untried ==> id !in w.sent))
  }

  lemma NothingEscapes(w: World, e: Event, id: string)
    requires WorldOk(w) && NothingHidden(w) && Step(w, e).Some? && !Restages(w, e)
    ensures !Unreported(Step(w, e).value, id)
  {
    hide WorldOk, Step, Stage, RecordCancelled;
    AttemptEscapesExactly(w, e, id);
  }

  lemma SelectionStaysClean(w: World, e: Event)
    requires WorldOk(w) && NothingHidden(w) && Step(w, e).Some? && !Restages(w, e)
    ensures var w' := Step(w, e).value;
            w'.phase.Chose? ==>
              var id := w'.phase.selection.item.itemId;
              (Stored(w'.store, id) ==> id !in w'.untried) && (w'.phase.untried ==> id !in w'.sent)
  {
    hide Valid, Told, ChoiceOk, SelectUpdate, Apply, OutcomeUpdate, FirstUpdate, RecordCancelled;
    var w' := Step(w, e).value;
    if e.ChannelCall? && w.phase.Chose? {
      var id := w.phase.selection.item.itemId;
      if !Stored(w.store, id) {
        CallAddsExactly(w.store, e.call, id);
      }
    } else if e.Select? && w'.phase.Chose? {
      SelectedIsStored(w, e);
      assert !Unreported(w, w'.phase.selection.item.itemId);
    }
  }

  lemma SelectedIsStored(w: World, e: Event)
    requires WorldOk(w) && e.Select? && Step(w, e).Some? && Step(w, e).value.phase.Chose?
    ensures var w' := Step(w, e).value;
            var id := w'.phase.selection.item.itemId;
            Stored(w.store, id) && id !in w'.untried && w'.sent == w.sent && (w'.phase.untried <==> id in w.untried)
  {
    hide Valid, Told, ChoiceOk, SelectUpdate;
    SelectedRecord(w.store, w.phase.endpoint, w.phase.height, e.verifyProofs, e.attemptId, e.now);
  }

  lemma {:induction false} NothingHiddenRun(w: World, events: seq<Event>)
    requires WorldOk(w) && NothingHidden(w) && Run(w, events).Some? && NeverRestages(w, events)
    ensures NothingHidden(Run(w, events).value)
    decreases |events|
  {
    hide WorldOk, Step, Unreported;
    if events != [] {
      var w' := Step(w, events[0]).value;
      StepKeeps(w, events[0]);
      forall id
        ensures !Unreported(w', id)
      {
        NothingEscapes(w, events[0], id);
      }
      SelectionStaysClean(w, events[0]);
      NothingHiddenRun(w', events[1..]);
    }
  }

  /**
   * What the app has to keep to: when it never stages a record for an id whose
   * record was removed after its selection, every stored item whose bytes were
   * ever handed to the transport is reported, in every run.
   */
  lemma NoLostAttemptWithoutRestaging(events: seq<Event>, itemId: string)
    requires Run(INITIAL_WORLD, events).Some? && NeverRestages(INITIAL_WORLD, events)
    requires var w := Run(INITIAL_WORLD, events).value; itemId in w.sent && Stored(w.store, itemId)
    ensures Reported(Run(INITIAL_WORLD, events).value.store, itemId)
  {
    var w := Run(INITIAL_WORLD, events).value;
    InitialOk();
    NothingHiddenRun(INITIAL_WORLD, events);
    assert Reachable(w);
    assert !Unreported(w, itemId);
    NoLostAttempt(w, itemId);
  }

  /**
   * While a drain has returned nothing is in flight: only an id sent earlier and removed since can
   * be restaged amiss.
   */
  lemma DrainedStagingHidesExactly(w: World, batch: Batch, id: string)
    requires Reachable(w) && w.drained != {} && FreshBatch(w.store, batch)
    ensures var w' := Step(w, ChannelCall(StageBatch(batch))).value;
            !Unreported(w, id) && Unreported(w', id)
            <==> Stage(w.store, batch).Ok? && Brings(batch, id) && !Stored(w.store, id) && id in w.sent
    ensures Restages(w, ChannelCall(StageBatch(batch))) <==>
              exists k :: 0 <= k < |batch.items| && !Stored(w.store, batch.items[k].itemId)
                && batch.items[k].itemId in w.sent
  {
    ReachableOk(w);
    hide Valid, Told, ChoiceOk, Stage;
    CallEscapes(w, StageBatch(batch), id);
  }
}
