/**
 * When a proof-ready notice can be acknowledged once more: exactly after its
 * record was restaged for another proof height or removed and staged again.
 */
module OutboxReopening {
  import opened Common
  import opened Sequences
  import opened OutboxTypes
  import opened OutboxPeers
  import opened OutboxOps
  import opened OutboxInvariant
  import opened OutboxRecords
  import opened OutboxRunner
  import opened OutboxWorld
  import opened OutboxSafety
  import opened OutboxTheorems
  import opened OutboxNotices
  import opened OutboxRetries

  // ----- Only an acknowledgement delivers a notice

  /** Every delivered notice was delivered before, under the same batch id. */
  ghost predicate DeliversNothing(s: State, s': State) {
    forall id, notice :: DeliveredIn(s', id, notice) ==> DeliveredIn(s, id, notice)
  }

  /** Batch by batch: each comes from one of the same id whose delivered notices include its own. */
  ghost predicate ComesFrom(b: Batch, batches: seq<Batch>) {
    exists i :: 0 <= i < |batches| && DeliversLess(batches[i], b)
  }

  predicate DeliversLess(a: Batch, b: Batch) {
    && a.batchId == b.batchId
    && (b.proofNotifiedAt.Some? ==> a.proofNotifiedAt.Some?)
    && (b.heightNoticedAt.Some? ==> a.heightNoticedAt.Some?)
  }

  predicate Undelivered(b: Batch) {
    b.proofNotifiedAt.None? && b.heightNoticedAt.None?
  }

  lemma FromEach(s: State, s': State)
    requires forall j :: 0 <= j < |s'.batches| ==> ComesFrom(s'.batches[j], s.batches) || Undelivered(s'.batches[j])
    ensures DeliversNothing(s, s')
  {
    forall id, notice | DeliveredIn(s', id, notice)
      ensures DeliveredIn(s, id, notice)
    {
      var j :| 0 <= j < |s'.batches| && s'.batches[j].batchId == id && Delivered(s'.batches[j], notice);
      var i :| 0 <= i < |s.batches| && DeliversLess(s.batches[i], s'.batches[j]);
    }
  }

  /** A step that changes batches in place. */
  lemma InPlace(s: State, s': State)
    requires |s'.batches| == |s.batches|
    requires forall i :: 0 <= i < |s.batches| ==> DeliversLess(s.batches[i], s'.batches[i])
    ensures DeliversNothing(s, s')
  {
    forall j | 0 <= j < |s'.batches|
      ensures ComesFrom(s'.batches[j], s.batches)
    {
      assert DeliversLess(s.batches[j], s'.batches[j]);
    }
    FromEach(s, s');
  }

  lemma StoredComesFrom(b: Batch, batches: seq<Batch>)
    requires b in batches
    ensures ComesFrom(b, batches)
  {
    var i :| 0 <= i < |batches| && batches[i] == b;
    assert DeliversLess(batches[i], b);
  }

  lemma Composed(s: State, t: State, u: State)
    requires DeliversNothing(s, t) && DeliversNothing(t, u)
    ensures DeliversNothing(s, u)
  {
  }

  lemma StageDeliversNothing(s: State, batch: Batch)
    requires Stage(s, batch).Ok?
    ensures DeliversNothing(s, Stage(s, batch).value)
  {
    hide NewItems;
    var s' := Stage(s, batch).value;
    forall j | 0 <= j < |s'.batches|
      ensures ComesFrom(s'.batches[j], s.batches) || Undelivered(s'.batches[j])
    {
      assert j < |s.batches| ==> DeliversLess(s.batches[j], s'.batches[j]);
    }
    FromEach(s, s');
  }

  lemma AcknowledgeDeliversNothing(s: State, ids: set<ReceiptId>)
    ensures DeliversNothing(s, AcknowledgeReceipts(s, ids))
  {
    var s' := AcknowledgeReceipts(s, ids);
    forall j | 0 <= j < |s'.batches|
      ensures ComesFrom(s'.batches[j], s.batches)
    {
      var i := PruneOrigin(s.batches, AckedItemIds(s.receipts, ids), Finished(s.receipts, ids), j);
      assert DeliversLess(s.batches[i], s'.batches[j]);
    }
    FromEach(s, s');
  }

  lemma RevokeDeliversNothing(s: State, network: string, accountUuid: string)
    ensures DeliversNothing(s, Revoke(s, network, accountUuid))
  {
    var s' := Revoke(s, network, accountUuid);
    var keep := OutsideBatches(ScopeBatchIds(s.batches, network, accountUuid));
    forall j | 0 <= j < |s'.batches|
      ensures ComesFrom(s'.batches[j], s.batches)
    {
      assert s'.batches[j] in s'.batches;
      FilterMember(s.batches, keep, s'.batches[j]);
      StoredComesFrom(s'.batches[j], s.batches);
    }
    FromEach(s, s');
  }

  lemma RemoveOneDeliversNothing(s: State, s': State, i: nat)
    requires i < |s.batches| && s'.batches == RemoveAt(s.batches, i)
    ensures DeliversNothing(s, s')
  {
    forall j | 0 <= j < |s'.batches|
      ensures ComesFrom(s'.batches[j], s.batches)
    {
      StoredComesFrom(s'.batches[j], s.batches);
    }
    FromEach(s, s');
  }

  lemma AckSentDeliversNothing(s: State, batchId: string, now: Date)
    requires AcknowledgeSent(s, batchId, now).Ok?
    ensures DeliversNothing(s, AcknowledgeSent(s, batchId, now).value)
  {
    var s' := AcknowledgeSent(s, batchId, now).value;
    var i := FindBatch(s.batches, batchId).value;
    if |s'.batches| < |s.batches| {
      RemoveOneDeliversNothing(s, s', i);
    } else {
      InPlace(s, s');
    }
  }

  /** A call other than the acknowledgement itself delivers no notice. */
  lemma CallDeliversNothing(s: State, call: Call)
    requires !call.AckProof? && !call.AckHeight?
    ensures DeliversNothing(s, Apply(s, call))
  {
    hide DeliversNothing;
    match call
    case StageBatch(batch) =>
      if Stage(s, batch).Ok? {
        StageDeliversNothing(s, batch);
      } else {
        InPlace(s, s);
      }
    case AckReceipts(ids) => AcknowledgeDeliversNothing(s, ids);
    case RevokeScope(network, account) => RevokeDeliversNothing(s, network, account);
    case Discard(id) =>
      if DiscardBatch(s, id).Ok? && FindBatch(s.batches, id).Some? {
        RemoveOneDeliversNothing(s, Apply(s, call), FindBatch(s.batches, id).value);
      } else {
        InPlace(s, s);
      }
    case AckSent(id, now) =>
      if AcknowledgeSent(s, id, now).Ok? {
        AckSentDeliversNothing(s, id, now);
      } else {
        InPlace(s, s);
      }
    case RemoveAll => FromEach(s, EMPTY_STATE);
    case ArmBatch(id, digests, now) =>
      hide ArmRequestOk;
      InPlace(s, Apply(s, call));
    case RecoverBatch(id, network, account, run, txids, url, now) =>
      hide RecoverMatches;
      InPlace(s, Apply(s, call));
    case VerifiedProof(network, account, run, now) => InPlace(s, Apply(s, call));
    case HeightNotice(id, now) => InPlace(s, Apply(s, call));
  }

  lemma RetireDeliversNothing(s: State, why: Retirement, height: U64, endpoint: string, now: Date)
    ensures DeliversNothing(s, Retire(s, why, height, endpoint, now))
  {
    InPlace(s, Retire(s, why, height, endpoint, now));
  }

  lemma PrepareDeliversNothing(s: State, endpoint: string, height: U64, verifyProofs: bool, now: Date)
    ensures DeliversNothing(s, Prepare(s, endpoint, height, verifyProofs, now))
  {
    hide Retire, DeliversNothing;
    var s1 := ExpireItems(s, height, endpoint, now);
    RetireDeliversNothing(s, PastExpiry, height, endpoint, now);
    var s2 := MarkNeedingResign(s1, height, endpoint, now);
    if CanonicalExpiry(height).Some? {
      RetireDeliversNothing(s1, OtherWindow(CanonicalExpiry(height).value), height, endpoint, now);
      Composed(s, s1, s2);
    }
    if !verifyProofs {
      InPlace(s2, MarkProofReady(s2, height, endpoint, now).0);
      Composed(s, s2, MarkProofReady(s2, height, endpoint, now).0);
    }
  }

  /** Putting one item of a batch delivers nothing. */
  lemma ItemDeliversNothing(s: State, at: Location, item: Item)
    requires At(s.batches, at)
    ensures DeliversNothing(s, WithItem(s, at, item))
  {
    InPlace(s, WithItem(s, at, item));
  }

  lemma SelectDeliversNothing(s: State, endpoint: string, height: U64, verifyProofs: bool, attemptId: string, now: Date)
    requires SelectUpdate(s, endpoint, height, verifyProofs, attemptId, now).Ok?
    ensures DeliversNothing(s, SelectUpdate(s, endpoint, height, verifyProofs, attemptId, now).value.state)
  {
    hide Prepare, DeliversNothing;
    var t := Prepare(s, endpoint, height, verifyProofs, now);
    PrepareDeliversNothing(s, endpoint, height, verifyProofs, now);
    var (t', selection) := SelectDue(t, height, Some(endpoint), now);
    InPlace(t, t');
    Composed(s, t, t');
    if selection.Some? {
      var at := Transition(t', selection.value.item.itemId, Armed).value;
      var u := BeginSubmission(t', selection.value.item.itemId, attemptId, now).value;
      ItemDeliversNothing(t', at, ItemAt(u.batches, at));
      Composed(s, t', u);
    }
  }

  lemma OutcomeDeliversNothing(s: State, selection: Selection, height: U64, response: Option<SendResponse>,
                               message: string, now: Date, random: Randomness)
    requires RandomnessFits(s, selection.item.itemId, height, random)
    requires OutcomeUpdate(s, selection, height, response, message, now, random).Ok?
    ensures DeliversNothing(s, OutcomeUpdate(s, selection, height, response, message, now, random).value)
  {
    hide RandomnessFits, AcceptsResponse, DeliversNothing, Reschedule, RecordUncertain, RecordRejected, RecordAccepted;
    var id := selection.item.itemId;
    var s' := OutcomeUpdate(s, selection, height, response, message, now, random).value;
    if response.None? {
      UncertainDeliversNothing(s, id, message, now);
    } else if AcceptsResponse(response.value) {
      var r := response.value;
      var t := RecordAccepted(s, id, r.errorCode != 0, height, r.errorCode, r.errorMessage, now, random).value;
      AcceptedDeliversNothing(s, id, r.errorCode != 0, height, r.errorCode, r.errorMessage, now, random);
      InPlace(t, MarkSent(t, selection.batchId, now));
      Composed(s, t, s');
    } else {
      RejectedDeliversNothing(s, id, height, response.value.errorCode, response.value.errorMessage, now);
    }
  }

  lemma UncertainDeliversNothing(s: State, id: string, message: string, now: Date)
    requires RecordUncertain(s, id, message, now).Ok?
    ensures DeliversNothing(s, RecordUncertain(s, id, message, now).value)
  {
    InPlace(s, RecordUncertain(s, id, message, now).value);
  }

  lemma AcceptedDeliversNothing(s: State, id: string, equivalent: bool, height: U64, code: int, message: string,
                                now: Date,
                                random: Randomness)
    requires RandomnessFits(s, id, height, random)
    requires RecordAccepted(s, id, equivalent, height, code, message, now, random).Ok?
    ensures DeliversNothing(s, RecordAccepted(s, id, equivalent, height, code, message, now, random).value)
  {
    hide RandomnessFits, Reschedule;
    InPlace(s, RecordAccepted(s, id, equivalent, height, code, message, now, random).value);
  }

  lemma RejectedDeliversNothing(s: State, id: string, height: U64, code: int, message: string, now: Date)
    requires RecordRejected(s, id, height, code, message, now).Ok?
    ensures DeliversNothing(s, RecordRejected(s, id, height, code, message, now).value)
  {
    InPlace(s, RecordRejected(s, id, height, code, message, now).value);
  }

  lemma AckDeliversItsOwn(s: State, call: Call, id: string, notice: Notice)
    requires call.AckProof? || call.AckHeight?
    requires !DeliveredIn(s, id, notice) && DeliveredIn(Apply(s, call), id, notice)
    ensures call.batchId == id
    ensures if call.AckProof? then notice == VerifiedNotice && AcknowledgeProofReady(s, id, call.now).Ok?
            else notice == HeightNudge && AcknowledgeHeightNotice(s, id, call.now).Ok?
  {
    var s' := Apply(s, call);
    var j :| 0 <= j < |s'.batches| && s'.batches[j].batchId == id && Delivered(s'.batches[j], notice);
    assert s.batches[j].batchId == id ==> !Delivered(s.batches[j], notice);
  }

  /** A notice becomes delivered by its own acknowledgement only. */
  lemma DeliveryHasACause(w: World, e: Event, id: string, notice: Notice)
    requires Step(w, e).Some? && !DeliveredIn(w.store, id, notice) && DeliveredIn(Step(w, e).value.store, id, notice)
    ensures AcksNotice(w, e, id, notice)
  {
    hide DeliveredIn, SelectUpdate, OutcomeUpdate, RecordCancelled, FirstUpdate;
    match e
    case ChannelCall(call) =>
      if call.AckProof? || call.AckHeight? {
        AckDeliversItsOwn(w.store, call, id, notice);
      } else {
        CallDeliversNothing(w.store, call);
      }
    case Inspect(now) =>
      FirstDeliversNothing(w.store, now);
    case Select(verifyProofs, attemptId, now) =>
      if SelectUpdate(w.store, w.phase.endpoint, w.phase.height, verifyProofs, attemptId, now).Ok? {
        SelectDeliversNothing(w.store, w.phase.endpoint, w.phase.height, verifyProofs, attemptId, now);
      }
    case CancelBeforeSend(stored, message) =>
      CancelDeliversNothing(w.store, w.phase.selection.item.itemId, message);
    case RecordOutcome(stored, message, now, random) =>
      if OutcomeUpdate(w.store, w.phase.selection, w.phase.height, w.phase.response, message, now, random).Ok? {
        OutcomeDeliversNothing(w.store, w.phase.selection, w.phase.height, w.phase.response, message, now, random);
      }
    case _ =>
  }

  lemma FirstDeliversNothing(s: State, now: Date)
    ensures DeliversNothing(s, FirstUpdate(s, now).0)
  {
    InPlace(s, FirstUpdate(s, now).0);
  }

  lemma CancelDeliversNothing(s: State, id: string, message: string)
    ensures RecordCancelled(s, id, message).Ok? ==> DeliversNothing(s, RecordCancelled(s, id, message).value)
  {
    if RecordCancelled(s, id, message).Ok? {
      InPlace(s, RecordCancelled(s, id, message).value);
    }
  }

  // ----- Delivered until restaged or removed

  /** Restaging for another proof height starts the notices over. */
  lemma ResetReopens(w: World, e: Event, id: string, notice: Notice)
    requires WorldOk(w) && Step(w, e).Some? && id in EventResets(w, e)
    ensures !DeliveredIn(Step(w, e).value.store, id, notice)
  {
    hide NewItems, Told, ChoiceOk;
    assert UniqueBatches(w.store.batches);
  }

  lemma {:induction false} UndeliveredStays(w: World, events: seq<Event>, id: string, notice: Notice)
    requires Run(w, events).Some? && !DeliveredIn(w.store, id, notice) && NeverAcksNotice(w, events, id, notice)
    ensures !DeliveredIn(Run(w, events).value.store, id, notice)
    decreases |events|
  {
    hide Step, DeliveredIn, AcksNotice;
    if events != [] {
      if DeliveredIn(Step(w, events[0]).value.store, id, notice) {
        DeliveryHasACause(w, events[0], id, notice);
      }
      UndeliveredStays(Step(w, events[0]).value, events[1..], id, notice);
    }
  }

  /**
   * Without a further acknowledgement, a delivered notice is still delivered exactly when its
   * record was never reset or removed.
   */
  lemma {:induction false} DeliveredExactly(w: World, events: seq<Event>, id: string, notice: Notice)
    requires WorldOk(w) && DeliveredIn(w.store, id, notice)
    requires Run(w, events).Some? && NeverAcksNotice(w, events, id, notice)
    ensures DeliveredIn(Run(w, events).value.store, id, notice) <==> SameProofHeight(w, events, id)
    decreases |events|
  {
    hide WorldOk, Step, DeliveredIn, AcksNotice, EventResets;
    if events != [] {
      var w' := Step(w, events[0]).value;
      StepKeeps(w, events[0]);
      if id in EventResets(w, events[0]) {
        ResetReopens(w, events[0], id, notice);
        UndeliveredStays(w', events[1..], id, notice);
      } else if !HasBatch(w'.store, id) {
        RemovedIsUndelivered(w'.store, id, notice);
        UndeliveredStays(w', events[1..], id, notice);
      } else {
        DeliveredStays(w, events[0], id, notice);
        DeliveredExactly(w', events[1..], id, notice);
      }
    }
  }

  lemma RemovedIsUndelivered(s: State, id: string, notice: Notice)
    requires !HasBatch(s, id)
    ensures !DeliveredIn(s, id, notice)
  {
  }

  // ----- When an acknowledgement can still come

  /** Some continuation that neither restages the record for another height nor removes it acknowledges the notice. */
  ghost predicate CanAcknowledge(w: World, id: string, notice: Notice) {
    exists events, e :: Acknowledges(w, events, e, id, notice)
  }

  ghost predicate Acknowledges(w: World, events: seq<Event>, e: Event, id: string, notice: Notice) {
    && Run(w, events).Some? && SameProofHeight(w, events, id)
    && AcksNotice(Run(w, events).value, e, id, notice)
  }

  /** One more call that leaves the record in place. */
  lemma CallOnce(start: World, events: seq<Event>, w: World, call: Call, id: string)
    returns (events': seq<Event>, w': World)
    requires Run(start, events) == Some(w) && SameProofHeight(start, events, id) && WorldOk(w)
    requires Assumed(w.store, call) && HasBatch(Apply(w.store, call), id) && id !in EventResets(w, ChannelCall(call))
    ensures Run(start, events') == Some(w') && SameProofHeight(start, events', id) && WorldOk(w')
    ensures w'.store == Apply(w.store, call)
  {
    hide WorldOk, Apply, EventResets;
    events', w' := events + [ChannelCall(call)], Step(w, ChannelCall(call)).value;
    StepKeeps(w, ChannelCall(call));
    CallAppended(start, events, w, call, id);
  }

  lemma {:induction false} CallAppended(start: World, events: seq<Event>, w: World, call: Call, id: string)
    requires Run(start, events) == Some(w) && SameProofHeight(start, events, id)
    requires Assumed(w.store, call) && HasBatch(Apply(w.store, call), id) && id !in EventResets(w, ChannelCall(call))
    ensures var events' := events + [ChannelCall(call)];
            Run(start, events') == Step(w, ChannelCall(call)) && SameProofHeight(start, events', id)
    decreases |events|
  {
    hide Apply, EventResets, HasBatch;
    var events' := events + [ChannelCall(call)];
    if events == [] {
      assert events' == [ChannelCall(call)] && events'[1..] == [];
    } else {
      assert events'[0] == events[0] && events'[1..] == events[1..] + [ChannelCall(call)];
      CallAppended(Step(start, events[0]).value, events[1..], w, call, id);
    }
  }

  /** Whether a record still has this notice coming: owed already, or still to be queued for a watched height. */
  predicate Open(b: Batch, notice: Notice) {
    match notice
    case VerifiedNotice => b.proofPendingAt.Some? || (b.proofNotifiedAt.None? && b.nextProofHeight.Some?)
    case HeightNudge =>
      b.heightPendingAt.Some?
      || (b.heightNoticedAt.None? && b.proofPendingAt.None? && b.proofNotifiedAt.None? && b.nextProofHeight.Some?)
  }

  ghost predicate OpenIn(s: State, id: string, notice: Notice) {
    exists i :: 0 <= i < |s.batches| && s.batches[i].batchId == id && Open(s.batches[i], notice)
  }

  lemma ClosedStays(w: World, e: Event, id: string, notice: Notice)
    requires WorldOk(w) && Step(w, e).Some? && HasBatch(w.store, id) && !OpenIn(w.store, id, notice)
    requires id !in EventResets(w, e)
    ensures !OpenIn(Step(w, e).value.store, id, notice)
  {
    hide Valid, Step, Lifecycle, EventResets;
    var licence := StepStored(w, e);
    var s, s' := w.store, Step(w, e).value.store;
    var i :| 0 <= i < |s.batches| && s.batches[i].batchId == id;
    forall j | 0 <= j < |s'.batches| && s'.batches[j].batchId == id
      ensures !Open(s'.batches[j], notice)
    {
      assert NoticesKept(s.batches[i], s'.batches[j]);
    }
  }

  lemma AcknowledgedIsOpen(w: World, e: Event, id: string, notice: Notice)
    requires AcksNotice(w, e, id, notice)
    ensures OpenIn(w.store, id, notice)
  {
    var i := FindBatch(w.store.batches, id).value;
    assert Open(w.store.batches[i], notice);
  }

  lemma {:induction false} ClosedNeverAcknowledged(w: World, events: seq<Event>, e: Event, id: string, notice: Notice)
    requires WorldOk(w) && HasBatch(w.store, id) && !OpenIn(w.store, id, notice)
    requires Run(w, events).Some? && SameProofHeight(w, events, id)
    ensures !AcksNotice(Run(w, events).value, e, id, notice)
    decreases |events|
  {
    hide WorldOk, Step, OpenIn, AcksNotice, EventResets;
    if events == [] {
      if AcksNotice(w, e, id, notice) {
        AcknowledgedIsOpen(w, e, id, notice);
      }
    } else {
      StepKeeps(w, events[0]);
      ClosedStays(w, events[0], id, notice);
      ClosedNeverAcknowledged(Step(w, events[0]).value, events[1..], e, id, notice);
    }
  }

  // ----- The continuation that acknowledges

  /** The record of the id is this batch. */
  ghost predicate HasRecord(s: State, id: string, b: Batch) {
    b.batchId == id && b in s.batches
  }

  lemma FoundBatch(s: State, id: string, b: Batch) returns (i: nat)
    requires UniqueBatches(s.batches) && HasRecord(s, id, b)
    ensures FindBatch(s.batches, id) == Some(i) && i < |s.batches| && s.batches[i] == b
  {
    i :| 0 <= i < |s.batches| && s.batches[i] == b;
    var j := FindBatch(s.batches, id).value;
    assert s.batches[j].batchId == s.batches[i].batchId;
  }

  /** The other batches that watch a proof height. */
  function Rivals(s: State, id: string): set<string> {
    set b | b in s.batches && b.batchId != id && b.nextProofHeight.Some? :: b.batchId
  }

  /** The item as it was first staged. */
  function Unsent(item: Item): Item {
    item.(status := Staged, attemptCount := 0, attemptId := None, attemptStartedAt := None, nextAttemptAt := None)
  }

  /** A request to stage a stored batch anew, without a proof height. */
  function Unwatched(b: Batch): Batch {
    Batch(b.batchId, b.network, b.accountUuid, b.runId, b.url, b.timingMean, b.timingMax, 0,
          None, None, None, None, None, None, None, None, MapItems(b.items, it => Unsent(it)))
  }

  lemma UnwatchedStages(s: State, i: nat)
    requires Valid(s) && i < |s.batches| && s.batches[i].items != [] && s.batches[i].nextProofHeight.Some?
    ensures FreshBatch(s, Unwatched(s.batches[i])) && Stage(s, Unwatched(s.batches[i])).Ok?
    ensures var s' := Stage(s, Unwatched(s.batches[i])).value;
            && |s'.batches| == |s.batches| && s'.batches[i].batchId == s.batches[i].batchId
                && s'.batches[i].nextProofHeight.None?
            && forall j :: 0 <= j < |s.batches| && j != i ==> s'.batches[j] == s.batches[j]
  {
    var b := s.batches[i];
    var request := Unwatched(b);
    assert BatchOk(b);
    assert ValidNewBatch(request);
    UnwatchedIsFresh(s, i);
    assert FindBatch(s.batches, b.batchId) == Some(i) by {
      var j := FoundBatch(s, b.batchId, b);
      assert s.batches[j].batchId == s.batches[i].batchId;
    }
    HeldByItself(b.items, request.items);
    NothingNew(b.items, request.items);
  }

  lemma HeldByItself(items: seq<Item>, copies: seq<Item>)
    requires DistinctItems(items) && |copies| == |items|
    requires forall k :: 0 <= k < |items| ==> copies[k] == Unsent(items[k])
    ensures HoldsItems(items, copies)
  {
    forall k | 0 <= k < |copies|
      ensures FindItem(items, copies[k].itemId) == Some(k)
    {
    }
  }

  lemma UnwatchedIsFresh(s: State, i: nat)
    requires Valid(s) && i < |s.batches|
    ensures FreshBatch(s, Unwatched(s.batches[i]))
  {
    var request := Unwatched(s.batches[i]);
    assert BatchOk(s.batches[i]);
    forall j, k, m | 0 <= j < |s.batches| && s.batches[j].batchId != request.batchId
                     && 0 <= k < |s.batches[j].items| && 0 <= m < |request.items|
      ensures s.batches[j].items[k].itemId != request.items[m].itemId
    {
      var x, y := Location(j, k), Location(i, m);
      assert At(s.batches, x) && At(s.batches, y);
      assert ItemAt(s.batches, y).itemId == request.items[m].itemId;
    }
  }

  /** A batch without items was never delivered and has no receipt, so it can be discarded. */
  lemma EmptyDiscards(s: State, i: nat)
    requires Valid(s) && i < |s.batches| && s.batches[i].items == []
    ensures DiscardBatch(s, s.batches[i].batchId) == Ok((s.(batches := RemoveAt(s.batches, i)), true))
  {
    var b := s.batches[i];
    var j := FoundBatch(s, b.batchId, b);
    assert j == i;
    EmptyBatchHasNoReceipt(s, i);
  }

  /** The call that stops one rival from watching. */
  function Unwatch(b: Batch): Call {
    if b.items == [] then Discard(b.batchId) else StageBatch(Unwatched(b))
  }

  lemma UnwatchOne(s: State, i: nat, id: string, b: Batch)
    requires Valid(s) && i < |s.batches| && s.batches[i].batchId != id && s.batches[i].nextProofHeight.Some?
    requires HasRecord(s, id, b)
    ensures Assumed(s, Unwatch(s.batches[i]))
    ensures var s' := Apply(s, Unwatch(s.batches[i]));
            HasRecord(s', id, b) && Rivals(s', id) == Rivals(s, id) - {s.batches[i].batchId}
  {
    var rival := s.batches[i];
    var s' := Apply(s, Unwatch(rival));
    assert UniqueBatches(s.batches);
    var at := FoundBatch(s, id, b);
    if rival.items == [] {
      EmptyDiscards(s, i);
      assert s'.batches[if at < i then at else at - 1] == b;
      OthersRemain(s, s', i, id);
    } else {
      UnwatchedStages(s, i);
      assert s'.batches[at] == b;
      OthersRemain(s, s', i, id);
    }
  }

  /** Batch `i` is gone or watches nothing now, and the others are as they were. */
  lemma OthersRemain(s: State, s': State, i: nat, id: string)
    requires UniqueBatches(s.batches) && i < |s.batches| && s.batches[i].batchId != id
    requires s'.batches == RemoveAt(s.batches, i)
             || (&& |s'.batches| == |s.batches| && s'.batches[i].nextProofHeight.None?
                 && s'.batches[i].batchId == s.batches[i].batchId
                 && forall j :: 0 <= j < |s.batches| && j != i ==> s'.batches[j] == s.batches[j])
    ensures Rivals(s', id) == Rivals(s, id) - {s.batches[i].batchId}
  {
    hide Rivals;
    forall b: Batch | b.nextProofHeight.Some?
      ensures b in s'.batches <==> b in s.batches && b.batchId != s.batches[i].batchId
    {
      if s'.batches == RemoveAt(s.batches, i) {
        RemovedMember(s.batches, i, b);
      } else {
        UnwatchedMember(s.batches, s'.batches, i, b);
      }
    }
    RivalsOf(s, s', id, s.batches[i].batchId);
  }

  lemma RemovedMember(batches: seq<Batch>, i: nat, b: Batch)
    requires UniqueBatches(batches) && i < |batches|
    ensures b in RemoveAt(batches, i) <==> b in batches && b.batchId != batches[i].batchId
  {
    var left := RemoveAt(batches, i);
    if b in batches && b.batchId != batches[i].batchId {
      var j :| 0 <= j < |batches| && batches[j] == b;
      assert left[if i < j then j - 1 else j] == b;
    }
    if b in left {
      var j :| 0 <= j < |left| && left[j] == b;
      assert batches[if i <= j then j + 1 else j] == b;
    }
  }

  lemma UnwatchedMember(batches: seq<Batch>, left: seq<Batch>, i: nat, b: Batch)
    requires UniqueBatches(batches) && i < |batches| == |left| && left[i].nextProofHeight.None?
    requires forall j :: 0 <= j < |batches| && j != i ==> left[j] == batches[j]
    requires b.nextProofHeight.Some?
    ensures b in left <==> b in batches && b.batchId != batches[i].batchId
  {
    if b in batches && b.batchId != batches[i].batchId {
      var j :| 0 <= j < |batches| && batches[j] == b;
      assert left[j] == b;
    }
    if b in left {
      var j :| 0 <= j < |left| && left[j] == b;
      assert batches[j] == b;
    }
  }

  lemma RivalsOf(s: State, s': State, id: string, gone: string)
    requires forall b: Batch {:trigger b in s'.batches} :: b.nextProofHeight.Some? ==>
               (b in s'.batches <==> b in s.batches && b.batchId != gone)
    ensures Rivals(s', id) == Rivals(s, id) - {gone}
  {
  }

  /** After some calls, none of which touches the record, no other batch watches a height. */
  lemma {:induction false} UnwatchAll(start: World, events: seq<Event>, w: World, id: string, b: Batch)
    returns (events': seq<Event>, w': World)
    requires Run(start, events) == Some(w) && SameProofHeight(start, events, id) && WorldOk(w)
             && HasRecord(w.store, id, b)
    ensures Run(start, events') == Some(w') && SameProofHeight(start, events', id) && WorldOk(w')
    ensures HasRecord(w'.store, id, b) && Rivals(w'.store, id) == {}
    decreases |Rivals(w.store, id)|
  {
    events', w' := events, w;
    if Rivals(w.store, id) != {} {
      var i := SomeRival(w.store, id);
      hide *;
      var rival := w.store.batches[i];
      OkValid(w);
      UnwatchOne(w.store, i, id, b);
      UnwatchResets(w, rival, id);
      RecordIsBatch(Apply(w.store, Unwatch(rival)), id, b);
      RivalListed(w.store, rival, id);
      events', w' := CallOnce(start, events, w, Unwatch(rival), id);
      events', w' := UnwatchAll(start, events', w', id, b);
    }
  }

  lemma SomeRival(s: State, id: string) returns (i: nat)
    requires Rivals(s, id) != {}
    ensures i < |s.batches| && s.batches[i].batchId != id && s.batches[i].nextProofHeight.Some?
  {
    var rival :| rival in s.batches && rival.batchId != id && rival.nextProofHeight.Some?;
    i :| 0 <= i < |s.batches| && s.batches[i] == rival;
  }

  lemma OkValid(w: World)
    requires WorldOk(w)
    ensures Valid(w.store)
  {
  }

  lemma RivalListed(s: State, rival: Batch, id: string)
    requires rival in s.batches && rival.batchId != id && rival.nextProofHeight.Some?
    ensures rival.batchId in Rivals(s, id)
  {
  }

  lemma RecordIsBatch(s: State, id: string, b: Batch)
    requires HasRecord(s, id, b)
    ensures HasBatch(s, id)
  {
    var i :| 0 <= i < |s.batches| && s.batches[i] == b;
  }

  lemma UnwatchResets(w: World, rival: Batch, id: string)
    requires rival.batchId != id
    ensures id !in EventResets(w, ChannelCall(Unwatch(rival)))
  {
    hide Stage;
  }

  /** Arming a record that watches a height, and nothing else. */
  lemma ArmsRecord(s: State, id: string, b: Batch)
    requires Valid(s) && HasRecord(s, id, b) && b.nextProofHeight.Some?
    ensures var s' := Apply(s, ArmBatch(id, map[], 0));
            && HasRecord(s', id, b.(armedAt := if b.armedAt.None? then Some(0) else b.armedAt))
            && Rivals(s', id) == Rivals(s, id)
  {
    assert UniqueBatches(s.batches);
    var i := FoundBatch(s, id, b);
    var s' := Apply(s, ArmBatch(id, map[], 0));
    var b' := b.(armedAt := if b.armedAt.None? then Some(0) else b.armedAt);
    assert MapItems(b.items, it => ArmItem(it, map[])) == b.items;
    assert s'.batches == s.batches[i := b'];
    assert s'.batches[i] == b';
    SameRivals(s, s', i, id);
  }

  lemma SameRivals(s: State, s': State, i: nat, id: string)
    requires i < |s.batches| == |s'.batches| && s'.batches == s.batches[i := s'.batches[i]]
    requires s.batches[i].batchId == id && s'.batches[i].batchId == id
    ensures Rivals(s', id) == Rivals(s, id)
  {
    forall b: Batch | b.batchId != id
      ensures b in s.batches <==> b in s'.batches
    {
      if b in s.batches {
        var j :| 0 <= j < |s.batches| && s.batches[j] == b;
        assert s'.batches[j] == b;
      }
      if b in s'.batches {
        var j :| 0 <= j < |s'.batches| && s'.batches[j] == b;
        assert s.batches[j] == b;
      }
    }
  }

  /** With no rival, verification marks the armed record. */
  lemma VerifiesRecord(s: State, id: string, b: Batch)
    requires Valid(s) && HasRecord(s, id, b) && b.armedAt.Some? && b.nextProofHeight.Some?
    requires b.proofNotifiedAt.None? && b.proofPendingAt.None? && Rivals(s, id) == {}
    ensures HasRecord(Apply(s, VerifiedProof(b.network, b.accountUuid, b.runId, 0)), id, b.(proofPendingAt := Some(0)))
  {
    assert UniqueBatches(s.batches);
    var i := FoundBatch(s, id, b);
    var test := VerifiedFor(b.network, b.accountUuid, b.runId);
    forall k | 0 <= k < |s.batches| && test(s.batches[k])
      ensures k == i
    {
      if s.batches[k].batchId != id {
        RivalListed(s, s.batches[k], id);
      }
    }
    FirstProofUnique(s.batches, test, i);
    var s' := Apply(s, VerifiedProof(b.network, b.accountUuid, b.runId, 0));
    assert s'.batches[i] == b.(proofPendingAt := Some(0));
  }

  lemma OpenRecord(w: World, id: string, notice: Notice) returns (b: Batch)
    requires WorldOk(w) && OpenIn(w.store, id, notice)
    ensures HasRecord(w.store, id, b) && Open(b, notice)
  {
    var i :| 0 <= i < |w.store.batches| && w.store.batches[i].batchId == id && Open(w.store.batches[i], notice);
    b := w.store.batches[i];
  }

  /** An open verified notice: let every rival stop watching, arm the record, verify, acknowledge. */
  lemma VerifiedComes(w: World, id: string)
    requires WorldOk(w) && OpenIn(w.store, id, VerifiedNotice)
    ensures CanAcknowledge(w, id, VerifiedNotice)
  {
    hide Apply, Valid, Told, ChoiceOk, Rivals, EventResets, OpenIn;
    var b := OpenRecord(w, id, VerifiedNotice);
    var events: seq<Event>, w' := [], w;
    assert SameProofHeight(w, events, id) && Run(w, events) == Some(w);
    if b.proofPendingAt.None? {
      events, w' := UnwatchAll(w, events, w, id, b);
      ArmsRecord(w'.store, id, b);
      b := b.(armedAt := if b.armedAt.None? then Some(0) else b.armedAt);
      events, w' := CallKeepsRecord(w, events, w', ArmBatch(id, map[], 0), id, b);
      VerifiesRecord(w'.store, id, b);
      var verify := VerifiedProof(b.network, b.accountUuid, b.runId, 0);
      b := b.(proofPendingAt := Some(0));
      events, w' := CallKeepsRecord(w, events, w', verify, id, b);
    }
    OwedAcknowledges(w, events, w', id, VerifiedNotice, b);
  }

  /** An open nudge: arm the record, queue the nudge, acknowledge. */
  lemma NudgeComes(w: World, id: string)
    requires WorldOk(w) && OpenIn(w.store, id, HeightNudge)
    ensures CanAcknowledge(w, id, HeightNudge)
  {
    hide Apply, Valid, Told, ChoiceOk, Rivals, EventResets, OpenIn;
    var b := OpenRecord(w, id, HeightNudge);
    var events: seq<Event>, w' := [], w;
    assert SameProofHeight(w, events, id) && Run(w, events) == Some(w);
    if b.heightPendingAt.None? {
      ArmsRecord(w'.store, id, b);
      b := b.(armedAt := if b.armedAt.None? then Some(0) else b.armedAt);
      events, w' := CallKeepsRecord(w, events, w', ArmBatch(id, map[], 0), id, b);
      NudgesRecord(w'.store, id, b);
      b := b.(heightPendingAt := Some(0));
      events, w' := CallKeepsRecord(w, events, w', HeightNotice(id, 0), id, b);
    }
    OwedAcknowledges(w, events, w', id, HeightNudge, b);
  }

  lemma NudgesRecord(s: State, id: string, b: Batch)
    requires Valid(s) && HasRecord(s, id, b) && b.armedAt.Some? && Open(b, HeightNudge) && b.heightPendingAt.None?
    ensures HasRecord(Apply(s, HeightNotice(id, 0)), id, b.(heightPendingAt := Some(0)))
  {
    assert UniqueBatches(s.batches);
    var i := FoundBatch(s, id, b);
    assert Apply(s, HeightNotice(id, 0)).batches[i] == b.(heightPendingAt := Some(0));
  }

  lemma CallKeepsRecord(start: World, events: seq<Event>, w: World, call: Call, id: string, b: Batch)
    returns (events': seq<Event>, w': World)
    requires Run(start, events) == Some(w) && SameProofHeight(start, events, id) && WorldOk(w) && !call.StageBatch?
    requires HasRecord(Apply(w.store, call), id, b)
    ensures Run(start, events') == Some(w') && SameProofHeight(start, events', id) && WorldOk(w')
    ensures w'.store == Apply(w.store, call) && HasRecord(w'.store, id, b)
  {
    hide WorldOk, Apply;
    RecordIsBatch(Apply(w.store, call), id, b);
    events', w' := CallOnce(start, events, w, call, id);
  }

  lemma OwedAcknowledges(w: World, events: seq<Event>, w': World, id: string, notice: Notice, b: Batch)
    requires Run(w, events) == Some(w') && SameProofHeight(w, events, id) && WorldOk(w')
    requires HasRecord(w'.store, id, b) && Owed(b, notice)
    ensures CanAcknowledge(w, id, notice)
  {
    hide SameProofHeight, Told, ChoiceOk;
    assert UniqueBatches(w'.store.batches);
    var i := FoundBatch(w'.store, id, b);
    var e := ChannelCall(if notice == VerifiedNotice then AckProof(id, 0) else AckHeight(id, 0));
    assert AcksNotice(w', e, id, notice);
    assert Acknowledges(w, events, e, id, notice);
  }

  /**
   * When an acknowledgement can still come, exactly: some continuation that
   * neither restages the stored record for another height nor removes it
   * acknowledges the notice if and only if the record has it coming.
   */
  lemma AcknowledgementComesExactly(w: World, id: string, notice: Notice)
    requires WorldOk(w) && HasBatch(w.store, id)
    ensures CanAcknowledge(w, id, notice) <==> OpenIn(w.store, id, notice)
  {
    hide WorldOk, OpenIn, HasBatch;
    if OpenIn(w.store, id, notice) {
      if notice == VerifiedNotice {
        VerifiedComes(w, id);
      } else {
        NudgeComes(w, id);
      }
    } else if CanAcknowledge(w, id, notice) {
      var events, e :| Acknowledges(w, events, e, id, notice);
      ClosedNeverAcknowledged(w, events, e, id, notice);
    }
  }

  ghost predicate WatchesHeight(s: State, id: string) {
    exists i :: 0 <= i < |s.batches| && s.batches[i].batchId == id && s.batches[i].nextProofHeight.Some?
  }

  /**
   * Once more, exactly: after an acknowledgement, and until the next one, a
   * record that watches a proof height can have its verified notice acknowledged
   * again if and only if it was restaged for another height, or removed, since.
   */
  lemma VerifiedAgainExactly(w: World, events: seq<Event>, id: string)
    requires Reachable(w) && DeliveredIn(w.store, id, VerifiedNotice)
    requires Run(w, events).Some? && NeverAcksNotice(w, events, id, VerifiedNotice)
    requires WatchesHeight(Run(w, events).value.store, id)
    ensures CanAcknowledge(Run(w, events).value, id, VerifiedNotice) <==> !SameProofHeight(w, events, id)
  {
    hide SameProofHeight, CanAcknowledge, NeverAcksNotice;
    var w' := Run(w, events).value;
    ReachableOk(w);
    RunKeeps(w, events);
    DeliveredExactly(w, events, id, VerifiedNotice);
    WatchingOpensExactly(w', id);
    AcknowledgementComesExactly(w', id, VerifiedNotice);
  }

  lemma WatchingOpensExactly(w: World, id: string)
    requires WorldOk(w) && WatchesHeight(w.store, id)
    ensures HasBatch(w.store, id) && (OpenIn(w.store, id, VerifiedNotice)
                                      <==> !DeliveredIn(w.store, id, VerifiedNotice))
  {
    hide Told, ChoiceOk;
    var i :| 0 <= i < |w.store.batches| && w.store.batches[i].batchId == id && w.store.batches[i].nextProofHeight.Some?;
    assert UniqueBatches(w.store.batches) && BatchOk(w.store.batches[i]);
    assert Open(w.store.batches[i], VerifiedNotice) <==> !Delivered(w.store.batches[i], VerifiedNotice);
  }

  /** For the nudge the record must also be free of the verified notice. */
  lemma NudgeAgainExactly(w: World, events: seq<Event>, id: string, i: nat)
    requires Reachable(w) && DeliveredIn(w.store, id, HeightNudge)
    requires Run(w, events).Some? && NeverAcksNotice(w, events, id, HeightNudge)
    requires var s := Run(w, events).value.store;
             i < |s.batches| && s.batches[i].batchId == id && s.batches[i].nextProofHeight.Some?
    ensures var w' := Run(w, events).value;
            var b := w'.store.batches[i];
            CanAcknowledge(w', id, HeightNudge)
            <==> !SameProofHeight(w, events, id) && (b.heightPendingAt.Some?
                                                     || (b.proofPendingAt.None? && b.proofNotifiedAt.None?))
  {
    hide SameProofHeight, CanAcknowledge, NeverAcksNotice;
    var w' := Run(w, events).value;
    ReachableOk(w);
    RunKeeps(w, events);
    DeliveredExactly(w, events, id, HeightNudge);
    NudgeOpensExactly(w', id, i);
    AcknowledgementComesExactly(w', id, HeightNudge);
  }

  lemma NudgeOpensExactly(w: World, id: string, i: nat)
    requires WorldOk(w) && i < |w.store.batches| && w.store.batches[i].batchId == id
             && w.store.batches[i].nextProofHeight.Some?
    ensures HasBatch(w.store, id)
    ensures var b := w.store.batches[i];
            OpenIn(w.store, id, HeightNudge)
            <==> !DeliveredIn(w.store, id, HeightNudge) && (b.heightPendingAt.Some?
                                                            || (b.proofPendingAt.None? && b.proofNotifiedAt.None?))
  {
    hide Told, ChoiceOk;
    assert UniqueBatches(w.store.batches) && BatchOk(w.store.batches[i]);
    var b := w.store.batches[i];
    assert DeliveredIn(w.store, id, HeightNudge) <==> Delivered(b, HeightNudge);
    assert OpenIn(w.store, id, HeightNudge) <==> Open(b, HeightNudge);
  }
}
