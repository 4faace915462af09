/** What every run of the outbox world keeps. */
module OutboxRuns {
  import opened Common
  import opened OutboxTypes
  import opened OutboxOps
  import opened OutboxInvariant
  import opened OutboxSteps
  import opened OutboxRecords
  import opened OutboxRunner
  import opened OutboxSubmission
  import opened OutboxWorld

  // ----- Items by id

  /** The stored item of an id. */
  function ItemBy(s: State, itemId: string): (r: Option<Item>)
    ensures r.Some? <==> Stored(s, itemId)
  {
    match Locate(s.batches, itemId)
    case None => None
    case Some(at) => Some(ItemAt(s.batches, at))
  }

  /** What one step does to the item of one id. */
  ghost predicate ItemStepped(s: State, s': State, licence: Licence, id: string) {
    ItemBy(s', id).Some? ==>
      if ItemBy(s, id).Some? then ItemEvolves(ItemBy(s, id).value, ItemBy(s', id).value, licence)
      else !Attempted(ItemBy(s', id).value)
  }

  /** A batch stored before and after the step keeps its delivered notices unless the step resets them. */
  ghost predicate NoticesStepped(s: State, s': State, resets: set<string>) {
    forall i, j :: 0 <= i < |s.batches| && 0 <= j < |s'.batches| && s.batches[i].batchId == s'.batches[j].batchId ==>
      s.batches[i].batchId in resets || NoticesKept(s.batches[i], s'.batches[j])
  }

  ghost predicate Stepped(s: State, s': State, licence: Licence) {
    && Valid(s')
    && Lifecycle(s, s', licence)
    && NoticesStepped(s, s', licence.resets)
    && (forall id :: ItemStepped(s, s', licence, id))
  }

  /** Items that were not stored before are unattempted. */
  ghost predicate Newcomers(s: State, s': State) {
    forall at :: At(s'.batches, at) && !Stored(s, ItemAt(s'.batches, at).itemId) ==> !Attempted(ItemAt(s'.batches, at))
  }

  lemma MakeStepped(s: State, s': State, licence: Licence)
    requires Valid(s') && Lifecycle(s, s', licence) && Newcomers(s, s') && NoticesStepped(s, s', licence.resets)
    ensures Stepped(s, s', licence)
  {
    forall id
      ensures ItemStepped(s, s', licence, id)
    {
      var b := Locate(s'.batches, id);
      var a := Locate(s.batches, id);
      if b.Some? && a.Some? {
        assert ItemAt(s.batches, a.value).itemId == ItemAt(s'.batches, b.value).itemId;
      }
    }
  }

  lemma StoredAt(s: State, at: Location)
    requires At(s.batches, at)
    ensures Stored(s, ItemAt(s.batches, at).itemId)
  {
    assert s.batches[at.batch].items[at.item] == ItemAt(s.batches, at);
  }

  lemma EvolvedStep(s: State, s': State, licence: Licence)
    requires Valid(s) && Valid(s') && Evolves(s, s', licence)
    ensures Stepped(s, s', licence)
  {
    EvolvesLifecycle(s, s', licence);
    forall at | At(s'.batches, at)
      ensures Stored(s, ItemAt(s'.batches, at).itemId)
    {
      assert BatchEvolves(s.batches[at.batch], s'.batches[at.batch], licence);
      assert ItemEvolves(ItemAt(s.batches, at), ItemAt(s'.batches, at), licence);
      StoredAt(s, at);
    }
    forall i, j | 0 <= i < |s.batches| && 0 <= j < |s'.batches| && s.batches[i].batchId == s'.batches[j].batchId
      ensures NoticesKept(s.batches[i], s'.batches[j])
    {
      assert BatchEvolves(s.batches[j], s'.batches[j], licence);
      assert i == j;
    }
    MakeStepped(s, s', licence);
  }

  lemma SameStep(s: State, licence: Licence)
    requires Valid(s)
    ensures Stepped(s, s, licence)
  {
    EvolvesReflexive(s, licence);
    EvolvedStep(s, s, licence);
  }

  // ----- Every call is a step

  lemma AppendNewcomers(s: State, batch: Batch)
    requires FreshBatch(s, batch)
    ensures Newcomers(s, s.(batches := s.batches + [batch]))
  {
    var s' := s.(batches := s.batches + [batch]);
    forall at | At(s'.batches, at) && !Stored(s, ItemAt(s'.batches, at).itemId)
      ensures !Attempted(ItemAt(s'.batches, at))
    {
      if at.batch < |s.batches| {
        StoredAt(s, at);
      } else {
        assert Constructed(batch.items[at.item]);
      }
    }
  }

  lemma RestageNewcomer(s: State, batch: Batch, i: nat, added: seq<Item>, at: Location)
    requires FreshBatch(s, batch) && i < |s.batches|
    requires NewItems(s.batches[i].items, batch.items) == Some(added)
    requires var s' := WithBatch(s, i, Restaged(s.batches[i], batch, added));
             At(s'.batches, at) && !Stored(s, ItemAt(s'.batches, at).itemId)
    ensures !Attempted(ItemAt(WithBatch(s, i, Restaged(s.batches[i], batch, added)).batches, at))
  {
    var existing := s.batches[i];
    if at.batch != i || at.item < |existing.items| {
      StoredAt(s, at);
    } else {
      var k := NewItemsAreNew(existing.items, batch.items, at.item - |existing.items|);
      assert Constructed(batch.items[k]);
    }
  }

  lemma StageNewcomers(s: State, batch: Batch)
    requires FreshBatch(s, batch) && Stage(s, batch).Ok?
    ensures Newcomers(s, Stage(s, batch).value)
  {
    hide FreshBatch, Restaged;
    match FindBatch(s.batches, batch.batchId)
    case None =>
      AppendNewcomers(s, batch);
    case Some(i) =>
      var added := NewItems(s.batches[i].items, batch.items).value;
      var s' := WithBatch(s, i, Restaged(s.batches[i], batch, added));
      forall at | At(s'.batches, at) && !Stored(s, ItemAt(s'.batches, at).itemId)
        ensures !Attempted(ItemAt(s'.batches, at))
      {
        RestageNewcomer(s, batch, i, added, at);
      }
  }

  /** Staging resets the notices of a stored batch that gets another proof height. */
  function StageResets(s: State, batch: Batch): set<string> {
    match FindBatch(s.batches, batch.batchId)
    case None => {}
    case Some(i) => if s.batches[i].nextProofHeight != batch.nextProofHeight then {batch.batchId} else {}
  }

  lemma StageNotices(s: State, batch: Batch)
    requires UniqueBatches(s.batches) && Stage(s, batch).Ok?
    ensures NoticesStepped(s, Stage(s, batch).value, StageResets(s, batch))
  {
    var s' := Stage(s, batch).value;
    forall i, j | 0 <= i < |s.batches| && 0 <= j < |s'.batches| && s.batches[i].batchId == s'.batches[j].batchId
      ensures s.batches[i].batchId in StageResets(s, batch) || NoticesKept(s.batches[i], s'.batches[j])
    {
      assert j < |s.batches| ==> s'.batches[j].batchId == s.batches[j].batchId;
    }
  }

  lemma LifecycleOf(s: State, s': State, licence: Licence)
    requires Lifecycle(s, s', PLAIN) && licence.begins == {} && licence.forgets == {}
    ensures Lifecycle(s, s', licence)
  {
  }

  lemma StageStep(s: State, batch: Batch)
    requires Valid(s) && FreshBatch(s, batch)
    ensures Stepped(s, Written(s, Stage(s, batch)), Licence({}, {}, StageResets(s, batch)))
  {
    var licence := Licence({}, {}, StageResets(s, batch));
    if Stage(s, batch).Ok? {
      StageKeeps(s, batch);
      LifecycleOf(s, Stage(s, batch).value, licence);
      StageNewcomers(s, batch);
      StageNotices(s, batch);
      MakeStepped(s, Stage(s, batch).value, licence);
    } else {
      SameStep(s, licence);
    }
  }

  /** Removing records adds none and touches no notice. */
  ghost predicate OnlyRemoves(s: State, s': State) {
    && (forall at :: At(s'.batches, at) ==> Stored(s, ItemAt(s'.batches, at).itemId))
    && NoticesStepped(s, s', {})
  }

  lemma RemovalStep(s: State, s': State)
    requires Valid(s') && Lifecycle(s, s', PLAIN) && OnlyRemoves(s, s')
    ensures Stepped(s, s', PLAIN)
  {
    MakeStepped(s, s', PLAIN);
  }

  lemma PruneOnlyRemoves(s: State, s': State, itemIds: set<string>, drop: Batch -> bool)
    requires UniqueBatches(s.batches) && s'.batches == PruneBatches(s.batches, itemIds, drop)
    ensures OnlyRemoves(s, s')
  {
    forall at | At(s'.batches, at)
      ensures Stored(s, ItemAt(s'.batches, at).itemId)
    {
      var from := KeptLocation(s.batches, itemIds, drop, at);
      StoredAt(s, from);
    }
    forall i, j | 0 <= i < |s.batches| && 0 <= j < |s'.batches| && s.batches[i].batchId == s'.batches[j].batchId
      ensures NoticesKept(s.batches[i], s'.batches[j])
    {
      var from := PruneOrigin(s.batches, itemIds, drop, j);
      assert from == i;
    }
  }

  lemma SubsetOnlyRemoves(s: State, s': State)
    requires UniqueBatches(s.batches)
    requires forall i :: 0 <= i < |s'.batches| ==> s'.batches[i] in s.batches
    ensures OnlyRemoves(s, s')
  {
    forall at | At(s'.batches, at)
      ensures Stored(s, ItemAt(s'.batches, at).itemId)
    {
      var i :| 0 <= i < |s.batches| && s.batches[i] == s'.batches[at.batch];
      StoredAt(s, Location(i, at.item));
    }
    forall i, j | 0 <= i < |s.batches| && 0 <= j < |s'.batches| && s.batches[i].batchId == s'.batches[j].batchId
      ensures NoticesKept(s.batches[i], s'.batches[j])
    {
      var from :| 0 <= from < |s.batches| && s.batches[from] == s'.batches[j];
      assert from == i;
    }
  }

  lemma ValidUnique(s: State)
    requires Valid(s)
    ensures UniqueBatches(s.batches)
  {
  }

  lemma AckReceiptsStep(s: State, ids: set<ReceiptId>)
    requires Valid(s)
    ensures Stepped(s, AcknowledgeReceipts(s, ids), PLAIN)
  {
    hide Valid, Lifecycle;
    var s' := AcknowledgeReceipts(s, ids);
    AcknowledgeReceiptsKeeps(s, ids);
    ValidUnique(s);
    PruneOnlyRemoves(s, s', AckedItemIds(s.receipts, ids), Finished(s.receipts, ids));
    RemovalStep(s, s');
  }

  lemma DiscardStep(s: State, batchId: string)
    requires Valid(s)
    ensures Stepped(s, Apply(s, Discard(batchId)), PLAIN)
  {
    hide Valid, Lifecycle;
    var s' := Apply(s, Discard(batchId));
    if DiscardBatch(s, batchId).Ok? {
      DiscardBatchKeeps(s, batchId);
      ValidUnique(s);
      SubsetOnlyRemoves(s, s');
      RemovalStep(s, s');
    } else {
      SameStep(s, PLAIN);
    }
  }

  lemma RevokeStep(s: State, network: string, accountUuid: string)
    requires Valid(s)
    ensures Stepped(s, Revoke(s, network, accountUuid), PLAIN)
  {
    hide Valid, Lifecycle;
    var s' := Revoke(s, network, accountUuid);
    RevokeKeeps(s, network, accountUuid);
    FilteredBatchesAnnounced(s, s'.batches, OutsideBatches(ScopeBatchIds(s.batches, network, accountUuid)));
    ValidUnique(s);
    SubsetOnlyRemoves(s, s');
    RemovalStep(s, s');
  }

  lemma RemoveAllStep(s: State)
    ensures Stepped(s, EMPTY_STATE, PLAIN)
  {
    MakeStepped(s, EMPTY_STATE, PLAIN);
  }

  lemma AckSentOnlyRemoves(s: State, batchId: string, now: Date)
    requires UniqueBatches(s.batches) && AcknowledgeSent(s, batchId, now).Ok?
    ensures OnlyRemoves(s, AcknowledgeSent(s, batchId, now).value)
  {
    var s' := AcknowledgeSent(s, batchId, now).value;
    var i := FindBatch(s.batches, batchId).value;
    var removed := |s'.batches| < |s.batches|;
    forall j | 0 <= j < |s'.batches|
      ensures var from := if removed && i <= j then j + 1 else j;
              && from < |s.batches| && s'.batches[j].items == s.batches[from].items
              && s'.batches[j].batchId == s.batches[from].batchId && NoticesKept(s.batches[from], s'.batches[j])
    {
    }
    forall at | At(s'.batches, at)
      ensures Stored(s, ItemAt(s'.batches, at).itemId)
    {
      StoredAt(s, Location(if removed && i <= at.batch then at.batch + 1 else at.batch, at.item));
    }
  }

  lemma AckSentStep(s: State, batchId: string, now: Date)
    requires Valid(s)
    ensures Stepped(s, Written(s, AcknowledgeSent(s, batchId, now)), PLAIN)
  {
    hide Valid, Lifecycle;
    if AcknowledgeSent(s, batchId, now).Ok? {
      AcknowledgeSentKeeps(s, batchId, now);
      ValidUnique(s);
      AckSentOnlyRemoves(s, batchId, now);
      RemovalStep(s, AcknowledgeSent(s, batchId, now).value);
    } else {
      SameStep(s, PLAIN);
    }
  }

  lemma MarkerCallStep(s: State, call: Call)
    requires Valid(s) && (call.VerifiedProof? || call.AckProof? || call.HeightNotice? || call.AckHeight?)
    ensures Stepped(s, Apply(s, call), PLAIN)
  {
    hide Valid, Evolves;
    match call
    case VerifiedProof(network, account, run, now) =>
      RecordVerifiedKeeps(s, network, account, run, now);
      EvolvedStep(s, Apply(s, call), PLAIN);
    case AckProof(id, now) =>
      if AcknowledgeProofReady(s, id, now).Ok? {
        AcknowledgeProofReadyKeeps(s, id, now);
        EvolvedStep(s, Apply(s, call), PLAIN);
      } else {
        SameStep(s, PLAIN);
      }
    case HeightNotice(id, now) =>
      MarkHeightNoticeKeeps(s, id, now);
      EvolvedStep(s, Apply(s, call), PLAIN);
    case AckHeight(id, now) =>
      if AcknowledgeHeightNotice(s, id, now).Ok? {
        AcknowledgeHeightNoticeKeeps(s, id, now);
        EvolvedStep(s, Apply(s, call), PLAIN);
      } else {
        SameStep(s, PLAIN);
      }
  }

  lemma ArmingCallStep(s: State, call: Call)
    requires Valid(s) && (call.ArmBatch? || call.RecoverBatch?)
    ensures Stepped(s, Apply(s, call), PLAIN)
  {
    hide Valid, Evolves;
    match call
    case ArmBatch(id, digests, now) =>
      if Arm(s, id, digests, now).Ok? {
        ArmKeeps(s, id, digests, now);
        EvolvedStep(s, Apply(s, call), PLAIN);
      } else {
        SameStep(s, PLAIN);
      }
    case RecoverBatch(id, network, account, run, txids, url, now) =>
      if Recover(s, id, network, account, run, txids, url, now).Ok? {
        RecoverKeeps(s, id, network, account, run, txids, url, now);
        EvolvedStep(s, Apply(s, call), PLAIN);
      } else {
        SameStep(s, PLAIN);
      }
  }

  function CallLicence(s: State, call: Call): Licence {
    if call.StageBatch? then Licence({}, {}, StageResets(s, call.batch)) else PLAIN
  }

  /** Every call of the app keeps the invariant, follows the life cycle and adds no attempted item. */
  lemma CallStep(s: State, call: Call)
    requires Valid(s) && Assumed(s, call)
    ensures Stepped(s, Apply(s, call), CallLicence(s, call))
  {
    hide Valid, Stepped;
    match call
    case StageBatch(batch) => StageStep(s, batch);
    case ArmBatch(_, _, _) => ArmingCallStep(s, call);
    case RecoverBatch(_, _, _, _, _, _, _) => ArmingCallStep(s, call);
    case VerifiedProof(_, _, _, _) => MarkerCallStep(s, call);
    case AckReceipts(ids) => AckReceiptsStep(s, ids);
    case Discard(id) => DiscardStep(s, id);
    case RevokeScope(network, account) => RevokeStep(s, network, account);
    case RemoveAll => RemoveAllStep(s);
    case AckProof(_, _) => MarkerCallStep(s, call);
    case HeightNotice(_, _) => MarkerCallStep(s, call);
    case AckHeight(_, _) => MarkerCallStep(s, call);
    case AckSent(id, now) => AckSentStep(s, id, now);
  }

  // ----- Every update of the runner is a step

  lemma FirstUpdateStep(s: State, now: Date)
    requires Valid(s)
    ensures Stepped(s, FirstUpdate(s, now).0, PLAIN) && NoSubmission(FirstUpdate(s, now).0)
  {
    var t := RecoverInterrupted(s, now);
    var u := FirstUpdate(s, now).0;
    RecoverInterruptedKeeps(s, now);
    CursorKeeps(t, t.lastScope, u.lastEndpoint);
    assert u.batches == t.batches;
    assert Evolves(s, u, PLAIN);
    EvolvedStep(s, u, PLAIN);
  }

  function SelectLicence(r: Result<Selected, OutboxError>): Licence {
    if r.Ok? && r.value.selection.Some? then Licence({r.value.selection.value.item.itemId}, {}, {}) else PLAIN
  }

  lemma SelectStep(s: State, endpoint: string, height: U64, verifyProofs: bool, attemptId: string, now: Date)
    requires Valid(s) && SelectUpdate(s, endpoint, height, verifyProofs, attemptId, now).Ok?
    ensures var r := SelectUpdate(s, endpoint, height, verifyProofs, attemptId, now);
            Stepped(s, r.value.state, SelectLicence(r))
  {
    hide Valid, Evolves;
    SelectUpdateKeeps(s, endpoint, height, verifyProofs, attemptId, now);
    var r := SelectUpdate(s, endpoint, height, verifyProofs, attemptId, now);
    EvolvedStep(s, r.value.state, SelectLicence(r));
  }

  lemma CancelStep(s: State, itemId: string, message: string)
    requires Valid(s)
    ensures Stepped(s, Written(s, RecordCancelled(s, itemId, message)), Licence({}, {itemId}, {}))
  {
    hide Valid, Evolves;
    if RecordCancelled(s, itemId, message).Ok? {
      RecordCancelledKeeps(s, itemId, message);
      EvolvedStep(s, RecordCancelled(s, itemId, message).value, Licence({}, {itemId}, {}));
    } else {
      SameStep(s, Licence({}, {itemId}, {}));
    }
  }

  lemma AcceptStep(s: State, selection: Selection, response: SendResponse, height: U64, now: Date, random: Randomness)
    requires Valid(s) && RandomnessFits(s, selection.item.itemId, height, random)
    requires AcceptUpdate(s, selection, response, height, now, random).Ok?
    ensures Stepped(s, AcceptUpdate(s, selection, response, height, now, random).value, PLAIN)
  {
    var t := RecordAccepted(s, selection.item.itemId, response.errorCode != 0, height, response.errorCode,
                            response.errorMessage, now, random).value;
    RecordAcceptedKeeps(s, selection.item.itemId, response.errorCode != 0, height, response.errorCode,
                        response.errorMessage, now, random);
    MarkSentKeeps(t, selection.batchId, now);
    MarkSentItems(t, selection.batchId, now);
    EvolvesAlong(s, t, MarkSent(t, selection.batchId, now));
    EvolvedStep(s, MarkSent(t, selection.batchId, now), PLAIN);
  }

  lemma MarkSentItems(s: State, batchId: string, now: Date)
    ensures var s' := MarkSent(s, batchId, now);
            |s'.batches| == |s.batches| && forall i :: 0 <= i < |s.batches| ==>
                  s'.batches[i].items == s.batches[i].items
  {
  }

  lemma EvolvesAlong(s: State, t: State, u: State)
    requires Evolves(s, t, PLAIN) && Evolves(t, u, PLAIN)
    requires forall i :: 0 <= i < |t.batches| ==> u.batches[i].items == t.batches[i].items
    ensures Evolves(s, u, PLAIN)
  {
    forall i | 0 <= i < |s.batches|
      ensures BatchEvolves(s.batches[i], u.batches[i], PLAIN)
    {
      assert BatchEvolves(s.batches[i], t.batches[i], PLAIN);
      assert BatchEvolves(t.batches[i], u.batches[i], PLAIN);
    }
  }

  lemma OutcomeStep(s: State, selection: Selection, height: U64, response: Option<SendResponse>, message: string,
                    now: Date, random: Randomness)
    requires Valid(s) && RandomnessFits(s, selection.item.itemId, height, random)
    ensures Stepped(s, Written(s, OutcomeUpdate(s, selection, height, response, message, now, random)), PLAIN)
  {
    hide Valid, Evolves, Stepped, AcceptUpdate;
    var r := OutcomeUpdate(s, selection, height, response, message, now, random);
    if r.Err? {
      SameStep(s, PLAIN);
    } else if response.None? {
      RecordUncertainKeeps(s, selection.item.itemId, message, now);
      EvolvedStep(s, r.value, PLAIN);
    } else if AcceptsResponse(response.value) {
      AcceptStep(s, selection, response.value, height, now, random);
    } else {
      RecordRejectedKeeps(s, selection.item.itemId, height, response.value.errorCode, response.value.errorMessage, now);
      EvolvedStep(s, r.value, PLAIN);
    }
  }
}
