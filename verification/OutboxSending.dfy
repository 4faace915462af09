/**
 * When the "transfers sent" notice of a batch becomes owed: exactly with the
 * acceptance of its last item, if it watches no proof height and was never announced.
 */
module OutboxSending {
  import opened Common
  import opened Sequences
  import opened OutboxTypes
  import opened OutboxPeers
  import opened OutboxOps
  import opened OutboxInvariant
  import opened OutboxRecords
  import opened OutboxRunner
  import opened OutboxWorld
  import opened OutboxSafety
  import opened OutboxOutcomes
  import opened OutboxEndings

  /** No "transfers sent" notice becomes owed, batch by batch. */
  predicate KeepsSent(a: Batch, b: Batch) {
    a.batchId == b.batchId && (b.sentPendingAt.Some? ==> a.sentPendingAt.Some?)
  }

  ghost predicate AllKeepSent(s: State, s': State) {
    |s'.batches| == |s.batches| && forall i :: 0 <= i < |s.batches| ==> KeepsSent(s.batches[i], s'.batches[i])
  }

  lemma KeepsSentTwice(s: State, t: State, u: State)
    requires AllKeepSent(s, t) && AllKeepSent(t, u)
    ensures AllKeepSent(s, u)
  {
    forall i | 0 <= i < |s.batches|
      ensures KeepsSent(s.batches[i], u.batches[i])
    {
      assert KeepsSent(s.batches[i], t.batches[i]);
    }
  }

  lemma PrepareKeepsSent(s: State, endpoint: string, height: U64, verifyProofs: bool, now: Date)
    ensures AllKeepSent(s, Prepare(s, endpoint, height, verifyProofs, now))
  {
    hide FirstProof, RetiresAny, MapItems;
  }

  lemma SelectKeepsSent(s: State, endpoint: string, height: U64, verifyProofs: bool, attemptId: string, now: Date)
    requires SelectUpdate(s, endpoint, height, verifyProofs, attemptId, now).Ok?
    ensures AllKeepSent(s, SelectUpdate(s, endpoint, height, verifyProofs, attemptId, now).value.state)
  {
    hide Prepare, SelectDue;
    PrepareKeepsSent(s, endpoint, height, verifyProofs, now);
    SelectDueBatches(Prepare(s, endpoint, height, verifyProofs, now), height, endpoint, now);
  }

  /** Every event but the outcome update keeps the notices as they are, or settles them. */
  lemma RunnerKeepsSent(w: World, e: Event)
    requires Step(w, e).Some? && !e.ChannelCall? && !e.RecordOutcome?
    ensures AllKeepSent(w.store, Step(w, e).value.store)
  {
    hide SelectUpdate;
    if e.Select? {
      if SelectUpdate(w.store, w.phase.endpoint, w.phase.height, e.verifyProofs, e.attemptId, e.now).Ok? {
        SelectKeepsSent(w.store, w.phase.endpoint, w.phase.height, e.verifyProofs, e.attemptId, e.now);
      }
    }
  }

  // ----- The app's calls

  /** The batch comes from a stored one of its id, and owes the notice only if that did; or it owes none. */
  predicate FromSent(s: State, b: Batch) {
    b.sentPendingAt.None? || exists i :: 0 <= i < |s.batches| && KeepsSent(s.batches[i], b)
  }

  lemma CallKeepsSent(s: State, call: Call, j: nat)
    requires j < |Apply(s, call).batches|
    ensures FromSent(s, Apply(s, call).batches[j])
  {
    match call
    case AckReceipts(ids) =>
      var i := PruneOrigin(s.batches, AckedItemIds(s.receipts, ids), Finished(s.receipts, ids), j);
      assert KeepsSent(s.batches[i], Apply(s, call).batches[j]);
    case RevokeScope(network, account) =>
      FilterMembers(s.batches, OutsideBatches(ScopeBatchIds(s.batches, network, account)));
      MemberFromSent(s, Apply(s, call).batches[j]);
    case Discard(id) => MemberFromSent(s, Apply(s, call).batches[j]);
    case AckSent(id, now) => AckSentKeepsSent(s, id, now, j);
    case StageBatch(batch) => StageKeepsSent(s, batch, j);
    case RemoveAll =>
    case _ => InPlaceKeepsSent(s, call, j);
  }

  lemma MemberFromSent(s: State, b: Batch)
    requires b in s.batches
    ensures FromSent(s, b)
  {
    var i :| 0 <= i < |s.batches| && s.batches[i] == b;
    assert KeepsSent(s.batches[i], b);
  }

  lemma AckSentKeepsSent(s: State, id: string, now: Date, j: nat)
    requires j < |Apply(s, AckSent(id, now)).batches|
    ensures FromSent(s, Apply(s, AckSent(id, now)).batches[j])
  {
    var s' := Apply(s, AckSent(id, now));
    if |s'.batches| < |s.batches| {
      MemberFromSent(s, s'.batches[j]);
    } else {
      assert KeepsSent(s.batches[j], s'.batches[j]);
    }
  }

  lemma StageKeepsSent(s: State, batch: Batch, j: nat)
    requires j < |Apply(s, StageBatch(batch)).batches|
    ensures FromSent(s, Apply(s, StageBatch(batch)).batches[j])
  {
    hide NewItems;
    if j < |s.batches| {
      assert KeepsSent(s.batches[j], Apply(s, StageBatch(batch)).batches[j]);
    }
  }

  lemma InPlaceKeepsSent(s: State, call: Call, j: nat)
    requires call.ArmBatch? || call.RecoverBatch? || call.VerifiedProof? || call.AckProof? || call.HeightNotice?
             || call.AckHeight?
    requires j < |Apply(s, call).batches|
    ensures FromSent(s, Apply(s, call).batches[j])
  {
    hide FirstProof;
    assert j < |s.batches| && KeepsSent(s.batches[j], Apply(s, call).batches[j]);
  }

  // ----- The outcome update

  /** The reply counts as accepted, by its code or its message. */
  predicate Takes(response: Option<SendResponse>) {
    response.Some? && (response.value.errorCode == 0 || SaysKnown(response.value.errorMessage))
  }

  /** All of the batch's transfers are accepted, nothing is watched, and it was never announced. */
  predicate AllSent(s: State, a: Batch, b: Batch) {
    && (forall k :: 0 <= k < |b.items| ==> b.items[k].status == AcceptedAwaiting)
    && b.items != [] && b.nextProofHeight.None? && a.sentNotifiedAt.None? && a.batchId !in s.announced
  }

  lemma AcceptOwesExactly(s: State, selection: Selection, height: U64, reply: SendResponse, now: Date,
                          random: Randomness, i: nat)
    requires RandomnessFits(s, selection.item.itemId, height, random) && UniqueBatches(s.batches)
    requires AcceptUpdate(s, selection, reply, height, now, random).Ok?
    requires i < |s.batches| && s.batches[i].sentPendingAt.None?
    ensures var s' := AcceptUpdate(s, selection, reply, height, now, random).value;
            && |s'.batches| == |s.batches|
            && (s'.batches[i].sentPendingAt.Some? <==>
                s.batches[i].batchId == selection.batchId && AllSent(s, s.batches[i], s'.batches[i]))
  {
    var t := RecordAccepted(s, selection.item.itemId, reply.errorCode != 0, height, reply.errorCode, reply.errorMessage,
                            now, random).value;
    AcceptedMarkers(s, selection.item.itemId, reply, height, now, random);
    hide RecordAccepted, Shuffles;
    assert t.batches[i].batchId == s.batches[i].batchId;
    if s.batches[i].batchId == selection.batchId {
      var j := FindBatch(t.batches, selection.batchId).value;
      assert s.batches[j].batchId == s.batches[i].batchId;
    }
  }

  lemma AcceptedMarkers(s: State, id: string, reply: SendResponse, height: U64, now: Date, random: Randomness)
    requires RandomnessFits(s, id, height, random)
    requires RecordAccepted(s, id, reply.errorCode != 0, height, reply.errorCode, reply.errorMessage, now, random).Ok?
    ensures var t := RecordAccepted(s, id, reply.errorCode != 0, height, reply.errorCode, reply.errorMessage, now,
                                    random).value;
            && |t.batches| == |s.batches| && t.announced == s.announced
            && forall i :: 0 <= i < |s.batches| ==> SameSent(s.batches[i], t.batches[i])
  {
    hide Shuffles;
  }

  predicate SameSent(a: Batch, b: Batch) {
    a.batchId == b.batchId && a.sentPendingAt == b.sentPendingAt && a.sentNotifiedAt == b.sentNotifiedAt
  }

  lemma OtherOutcomesKeepSent(s: State, selection: Selection, height: U64, response: Option<SendResponse>,
                              message: string, now: Date, random: Randomness)
    requires RandomnessFits(s, selection.item.itemId, height, random)
    requires OutcomeUpdate(s, selection, height, response, message, now, random).Ok? && !Takes(response)
    ensures AllKeepSent(s, OutcomeUpdate(s, selection, height, response, message, now, random).value)
  {
    hide AcceptUpdate, SaysKnown, AcceptsResponse;
    if response.Some? {
      AcceptsExactly(response.value);
    }
  }

  /** The event commits the acceptance of an item of this batch. */
  ghost predicate Accepts(w: World, e: Event, batchId: string)
    requires Step(w, e).Some?
  {
    && e.RecordOutcome? && w.phase.selection.batchId == batchId && Takes(w.phase.response)
    && Step(w, e).value.store != w.store
  }

  /**
   * When the notice becomes owed, exactly, over every event of every run: with a
   * committed acceptance that leaves no item of the batch unaccepted, if the batch
   * watches no proof height and was never announced.
   */
  lemma SentNoticeOwedExactly(w: World, e: Event, i: nat, j: nat)
    requires Reachable(w) && Step(w, e).Some? && i < |w.store.batches| && j < |Step(w, e).value.store.batches|
    requires w.store.batches[i].batchId == Step(w, e).value.store.batches[j].batchId
    requires w.store.batches[i].sentPendingAt.None?
    ensures Step(w, e).value.store.batches[j].sentPendingAt.Some?
            <==> && Accepts(w, e, w.store.batches[i].batchId)
                 && AllSent(w.store, w.store.batches[i], Step(w, e).value.store.batches[j])
  {
    ReachableOk(w);
    WorldValid(w);
    var s, s' := w.store, Step(w, e).value.store;
    assert UniqueBatches(s.batches);
    if e.RecordOutcome? {
      OutcomeOwesExactly(w, e, i, j);
    } else if e.ChannelCall? {
      CallStored(w, e.call);
      hide Step, Apply, WorldOk, Valid;
      CallKeepsSent(s, e.call, j);
    } else {
      RunnerKeepsSent(w, e);
      hide Step, WorldOk, Valid;
      assert KeepsSent(s.batches[j], s'.batches[j]) && i == j;
    }
  }

  lemma OutcomeOwesExactly(w: World, e: Event, i: nat, j: nat)
    requires Reachable(w) && WorldOk(w) && Step(w, e).Some? && e.RecordOutcome?
    requires i < |w.store.batches| && j < |Step(w, e).value.store.batches|
    requires w.store.batches[i].batchId == Step(w, e).value.store.batches[j].batchId
    requires w.store.batches[i].sentPendingAt.None?
    ensures Step(w, e).value.store.batches[j].sentPendingAt.Some?
            <==> && Accepts(w, e, w.store.batches[i].batchId)
                 && AllSent(w.store, w.store.batches[i], Step(w, e).value.store.batches[j])
  {
    OutcomeStored(w, e);
    WorldValid(w);
    var s, s' := w.store, Step(w, e).value.store;
    var selection, response := w.phase.selection, w.phase.response;
    assert UniqueBatches(s.batches);
    hide WorldOk, Valid, OutcomeUpdate, RandomnessFits, AllSent;
    var r := if e.stored then OutcomeUpdate(s, selection, w.phase.height, response, e.message, e.now, e.random)
             else Err(ItemNotFound);
    if r.Err? {
      assert s' == s && i == j;
    } else {
      UpdateOwesExactly(w, e, i);
      assert s'.batches[i].batchId == s.batches[i].batchId;
      SameSlot(s, s', i, j);
    }
  }

  lemma SameSlot(s: State, s': State, i: nat, j: nat)
    requires UniqueBatches(s.batches) && |s'.batches| == |s.batches| && i < |s.batches| && j < |s.batches|
    requires s.batches[i].batchId == s'.batches[j].batchId
    requires forall k :: 0 <= k < |s.batches| ==> s'.batches[k].batchId == s.batches[k].batchId
    ensures i == j
  {
    assert s.batches[j].batchId == s'.batches[j].batchId;
  }

  lemma OutcomeStored(w: World, e: Event)
    requires Step(w, e).Some? && e.RecordOutcome?
    ensures w.phase.Sent? && RandomnessFits(w.store, w.phase.selection.item.itemId, w.phase.height, e.random)
    ensures Step(w, e).value.store
            == if e.stored then Written(w.store, OutcomeUpdate(w.store, w.phase.selection, w.phase.height,
                                                               w.phase.response, e.message, e.now, e.random))
               else w.store
  {
  }

  lemma UpdateOwesExactly(w: World, e: Event, i: nat)
    requires Reachable(w) && WorldOk(w) && Step(w, e).Some? && e.RecordOutcome? && e.stored && w.phase.Sent?
    requires RandomnessFits(w.store, w.phase.selection.item.itemId, w.phase.height, e.random)
    requires OutcomeUpdate(w.store, w.phase.selection, w.phase.height, w.phase.response, e.message, e.now, e.random).Ok?
    requires i < |w.store.batches| && w.store.batches[i].sentPendingAt.None?
    ensures var s' := Step(w, e).value.store;
            && |s'.batches| == |w.store.batches|
            && (forall k :: 0 <= k < |w.store.batches| ==> s'.batches[k].batchId == w.store.batches[k].batchId)
            && (s'.batches[i].sentPendingAt.Some? <==>
                Accepts(w, e, w.store.batches[i].batchId) && AllSent(w.store, w.store.batches[i], s'.batches[i]))
  {
    CommittedDiffers(w, e);
    hide Step, WorldOk, RandomnessFits, AllSent, OutcomeUpdate;
    CommittedOwesExactly(w.store, w.phase.selection, w.phase.height, w.phase.response, e.message, e.now, e.random, i);
  }

  lemma CommittedOwesExactly(s: State, selection: Selection, height: U64, response: Option<SendResponse>,
                             message: string, now: Date, random: Randomness, i: nat)
    requires UniqueBatches(s.batches) && RandomnessFits(s, selection.item.itemId, height, random)
    requires OutcomeUpdate(s, selection, height, response, message, now, random).Ok?
    requires i < |s.batches| && s.batches[i].sentPendingAt.None?
    ensures var s' := OutcomeUpdate(s, selection, height, response, message, now, random).value;
            && |s'.batches| == |s.batches|
            && (forall k :: 0 <= k < |s.batches| ==> s'.batches[k].batchId == s.batches[k].batchId)
            && (s'.batches[i].sentPendingAt.Some? <==>
                selection.batchId == s.batches[i].batchId && Takes(response)
                && AllSent(s, s.batches[i], s'.batches[i]))
  {
    hide RandomnessFits, AllSent, AcceptUpdate;
    OutcomeRunsOn(s, selection, height, response, message, now, random);
    if Takes(response) {
      TakenUpdate(s, selection, height, response.value, message, now, random);
      hide OutcomeUpdate;
      AcceptOwesExactly(s, selection, height, response.value, now, random, i);
    } else {
      hide OutcomeUpdate;
      OtherOutcomesKeepSent(s, selection, height, response, message, now, random);
    }
  }

  /** A committed update is written, and differs from what was stored. */
  lemma CommittedDiffers(w: World, e: Event)
    requires Reachable(w) && WorldOk(w) && Step(w, e).Some? && e.RecordOutcome? && e.stored && w.phase.Sent?
    requires RandomnessFits(w.store, w.phase.selection.item.itemId, w.phase.height, e.random)
    requires OutcomeUpdate(w.store, w.phase.selection, w.phase.height, w.phase.response, e.message, e.now, e.random).Ok?
    ensures UniqueBatches(w.store.batches) && Step(w, e).value.store != w.store
    ensures Step(w, e).value.store
            == OutcomeUpdate(w.store, w.phase.selection, w.phase.height, w.phase.response, e.message, e.now,
                             e.random).value
  {
    WorldValid(w);
    assert UniqueBatches(w.store.batches);
    assert e == RecordOutcome(true, e.message, e.now, e.random);
    SentStep(w, e.message, e.now, e.random);
    hide Step, WorldOk, Valid, RandomnessFits, Recorded, OutcomeUpdate, Commits;
    ReplyDecides(w, e.message, e.now, e.random);
    CommitsExactly(w.store, w.phase.selection, w.phase.height, w.phase.response, e.message, e.now, e.random);
  }

  lemma TakenUpdate(s: State, selection: Selection, height: U64, reply: SendResponse, message: string, now: Date,
                    random: Randomness)
    requires RandomnessFits(s, selection.item.itemId, height, random) && Takes(Some(reply))
    ensures OutcomeUpdate(s, selection, height, Some(reply), message, now, random)
            == AcceptUpdate(s, selection, reply, height, now, random)
  {
    hide AcceptUpdate, RandomnessFits, RecordRejected;
    AcceptsExactly(reply);
  }
}
