/** The notices owed to the user: "transfers sent" and "proof ready" are announced once. */
module OutboxNotices {
  import opened Common
  import opened Sequences
  import opened Rotation
  import opened OutboxTypes
  import opened OutboxOps
  import opened OutboxInvariant
  import opened OutboxRunner
  import opened OutboxWorld
  import opened OutboxSafety
  import opened OutboxTheorems

  // ----- Transfers sent

  /** The "transfers sent" notice of this batch is acknowledged now. */
  predicate AcksSent(w: World, e: Event, batchId: string) {
    e.ChannelCall? && e.call.AckSent? && e.call.batchId == batchId && AcknowledgeSent(w.store, batchId, e.call.now).Ok?
  }

  /** The history of announced batches is dropped: the scope is revoked, or the store is removed. */
  predicate DropsHistory(e: Event, batchId: string) {
    e.ChannelCall? && (e.call.RemoveAll? || (e.call.RevokeScope? && ScopePrefix(e.call.network,
              e.call.accountUuid) <= batchId))
  }

  lemma PrepareAnnounced(s: State, endpoint: string, height: U64, verifyProofs: bool, now: Date)
    ensures Prepare(s, endpoint, height, verifyProofs, now).announced == s.announced
  {
  }

  lemma SelectAnnounced(s: State, endpoint: string, height: U64, verifyProofs: bool, attemptId: string, now: Date)
    requires SelectUpdate(s, endpoint, height, verifyProofs, attemptId, now).Ok?
    ensures SelectUpdate(s, endpoint, height, verifyProofs, attemptId, now).value.state.announced == s.announced
  {
    hide Prepare;
    PrepareAnnounced(s, endpoint, height, verifyProofs, now);
  }

  lemma OutcomeAnnounced(s: State, selection: Selection, height: U64, response: Option<SendResponse>, message: string,
                         now: Date, random: Randomness)
    requires RandomnessFits(s, selection.item.itemId, height, random)
    ensures Written(s, OutcomeUpdate(s, selection, height, response, message, now, random)).announced == s.announced
  {
  }

  lemma CallAnnounced(s: State, call: Call, batchId: string)
    requires batchId in s.announced && !DropsHistory(ChannelCall(call), batchId)
    ensures batchId in Apply(s, call).announced
  {
    if call.RevokeScope? {
      FilterMember(s.announced, (id: string) => !(ScopePrefix(call.network, call.accountUuid) <= id), batchId);
    }
  }

  lemma AnnouncedStays(w: World, e: Event, batchId: string)
    requires batchId in w.store.announced && Step(w, e).Some? && !DropsHistory(e, batchId)
    ensures batchId in Step(w, e).value.store.announced
  {
    hide SelectUpdate, OutcomeUpdate, Apply;
    match e
    case Select(verifyProofs, attemptId, now) =>
      if SelectUpdate(w.store, w.phase.endpoint, w.phase.height, verifyProofs, attemptId, now).Ok? {
        SelectAnnounced(w.store, w.phase.endpoint, w.phase.height, verifyProofs, attemptId, now);
      }
    case RecordOutcome(stored, message, now, random) =>
      if stored {
        OutcomeAnnounced(w.store, w.phase.selection, w.phase.height, w.phase.response, message, now, random);
      }
    case ChannelCall(call) =>
      CallAnnounced(w.store, call, batchId);
    case _ =>
  }

  /** An announced batch has nothing left to acknowledge. */
  lemma AnnouncedIsNotPending(w: World, e: Event, batchId: string)
    requires WorldOk(w) && batchId in w.store.announced
    ensures !AcksSent(w, e, batchId)
  {
  }

  /** No event of the run acknowledges the notice of this batch. */
  ghost predicate NeverAcksSent(w: World, events: seq<Event>, batchId: string)
    decreases |events|
  {
    events == [] ||
    (!AcksSent(w, events[0], batchId)
     && (Step(w, events[0]).Some? ==> NeverAcksSent(Step(w, events[0]).value, events[1..], batchId)))
  }

  lemma {:induction false} AnnouncedNeverAgain(w: World, events: seq<Event>, batchId: string)
    requires WorldOk(w) && batchId in w.store.announced && Run(w, events).Some?
    requires forall i :: 0 <= i < |events| ==> !DropsHistory(events[i], batchId)
    ensures NeverAcksSent(w, events, batchId)
    decreases |events|
  {
    hide WorldOk, Step;
    AnnouncedIsNotPendingAny(w, batchId);
    if events != [] {
      StepKeeps(w, events[0]);
      AnnouncedStays(w, events[0], batchId);
      AnnouncedNeverAgain(Step(w, events[0]).value, events[1..], batchId);
    }
  }

  lemma AnnouncedIsNotPendingAny(w: World, batchId: string)
    requires WorldOk(w) && batchId in w.store.announced
    ensures forall e :: !AcksSent(w, e, batchId)
  {
    forall e
      ensures !AcksSent(w, e, batchId)
    {
      AnnouncedIsNotPending(w, e, batchId);
    }
  }

  lemma AckAnnounces(w: World, e: Event, batchId: string)
    requires AcksSent(w, e, batchId) && Step(w, e).Some?
    ensures batchId in Step(w, e).value.store.announced
  {
  }

  /**
   * "Transfers sent" is acknowledged at most once per batch id: once acknowledged,
   * no later event of any run acknowledges it again before its history is dropped,
   * across receipts, pruned records and restaging under the same id.
   */
  lemma TransfersSentOnce(w: World, e: Event, events: seq<Event>, batchId: string)
    requires Reachable(w) && AcksSent(w, e, batchId)
    requires Step(w, e).Some? && Run(Step(w, e).value, events).Some?
    requires forall i :: 0 <= i < |events| ==> !DropsHistory(events[i], batchId)
    ensures NeverAcksSent(Step(w, e).value, events, batchId)
  {
    hide WorldOk, Step;
    ReachableOk(w);
    StepKeeps(w, e);
    AckAnnounces(w, e, batchId);
    AnnouncedNeverAgain(Step(w, e).value, events, batchId);
  }

  // ----- Proof ready

  datatype Notice = VerifiedNotice | HeightNudge

  predicate Delivered(b: Batch, notice: Notice) {
    match notice case VerifiedNotice => b.proofNotifiedAt.Some? case HeightNudge => b.heightNoticedAt.Some?
  }

  predicate Owed(b: Batch, notice: Notice) {
    match notice case VerifiedNotice => b.proofPendingAt.Some? case HeightNudge => b.heightPendingAt.Some?
  }

  /** A stored batch whose notice was delivered. */
  predicate DeliveredIn(s: State, batchId: string, notice: Notice) {
    exists i :: 0 <= i < |s.batches| && s.batches[i].batchId == batchId && Delivered(s.batches[i], notice)
  }

  predicate HasBatch(s: State, batchId: string) {
    exists i :: 0 <= i < |s.batches| && s.batches[i].batchId == batchId
  }

  predicate AcksNotice(w: World, e: Event, batchId: string, notice: Notice) {
    && e.ChannelCall?
    && match notice
       case VerifiedNotice => e.call.AckProof? && e.call.batchId == batchId
           && AcknowledgeProofReady(w.store, batchId, e.call.now).Ok?
       case HeightNudge =>
                 e.call.AckHeight? && e.call.batchId == batchId
                   && AcknowledgeHeightNotice(w.store, batchId, e.call.now).Ok?
  }

  /** In every reachable world an owed notice is an undelivered one. */
  lemma OwedIsUndelivered(w: World, i: nat, notice: Notice)
    requires Reachable(w) && i < |w.store.batches|
    ensures Owed(w.store.batches[i], notice) ==> !Delivered(w.store.batches[i], notice)
  {
    ReachableOk(w);
    assert BatchOk(w.store.batches[i]);
  }

  lemma DeliveredStays(w: World, e: Event, batchId: string, notice: Notice)
    requires WorldOk(w) && Step(w, e).Some? && DeliveredIn(w.store, batchId, notice)
    requires HasBatch(Step(w, e).value.store, batchId) && batchId !in EventResets(w, e)
    ensures DeliveredIn(Step(w, e).value.store, batchId, notice)
  {
    hide Valid, Step, Lifecycle;
    var licence := StepStored(w, e);
    var s, s' := w.store, Step(w, e).value.store;
    var i :| 0 <= i < |s.batches| && s.batches[i].batchId == batchId && Delivered(s.batches[i], notice);
    var j :| 0 <= j < |s'.batches| && s'.batches[j].batchId == batchId;
    assert NoticesKept(s.batches[i], s'.batches[j]);
  }

  lemma DeliveredIsNotOwed(w: World, batchId: string, notice: Notice)
    requires WorldOk(w) && DeliveredIn(w.store, batchId, notice)
    ensures forall e :: !AcksNotice(w, e, batchId, notice)
  {
    var i :| 0 <= i < |w.store.batches| && w.store.batches[i].batchId == batchId
        && Delivered(w.store.batches[i], notice);
    assert BatchOk(w.store.batches[i]);
  }

  /** The record stays stored and is not restaged for another proof height. */
  ghost predicate SameProofHeight(w: World, events: seq<Event>, batchId: string)
    decreases |events|
  {
    events == [] ||
    (batchId !in EventResets(w, events[0])
     && (Step(w, events[0]).Some? ==>
           HasBatch(Step(w, events[0]).value.store, batchId)
               && SameProofHeight(Step(w, events[0]).value, events[1..], batchId)))
  }

  ghost predicate NeverAcksNotice(w: World, events: seq<Event>, batchId: string, notice: Notice)
    decreases |events|
  {
    events == [] ||
    (!AcksNotice(w, events[0], batchId, notice)
     && (Step(w, events[0]).Some? ==> NeverAcksNotice(Step(w, events[0]).value, events[1..], batchId, notice)))
  }

  lemma {:induction false} DeliveredNeverAgain(w: World, events: seq<Event>, batchId: string, notice: Notice)
    requires WorldOk(w) && DeliveredIn(w.store, batchId, notice) && Run(w, events).Some?
    requires SameProofHeight(w, events, batchId)
    ensures NeverAcksNotice(w, events, batchId, notice)
    decreases |events|
  {
    hide WorldOk, Step, DeliveredIn, AcksNotice;
    DeliveredIsNotOwed(w, batchId, notice);
    if events != [] {
      StepKeeps(w, events[0]);
      DeliveredStays(w, events[0], batchId, notice);
      DeliveredNeverAgain(Step(w, events[0]).value, events[1..], batchId, notice);
    }
  }

  lemma AckDelivers(w: World, e: Event, batchId: string, notice: Notice)
    requires AcksNotice(w, e, batchId, notice) && Step(w, e).Some?
    ensures DeliveredIn(Step(w, e).value.store, batchId, notice)
  {
    var i := FindBatch(w.store.batches, batchId).value;
    var s' := Step(w, e).value.store;
    assert s'.batches[i].batchId == batchId && Delivered(s'.batches[i], notice);
  }

  /**
   * Each kind of proof-ready notice is acknowledged at most once while the record
   * is stored and not restaged for another proof height.
   */
  lemma ProofReadyOnce(w: World, e: Event, events: seq<Event>, batchId: string, notice: Notice)
    requires Reachable(w) && AcksNotice(w, e, batchId, notice)
    requires Step(w, e).Some? && Run(Step(w, e).value, events).Some?
    requires SameProofHeight(Step(w, e).value, events, batchId)
    ensures NeverAcksNotice(Step(w, e).value, events, batchId, notice)
  {
    hide WorldOk, Step, DeliveredIn, AcksNotice;
    ReachableOk(w);
    StepKeeps(w, e);
    AckDelivers(w, e, batchId, notice);
    DeliveredNeverAgain(Step(w, e).value, events, batchId, notice);
  }

  /**
   * An armed batch that owes a verified notice is inspected exactly when it still watches a height
   * or has an armed item.
   */
  lemma OwedNoticeInspectable(w: World, i: nat)
    requires Reachable(w) && i < |w.store.batches|
    requires w.store.batches[i].armedAt.Some? && Owed(w.store.batches[i], VerifiedNotice)
    ensures Inspectable(w.store.batches[i]) <==>
              w.store.batches[i].nextProofHeight.Some? || w.store.batches[i].HasStatus(Armed)
    ensures w.store.batches[i].nextProofHeight.Some? ==> w.store.batches[i].url in Endpoints(w.store.batches)
    ensures PendingProof(w.store.batches[i]) <==> w.store.batches[i].nextProofHeight.Some?
  {
    OwedIsUndelivered(w, i, VerifiedNotice);
    EndpointsMember(w.store.batches, w.store.batches[i].url);
  }

  // ----- A height-only nudge never stands in the way of a verified notice

  predicate SameForVerification(a: Batch, b: Batch) {
    && SameBatch(a, b) && a.armedAt == b.armedAt && a.nextProofHeight == b.nextProofHeight
    && a.proofPendingAt == b.proofPendingAt && a.proofNotifiedAt == b.proofNotifiedAt
  }

  lemma {:induction false} FirstProofExtensional(a: seq<Batch>, b: seq<Batch>, test: Batch -> bool)
    requires |a| == |b|
    requires forall i :: 0 <= i < |a| ==> SameForVerification(a[i], b[i]) && test(a[i]) == test(b[i])
    ensures FirstProof(a, test) == FirstProof(b, test)
  {
    if a != [] {
      var last := |a| - 1;
      FirstProofExtensional(a[..last], b[..last], test);
    }
  }

  /**
   * Acknowledging a height-only nudge changes nothing for the verified notice:
   * verification marks the same batch as owed whether or not it was acknowledged.
   */
  lemma NudgeKeepsVerifiedNotice(s: State, batchId: string, date: Date, network: string, accountUuid: string,
                                 runId: string, now: Date)
    requires AcknowledgeHeightNotice(s, batchId, date).Ok?
    ensures var nudged := AcknowledgeHeightNotice(s, batchId, date).value;
            var a, b := RecordVerified(s, network, accountUuid, runId, now),
                RecordVerified(nudged, network, accountUuid, runId, now);
            && a.1 == b.1 && |a.0.batches| == |b.0.batches|
            && (forall i :: 0 <= i < |a.0.batches| ==> a.0.batches[i].proofPendingAt == b.0.batches[i].proofPendingAt)
  {
    var nudged := AcknowledgeHeightNotice(s, batchId, date).value;
    FirstProofExtensional(s.batches, nudged.batches, VerifiedFor(network, accountUuid, runId));
  }

  // ----- Which batch comes first

  lemma ProofBeforeOrders(a: Batch, b: Batch, c: Batch)
    ensures !ProofBefore(a, a)
    ensures ProofBefore(b, c) && !ProofBefore(a, c) ==> !ProofBefore(a, b)
    ensures ProofBefore(a, b) ==> !ProofBefore(b, a)
  {
    LessTotal(a.batchId, a.batchId);
    LessTotal(a.batchId, b.batchId);
    if Less(a.batchId, b.batchId) && Less(b.batchId, c.batchId) {
      LessTransitive(a.batchId, b.batchId, c.batchId);
    }
  }

  /** The announced batch is the first candidate in (proof height, id) order. */
  lemma {:induction false} FirstProofIsFirst(batches: seq<Batch>, test: Batch -> bool, k: nat)
    requires FirstProof(batches, test).Some? && k < |batches| && test(batches[k])
    ensures !ProofBefore(batches[k], batches[FirstProof(batches, test).value])
  {
    var last := |batches| - 1;
    var best := FirstProof(batches, test).value;
    var rest := FirstProof(batches[..last], test);
    ProofBeforeOrders(batches[k], batches[last], batches[last]);
    if k < last {
      assert batches[..last][k] == batches[k];
      FirstProofIsFirst(batches[..last], test, k);
      ProofBeforeOrders(batches[k], batches[last], batches[rest.value]);
    } else if rest.Some? {
      ProofBeforeOrders(batches[last], batches[rest.value], batches[last]);
    }
  }

  lemma FirstProofUnique(batches: seq<Batch>, test: Batch -> bool, j: nat)
    requires j < |batches| && test(batches[j])
    requires forall k :: 0 <= k < |batches| && k != j && test(batches[k]) ==> ProofBefore(batches[j], batches[k])
    ensures FirstProof(batches, test) == Some(j)
  {
    FirstProofIsFirst(batches, test, j);
  }

  lemma ProofBeforeTotal(a: Batch, b: Batch)
    requires a.batchId != b.batchId
    ensures ProofBefore(a, b) || ProofBefore(b, a)
  {
    LessTotal(a.batchId, b.batchId);
  }

  // ----- ... except where reaching the height is all that is asked for

  /** Only batch `d` differs, and only in its readiness, which it may lose. */
  ghost predicate LosesReadiness(a: seq<Batch>, b: seq<Batch>, test: Batch -> bool, d: nat) {
    && |a| == |b| && d < |a|
    && (forall i :: 0 <= i < |a| && i != d ==> b[i] == a[i])
    && a[d].nextProofHeight == b[d].nextProofHeight && a[d].batchId == b[d].batchId
    && (test(b[d]) ==> test(a[d]))
  }

  /** The first candidate stays the first while it stays one. */
  lemma FirstProofStays(a: seq<Batch>, b: seq<Batch>, test: Batch -> bool, d: nat)
    requires UniqueBatches(a) && LosesReadiness(a, b, test, d)
    requires FirstProof(a, test) == Some(d) ==> test(b[d])
    ensures FirstProof(b, test) == FirstProof(a, test)
  {
    match FirstProof(a, test)
    case None =>
    case Some(j) =>
      forall k | 0 <= k < |b| && k != j && test(b[k])
        ensures ProofBefore(b[j], b[k])
      {
        FirstProofIsFirst(a, test, k);
        ProofBeforeTotal(a[j], a[k]);
      }
      FirstProofUnique(b, test, j);
  }

  /** The runner's height-only path announces the same batch and leaves the same notices owed. */
  ghost predicate SameMarking(s: State, t: State, height: U64, endpoint: string, now: Date) {
    var a, b := MarkProofReady(s, height, endpoint, now), MarkProofReady(t, height, endpoint, now);
    && a.1 == b.1 && |a.0.batches| == |b.0.batches|
    && (forall i :: 0 <= i < |a.0.batches| ==> a.0.batches[i].proofPendingAt == b.0.batches[i].proofPendingAt)
  }

  /** The nudged batch is the one that the runner would mark now, and it is not marked yet. */
  predicate NextToBeMarked(s: State, batchId: string, height: U64, endpoint: string) {
    match FirstProof(s.batches, ReadyAt(height, endpoint))
    case None => false
    case Some(i) => s.batches[i].batchId == batchId && s.batches[i].proofPendingAt.None?
  }

  /**
   * Where the runner takes a reached height for readiness, acknowledging the
   * nudge does stand in the way, in exactly one case: the nudged batch is the one
   * that would have been marked. It then no longer awaits an announcement.
   */
  lemma NudgeReplacesTheMarkExactly(s: State, batchId: string, date: Date, height: U64, endpoint: string, now: Date)
    requires Valid(s) && AcknowledgeHeightNotice(s, batchId, date).Ok?
    ensures SameMarking(s, AcknowledgeHeightNotice(s, batchId, date).value, height, endpoint, now)
            <==> !NextToBeMarked(s, batchId, height, endpoint)
  {
    assert UniqueBatches(s.batches);
    hide Valid, SameMarking, NextToBeMarked;
    if NextToBeMarked(s, batchId, height, endpoint) {
      NextIsNotMarked(s, batchId, date, height, endpoint, now);
    } else {
      OthersAreMarkedAlike(s, batchId, date, height, endpoint, now);
    }
  }

  lemma OthersAreMarkedAlike(s: State, batchId: string, date: Date, height: U64, endpoint: string, now: Date)
    requires UniqueBatches(s.batches) && AcknowledgeHeightNotice(s, batchId, date).Ok?
    requires !NextToBeMarked(s, batchId, height, endpoint)
    ensures SameMarking(s, AcknowledgeHeightNotice(s, batchId, date).value, height, endpoint, now)
  {
    var t := AcknowledgeHeightNotice(s, batchId, date).value;
    var d := FindBatch(s.batches, batchId).value;
    var test := ReadyAt(height, endpoint);
    assert LosesReadiness(s.batches, t.batches, test, d);
    FirstProofStays(s.batches, t.batches, test, d);
  }

  lemma NextIsNotMarked(s: State, batchId: string, date: Date, height: U64, endpoint: string, now: Date)
    requires UniqueBatches(s.batches) && AcknowledgeHeightNotice(s, batchId, date).Ok?
    requires NextToBeMarked(s, batchId, height, endpoint)
    ensures !SameMarking(s, AcknowledgeHeightNotice(s, batchId, date).value, height, endpoint, now)
  {
    var t := AcknowledgeHeightNotice(s, batchId, date).value;
    var d := FindBatch(s.batches, batchId).value;
    var test := ReadyAt(height, endpoint);
    assert FirstProof(s.batches, test) == Some(d);
    hide FirstProof;
    assert MarkProofReady(s, height, endpoint, now).0.batches[d].proofPendingAt == Some(now);
    assert !test(t.batches[d]) && t.batches[d].proofPendingAt.None?;
    assert MarkProofReady(t, height, endpoint, now).0.batches[d].proofPendingAt.None?;
  }
}
