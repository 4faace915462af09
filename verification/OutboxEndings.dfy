/**
 * How deliveries end: a rejected, expired or re-signable item stops its whole
 * batch, and nothing of the batch is inspected, selected or announced until the
 * app arms or recovers it again.
 */
module OutboxEndings {
  import opened Common
  import opened Sequences
  import opened OutboxTypes
  import opened OutboxPeers
  import opened OutboxOps
  import opened OutboxInvariant
  import opened OutboxRecords
  import opened OutboxRunner
  import opened OutboxSubmission
  import opened OutboxWorld
  import opened OutboxSafety

  // ----- Ended items and stopped batches

  /** The network or a height has ended the item's delivery for good. */
  predicate Ended(item: Item) {
    item.status == RejectedAwaiting || item.status == ExpiredAwaiting || item.status == NeedsResignAwaiting
  }

  /** Some item of the batch ends between the two. */
  ghost predicate EndsItem(a: Batch, b: Batch) {
    exists k, m :: 0 <= k < |a.items| && 0 <= m < |b.items| && EndsAt(a, b, k, m)
  }

  predicate EndsAt(a: Batch, b: Batch, k: nat, m: nat)
    requires k < |a.items| && m < |b.items|
  {
    a.items[k].itemId == b.items[m].itemId && !Ended(a.items[k]) && Ended(b.items[m])
  }

  /** Nothing of the batch can be inspected, sent or announced, at any height and date, and it watches no height. */
  ghost predicate Stopped(b: Batch) {
    && !Inspectable(b)
    && (forall height, endpoint, date :: !Selectable(b, height, endpoint, date))
    && (forall height, endpoint :: !ProofCandidate(b, height, endpoint))
    && (forall network, account, run :: !VerifiedCandidate(b, network, account, run))
    && b.nextProofHeight.None?
  }

  // ----- The runner's updates, batch by batch

  predicate EndsHere(a: Batch, b: Batch)
    requires |a.items| == |b.items|
  {
    exists k :: 0 <= k < |a.items| && !Ended(a.items[k]) && Ended(b.items[k])
  }

  /** A notice is queued only for a batch that is armed. */
  predicate QueuesIfArmed(a: Batch, b: Batch) {
    a.armedAt.None? ==>
      (b.proofPendingAt.Some? ==> a.proofPendingAt.Some?) && (b.heightPendingAt.Some? ==> a.heightPendingAt.Some?)
  }

  /** The items keep their places and ends, and the batch is stopped exactly by an end. */
  predicate RunsOn(a: Batch, b: Batch) {
    && a.batchId == b.batchId && |a.items| == |b.items|
    && (forall k :: 0 <= k < |a.items| ==>
          a.items[k].itemId == b.items[k].itemId && (Ended(a.items[k]) ==> Ended(b.items[k])))
    && (if EndsHere(a, b) then b.armedAt.None? && b.nextProofHeight.None?
        else b.armedAt == a.armedAt && b.nextProofHeight == a.nextProofHeight)
    && QueuesIfArmed(a, b)
  }

  ghost predicate AllRunOn(s: State, s': State) {
    |s.batches| == |s'.batches| && forall i :: 0 <= i < |s.batches| ==> RunsOn(s.batches[i], s'.batches[i])
  }

  lemma RunsOnTwice(a: Batch, b: Batch, c: Batch)
    requires RunsOn(a, b) && RunsOn(b, c)
    ensures RunsOn(a, c)
  {
  }

  lemma AllRunOnTwice(s: State, t: State, u: State)
    requires AllRunOn(s, t) && AllRunOn(t, u)
    ensures AllRunOn(s, u)
  {
    hide RunsOn;
    forall i | 0 <= i < |s.batches|
      ensures RunsOn(s.batches[i], u.batches[i])
    {
      RunsOnTwice(s.batches[i], t.batches[i], u.batches[i]);
    }
  }

  lemma SameRunsOn(s: State, s': State)
    requires s'.batches == s.batches
    ensures AllRunOn(s, s')
  {
  }

  lemma FirstRunsOn(s: State, now: Date)
    ensures AllRunOn(s, FirstUpdate(s, now).0)
  {
    var t := RecoverInterrupted(s, now);
    SameRunsOn(t, FirstUpdate(s, now).0);
    AllRunOnTwice(s, t, FirstUpdate(s, now).0);
  }

  lemma RetiredRunsOn(why: Retirement, b: Batch, height: U64, endpoint: string)
    ensures RunsOn(b, RetiredBatch(why, b, height, endpoint))
  {
    if b.url == endpoint && RetiresAny(why, b, height) {
      var k :| 0 <= k < |b.items| && Retires(why, b.items[k], height);
      assert Ended(RetiredItem(why, b.items[k], height));
    }
  }

  lemma RetireRunsOn(s: State, why: Retirement, height: U64, endpoint: string, now: Date)
    ensures AllRunOn(s, Retire(s, why, height, endpoint, now))
  {
    hide RetiredBatch, RunsOn;
    forall i | 0 <= i < |s.batches|
      ensures RunsOn(s.batches[i], Retire(s, why, height, endpoint, now).batches[i])
    {
      RetiredRunsOn(why, s.batches[i], height, endpoint);
    }
  }

  lemma MarkProofRunsOn(s: State, height: U64, endpoint: string, now: Date)
    ensures AllRunOn(s, MarkProofReady(s, height, endpoint, now).0)
  {
  }

  lemma PrepareRunsOn(s: State, endpoint: string, height: U64, verifyProofs: bool, now: Date)
    ensures AllRunOn(s, Prepare(s, endpoint, height, verifyProofs, now))
  {
    hide Retire, MarkProofReady, AllRunOn;
    var s1 := ExpireItems(s, height, endpoint, now);
    RetireRunsOn(s, PastExpiry, height, endpoint, now);
    var s2 := MarkNeedingResign(s1, height, endpoint, now);
    if CanonicalExpiry(height).Some? {
      RetireRunsOn(s1, OtherWindow(CanonicalExpiry(height).value), height, endpoint, now);
      AllRunOnTwice(s, s1, s2);
    }
    MarkProofRunsOn(s2, height, endpoint, now);
    AllRunOnTwice(s, s2, MarkProofReady(s2, height, endpoint, now).0);
  }

  /** Putting one item that was not and is not ended. */
  lemma ItemRunsOn(s: State, at: Location, item: Item)
    requires At(s.batches, at) && item.itemId == ItemAt(s.batches, at).itemId
    requires !Ended(ItemAt(s.batches, at)) && !Ended(item)
    ensures AllRunOn(s, WithItem(s, at, item))
  {
  }

  lemma SelectRunsOn(s: State, endpoint: string, height: U64, verifyProofs: bool, attemptId: string, now: Date)
    requires SelectUpdate(s, endpoint, height, verifyProofs, attemptId, now).Ok?
    ensures AllRunOn(s, SelectUpdate(s, endpoint, height, verifyProofs, attemptId, now).value.state)
  {
    hide Prepare, AllRunOn, SelectDue;
    var p := Prepare(s, endpoint, height, verifyProofs, now);
    PrepareRunsOn(s, endpoint, height, verifyProofs, now);
    var (t, selection) := SelectDue(p, height, Some(endpoint), now);
    SelectDueBatches(p, height, endpoint, now);
    SameRunsOn(p, t);
    AllRunOnTwice(s, p, t);
    if selection.Some? {
      var id := selection.value.item.itemId;
      var at := Transition(t, id, Armed).value;
      var item := ItemAt(t.batches, at).(status := Submitting, attemptId := Some(attemptId),
                                         attemptStartedAt := Some(now));
      ItemRunsOn(t, at, item);
      AllRunOnTwice(s, t, WithItem(t, at, item));
    }
  }

  lemma SelectDueBatches(s: State, height: U64, endpoint: string, now: Date)
    ensures SelectDue(s, height, Some(endpoint), now).0.batches == s.batches
  {
  }

  lemma CancelRunsOn(s: State, id: string, message: string)
    requires RecordCancelled(s, id, message).Ok?
    ensures AllRunOn(s, RecordCancelled(s, id, message).value)
  {
    var at := Transition(s, id, Submitting).value;
    ItemRunsOn(s, at, CancelledItem(ItemAt(s.batches, at), message));
  }

  lemma UncertainRunsOn(s: State, id: string, message: string, now: Date)
    requires RecordUncertain(s, id, message, now).Ok?
    ensures AllRunOn(s, RecordUncertain(s, id, message, now).value)
  {
    var at := Transition(s, id, Submitting).value;
    ItemRunsOn(s, at, Uncertain(ItemAt(s.batches, at), message, now));
  }

  /** A rejection ends its item, and stops its batch. */
  lemma RejectedRunsOn(s: State, id: string, height: U64, code: int, message: string, now: Date)
    requires RecordRejected(s, id, height, code, message, now).Ok?
    ensures AllRunOn(s, RecordRejected(s, id, height, code, message, now).value)
  {
    var at := Transition(s, id, Submitting).value;
    var s' := RecordRejected(s, id, height, code, message, now).value;
    assert !Ended(s.batches[at.batch].items[at.item]) && Ended(s'.batches[at.batch].items[at.item]);
  }

  lemma AcceptedRunsOn(s: State, id: string, equivalent: bool, height: U64, code: int, message: string, now: Date,
                       random: Randomness)
    requires RandomnessFits(s, id, height, random)
    requires RecordAccepted(s, id, equivalent, height, code, message, now, random).Ok?
    ensures AllRunOn(s, RecordAccepted(s, id, equivalent, height, code, message, now, random).value)
  {
    var at := Transition(s, id, Submitting).value;
    var b := s.batches[at.batch];
    hide Shuffles, Reschedule, RunsOn;
    var r := Reschedule(b.items, id, height, b.timingMax, random).value;
    forall k | 0 <= k < |b.items|
      ensures |r.items| == |b.items| && r.items[k].itemId == b.items[k].itemId
              && r.items[k].status == b.items[k].status
    {
      RescheduleItems(b.items, id, height, b.timingMax, random, k);
    }
    var s' := RecordAccepted(s, id, equivalent, height, code, message, now, random).value;
    AcceptedBatchRunsOn(b, s'.batches[at.batch], at.item, r.items);
    SelfRunsOn();
  }

  lemma SelfRunsOn()
    ensures forall b: Batch :: RunsOn(b, b)
  {
  }

  lemma AcceptedBatchRunsOn(a: Batch, b: Batch, k: nat, items: seq<Item>)
    requires |items| == |a.items| && k < |a.items| && a.items[k].status == Submitting
    requires forall j :: 0 <= j < |items| ==> items[j].itemId == a.items[j].itemId
                                              && items[j].status == a.items[j].status
    requires b == a.(items := items[k := FinishedItem(a.items[k], AcceptedAwaiting)])
    ensures RunsOn(a, b)
  {
  }

  lemma MarkSentRunsOn(s: State, batchId: string, now: Date)
    ensures AllRunOn(s, MarkSent(s, batchId, now))
  {
  }

  lemma OutcomeRunsOn(s: State, selection: Selection, height: U64, response: Option<SendResponse>, message: string,
                      now: Date, random: Randomness)
    requires RandomnessFits(s, selection.item.itemId, height, random)
    requires OutcomeUpdate(s, selection, height, response, message, now, random).Ok?
    ensures AllRunOn(s, OutcomeUpdate(s, selection, height, response, message, now, random).value)
  {
    hide RandomnessFits, RecordAccepted, RecordRejected, RecordUncertain, AllRunOn, MarkSent, AcceptsResponse;
    var id := selection.item.itemId;
    if response.None? {
      UncertainRunsOn(s, id, message, now);
    } else if AcceptsResponse(response.value) {
      var reply := response.value;
      AcceptedRunsOn(s, id, reply.errorCode != 0, height, reply.errorCode, reply.errorMessage, now, random);
      var t := RecordAccepted(s, id, reply.errorCode != 0, height, reply.errorCode, reply.errorMessage, now,
                              random).value;
      MarkSentRunsOn(t, selection.batchId, now);
      AllRunOnTwice(s, t, MarkSent(t, selection.batchId, now));
    } else {
      RejectedRunsOn(s, id, height, response.value.errorCode, response.value.errorMessage, now);
    }
  }

  // ----- The app's calls

  /** The call arms the batch: an arm request that is granted, or a recovery with something left to send. */
  ghost predicate ArmsCall(s: State, call: Call, batchId: string) {
    match call
    case ArmBatch(id, digests, now) => id == batchId && Arm(s, id, digests, now).Ok?
    case RecoverBatch(id, network, account, run, txids, url, now) =>
      && id == batchId && Recover(s, id, network, account, run, txids, url, now).Ok?
      && exists i, k :: 0 <= i < |s.batches| && s.batches[i].batchId == id && 0 <= k < |s.batches[i].items|
                        && !Terminal(s.batches[i].items[k].status)
    case _ => false
  }

  /** A call ends no item, disarms no batch, and arms one only as it says. */
  ghost predicate Spares(a: Batch, b: Batch, arms: bool) {
    && !EndsItem(a, b)
    && (b.armedAt.Some? <==> a.armedAt.Some? || arms)
    && QueuesIfArmed(a, b)
  }

  ghost predicate AllSpared(s: State, s': State, call: Call) {
    forall i, j :: 0 <= i < |s.batches| && 0 <= j < |s'.batches| && s.batches[i].batchId == s'.batches[j].batchId ==>
      Spares(s.batches[i], s'.batches[j], ArmsCall(s, call, s.batches[i].batchId))
  }

  /** Items of the second batch are those of the first with the same id, and none of them has ended since. */
  lemma NoneEnds(a: Batch, b: Batch)
    requires DistinctItems(a.items)
    requires forall m :: 0 <= m < |b.items| ==>
               (forall k :: 0 <= k < |a.items| ==> a.items[k].itemId != b.items[m].itemId)
               || exists k :: 0 <= k < |a.items| && a.items[k].itemId == b.items[m].itemId
                              && (Ended(b.items[m]) ==> Ended(a.items[k]))
    ensures !EndsItem(a, b)
  {
  }

  lemma ArmSpares(a: Batch, digests: map<string, Digest>, date: Date, arms: bool)
    requires DistinctItems(a.items) && arms
    ensures Spares(a, a.(armedAt := if a.armedAt.None? then Some(date) else a.armedAt,
                         items := MapItems(a.items, it => ArmItem(it, digests))), arms)
  {
    var b := a.(armedAt := if a.armedAt.None? then Some(date) else a.armedAt,
                items := MapItems(a.items, it => ArmItem(it, digests)));
    forall m | 0 <= m < |b.items|
      ensures a.items[m].itemId == b.items[m].itemId && (Ended(b.items[m]) ==> Ended(a.items[m]))
    {
    }
    NoneEnds(a, b);
  }

  lemma RecoveredItems(a: Batch, url: string, date: Date, m: nat)
    requires m < |a.items|
    ensures var b := RecoveredBatch(a, url, date);
            && |b.items| == |a.items| && a.items[m].itemId == b.items[m].itemId
            && (Ended(b.items[m]) ==> Ended(a.items[m]))
            && (b.items[m].status == Armed <==> !Terminal(a.items[m].status))
  {
  }

  lemma RecoverSpares(a: Batch, url: string, date: Date)
    requires DistinctItems(a.items)
    ensures Spares(a, RecoveredBatch(a, url, date),
                   exists k :: 0 <= k < |a.items| && !Terminal(a.items[k].status))
  {
    var b := RecoveredBatch(a, url, date);
    forall m | 0 <= m < |a.items|
      ensures |b.items| == |a.items| && a.items[m].itemId == b.items[m].itemId
      ensures Ended(b.items[m]) ==> Ended(a.items[m])
      ensures b.items[m].status == Armed <==> !Terminal(a.items[m].status)
    {
      RecoveredItems(a, url, date, m);
    }
    RecoveredArms(a, url, date);
    hide RecoveredBatch, Ended, Terminal, EndsItem;
    NoneEnds(a, b);
  }

  lemma RecoveredArms(a: Batch, url: string, date: Date)
    ensures var b := RecoveredBatch(a, url, date);
            && |b.items| == |a.items| && QueuesIfArmed(a, b)
            && (b.armedAt.Some? <==> a.armedAt.Some? || b.HasStatus(Armed))
  {
    hide RecoverItem;
  }

  lemma ArmCallSpares(s: State, call: Call)
    requires Valid(s) && call.ArmBatch?
    ensures AllSpared(s, Apply(s, call), call)
  {
    var s' := Apply(s, call);
    SelfSpares(s);
    if Arm(s, call.batchId, call.digests, call.now).Ok? {
      var i := FindBatch(s.batches, call.batchId).value;
      assert BatchOk(s.batches[i]);
      ArmSpares(s.batches[i], call.digests, call.now, true);
      hide Spares, DistinctItems;
      assert forall j :: 0 <= j < |s.batches| && j != i ==> s'.batches[j] == s.batches[j];
    }
  }

  /** A batch that stays as it is. */
  lemma SelfSpares(s: State)
    requires Valid(s)
    ensures forall i :: 0 <= i < |s.batches| ==> Spares(s.batches[i], s.batches[i], false)
  {
    forall i | 0 <= i < |s.batches|
      ensures Spares(s.batches[i], s.batches[i], false)
    {
      assert BatchOk(s.batches[i]);
      NoneEnds(s.batches[i], s.batches[i]);
    }
  }

  lemma RecoverCallSpares(s: State, call: Call)
    requires Valid(s) && call.RecoverBatch?
    ensures AllSpared(s, Apply(s, call), call)
  {
    var s' := Apply(s, call);
    SelfSpares(s);
    if FindBatch(s.batches, call.batchId).Some? {
      var i := FindBatch(s.batches, call.batchId).value;
      assert BatchOk(s.batches[i]);
      RecoverSpares(s.batches[i], call.url, call.now);
      assert UniqueBatches(s.batches);
      hide Spares, DistinctItems, RecoveredBatch, Valid;
      forall k, l | 0 <= k < |s.batches| && 0 <= l < |s'.batches| && s.batches[k].batchId == s'.batches[l].batchId
        ensures Spares(s.batches[k], s'.batches[l], ArmsCall(s, call, s.batches[k].batchId))
      {
        RecoveredId(s.batches[i], call.url, call.now);
        assert k == l;
      }
    }
  }

  lemma RecoveredId(b: Batch, url: string, date: Date)
    ensures RecoveredBatch(b, url, date).batchId == b.batchId
  {
  }

  /** Only the notices of the batch differ. */
  predicate NoticesOnly(a: Batch, b: Batch) {
    a.batchId == b.batchId && a.items == b.items && a.armedAt == b.armedAt && QueuesIfArmed(a, b)
  }

  lemma InPlaceSpares(s: State, s': State, call: Call)
    requires Valid(s) && |s'.batches| == |s.batches|
    requires !call.ArmBatch? && !call.RecoverBatch?
    requires forall i :: 0 <= i < |s.batches| ==> NoticesOnly(s.batches[i], s'.batches[i])
    ensures AllSpared(s, s', call)
  {
    SelfSpares(s);
    forall i, j | 0 <= i < |s.batches| && 0 <= j < |s'.batches| && s.batches[i].batchId == s'.batches[j].batchId
      ensures Spares(s.batches[i], s'.batches[j], ArmsCall(s, call, s.batches[i].batchId))
    {
      assert s'.batches[j].batchId == s.batches[j].batchId && i == j;
      assert forall k, m :: 0 <= k < |s.batches[i].items| && 0 <= m < |s.batches[i].items| ==>
          (EndsAt(s.batches[i], s'.batches[i], k, m) <==> EndsAt(s.batches[i], s.batches[i], k, m));
    }
  }

  lemma MarkerCallSpares(s: State, call: Call)
    requires Valid(s) && (call.VerifiedProof? || call.AckProof? || call.HeightNotice? || call.AckHeight?)
    ensures AllSpared(s, Apply(s, call), call)
  {
    var s' := Apply(s, call);
    MarkerNoticesOnly(s, call);
    InPlaceSpares(s, s', call);
  }

  lemma MarkerNoticesOnly(s: State, call: Call)
    requires call.VerifiedProof? || call.AckProof? || call.HeightNotice? || call.AckHeight?
    ensures var s' := Apply(s, call);
            |s'.batches| == |s.batches|
            && forall i :: 0 <= i < |s.batches| ==> NoticesOnly(s.batches[i], s'.batches[i])
  {
    hide FirstProof, VerifiedFor, RecordVerified;
    if call.VerifiedProof? {
      VerifiedNoticesOnly(s, call.network, call.accountUuid, call.runId, call.now);
    }
  }

  lemma VerifiedNoticesOnly(s: State, network: string, accountUuid: string, runId: string, now: Date)
    ensures var s' := RecordVerified(s, network, accountUuid, runId, now).0;
            |s'.batches| == |s.batches|
            && forall i :: 0 <= i < |s.batches| ==> NoticesOnly(s.batches[i], s'.batches[i])
  {
    hide FirstProof;
    match FirstProof(s.batches, VerifiedFor(network, accountUuid, runId))
    case None =>
    case Some(i) =>
      assert VerifiedCandidate(s.batches[i], network, accountUuid, runId);
  }

  /** Each batch left comes from one of the same id, with some of its items. */
  predicate Remains(s: State, b: Batch) {
    exists i :: 0 <= i < |s.batches| && s.batches[i].batchId == b.batchId && s.batches[i].armedAt == b.armedAt
                && QueuesIfArmed(s.batches[i], b)
                && forall it :: it in b.items ==> it in s.batches[i].items
  }

  lemma RemovalSpares(s: State, s': State, call: Call)
    requires Valid(s) && !call.ArmBatch? && !call.RecoverBatch?
    requires forall j :: 0 <= j < |s'.batches| ==> Remains(s, s'.batches[j])
    ensures AllSpared(s, s', call)
  {
    assert UniqueBatches(s.batches);
    forall i, j | 0 <= i < |s.batches| && 0 <= j < |s'.batches| && s.batches[i].batchId == s'.batches[j].batchId
      ensures Spares(s.batches[i], s'.batches[j], ArmsCall(s, call, s.batches[i].batchId))
    {
      var a, b := s.batches[i], s'.batches[j];
      assert Remains(s, b) && BatchOk(a);
      forall m | 0 <= m < |b.items|
        ensures exists k :: 0 <= k < |a.items| && a.items[k].itemId == b.items[m].itemId
                            && (Ended(b.items[m]) ==> Ended(a.items[k]))
      {
        assert b.items[m] in a.items;
      }
      NoneEnds(a, b);
    }
  }

  lemma PrunedRemains(s: State, itemIds: set<string>, drop: Batch -> bool, j: nat)
    requires j < |PruneBatches(s.batches, itemIds, drop)|
    ensures Remains(s, PruneBatches(s.batches, itemIds, drop)[j])
  {
    var i := PruneOrigin(s.batches, itemIds, drop, j);
    FilterMembers(s.batches[i].items, NotIn(itemIds));
  }

  lemma RemovingCallSpares(s: State, call: Call)
    requires Valid(s) && (call.AckReceipts? || call.Discard? || call.RevokeScope? || call.RemoveAll? || call.AckSent?)
    ensures AllSpared(s, Apply(s, call), call)
  {
    var s' := Apply(s, call);
    forall j | 0 <= j < |s'.batches|
      ensures Remains(s, s'.batches[j])
    {
      hide Valid, Remains;
      RemovedRemains(s, call, j);
    }
    RemovalSpares(s, s', call);
  }

  lemma RemovedRemains(s: State, call: Call, j: nat)
    requires call.AckReceipts? || call.Discard? || call.RevokeScope? || call.RemoveAll? || call.AckSent?
    requires j < |Apply(s, call).batches|
    ensures Remains(s, Apply(s, call).batches[j])
  {
    match call
    case AckReceipts(ids) => PrunedRemains(s, AckedItemIds(s.receipts, ids), Finished(s.receipts, ids), j);
    case Discard(id) => StoredRemains(s, Apply(s, call).batches[j]);
    case RevokeScope(network, account) =>
      FilterMembers(s.batches, OutsideBatches(ScopeBatchIds(s.batches, network, account)));
      StoredRemains(s, Apply(s, call).batches[j]);
    case RemoveAll =>
    case AckSent(id, now) => AckSentRemains(s, id, now, j);
  }

  lemma StoredRemains(s: State, b: Batch)
    requires b in s.batches
    ensures Remains(s, b)
  {
    var i :| 0 <= i < |s.batches| && s.batches[i] == b;
  }

  lemma AckSentRemains(s: State, id: string, now: Date, j: nat)
    requires j < |Apply(s, AckSent(id, now)).batches|
    ensures Remains(s, Apply(s, AckSent(id, now)).batches[j])
  {
    var s' := Apply(s, AckSent(id, now));
    if |s'.batches| < |s.batches| {
      StoredRemains(s, s'.batches[j]);
    } else {
      assert s.batches[j].items == s'.batches[j].items;
    }
  }

  /** Restaging adds new items behind the stored ones and arms nothing. */
  lemma StageCallSpares(s: State, call: Call)
    requires Valid(s) && call.StageBatch? && FreshBatch(s, call.batch)
    ensures AllSpared(s, Apply(s, call), call)
  {
    SelfSpares(s);
    var s' := Apply(s, call);
    match FindBatch(s.batches, call.batch.batchId)
    case None =>
    case Some(i) =>
      assert BatchOk(s.batches[i]);
      var added := NewItems(s.batches[i].items, call.batch.items);
      if added.Some? {
        RestagedSpares(s.batches[i], call.batch, added.value);
      }
      hide Spares, NewItems, Restaged;
  }

  lemma RestagedSpares(a: Batch, batch: Batch, added: seq<Item>)
    requires DistinctItems(a.items) && NewItems(a.items, batch.items) == Some(added)
    ensures Spares(a, Restaged(a, batch, added), false) && Restaged(a, batch, added).batchId == a.batchId
  {
    var b := Restaged(a, batch, added);
    forall m | 0 <= m < |b.items|
      ensures m < |a.items| ==> b.items[m] == a.items[m]
      ensures m >= |a.items| ==> forall k :: 0 <= k < |a.items| ==> a.items[k].itemId != b.items[m].itemId
    {
      if m >= |a.items| {
        var _ := NewItemsAreNew(a.items, batch.items, m - |a.items|);
      }
    }
    NoneEnds(a, b);
  }

  lemma CallSpares(s: State, call: Call)
    requires Valid(s) && Assumed(s, call)
    ensures AllSpared(s, Apply(s, call), call)
  {
    hide Valid, AllSpared, Apply;
    match call
    case StageBatch(batch) => StageCallSpares(s, call);
    case ArmBatch(_, _, _) => ArmCallSpares(s, call);
    case RecoverBatch(_, _, _, _, _, _, _) => RecoverCallSpares(s, call);
    case VerifiedProof(_, _, _, _) => MarkerCallSpares(s, call);
    case AckReceipts(ids) => RemovingCallSpares(s, call);
    case Discard(id) => RemovingCallSpares(s, call);
    case RevokeScope(network, account) => RemovingCallSpares(s, call);
    case RemoveAll => RemovingCallSpares(s, call);
    case AckProof(_, _) => MarkerCallSpares(s, call);
    case HeightNotice(_, _) => MarkerCallSpares(s, call);
    case AckHeight(_, _) => MarkerCallSpares(s, call);
    case AckSent(id, now) => RemovingCallSpares(s, call);
  }

  // ----- One event

  ghost predicate Arms(w: World, e: Event, batchId: string) {
    e.ChannelCall? && ArmsCall(w.store, e.call, batchId)
  }

  /** Every event either is a call, or carries each batch on. */
  lemma EventRunsOn(w: World, e: Event)
    requires Step(w, e).Some? && !e.ChannelCall?
    ensures AllRunOn(w.store, Step(w, e).value.store)
  {
    hide AllRunOn, FirstUpdate, SelectUpdate, RecordCancelled, OutcomeUpdate, RandomnessFits;
    SameRunsOn(w.store, w.store);
    match e
    case Inspect(now) => FirstRunsOn(w.store, now);
    case Select(verifyProofs, attemptId, now) =>
      if SelectUpdate(w.store, w.phase.endpoint, w.phase.height, verifyProofs, attemptId, now).Ok? {
        SelectRunsOn(w.store, w.phase.endpoint, w.phase.height, verifyProofs, attemptId, now);
      }
    case CancelBeforeSend(stored, message) =>
      if stored && RecordCancelled(w.store, w.phase.selection.item.itemId, message).Ok? {
        CancelRunsOn(w.store, w.phase.selection.item.itemId, message);
      }
    case RecordOutcome(stored, message, now, random) =>
      var r := OutcomeUpdate(w.store, w.phase.selection, w.phase.height, w.phase.response, message, now, random);
      if stored && r.Ok? {
        OutcomeRunsOn(w.store, w.phase.selection, w.phase.height, w.phase.response, message, now, random);
      }
    case _ =>
  }

  lemma EndsHereExactly(a: Batch, b: Batch)
    requires RunsOn(a, b) && DistinctItems(a.items)
    ensures EndsItem(a, b) <==> EndsHere(a, b)
  {
    if k :| 0 <= k < |a.items| && !Ended(a.items[k]) && Ended(b.items[k]) {
      assert EndsAt(a, b, k, k);
    }
  }

  /** What one event does to a batch stored before and after it: ends stop it, and nothing else disarms or arms it. */
  lemma StoppedExactly(w: World, e: Event, i: nat, j: nat)
    requires WorldOk(w) && Step(w, e).Some?
    requires i < |w.store.batches| && j < |Step(w, e).value.store.batches|
    requires w.store.batches[i].batchId == Step(w, e).value.store.batches[j].batchId
    ensures var a, b := w.store.batches[i], Step(w, e).value.store.batches[j];
            && (a.armedAt.Some? ==> (b.armedAt.None? <==> EndsItem(a, b)))
            && (a.armedAt.None? ==> (b.armedAt.Some? <==> Arms(w, e, a.batchId)))
            && (EndsItem(a, b) ==> b.armedAt.None? && Stopped(b))
            && QueuesIfArmed(a, b)
  {
    if e.ChannelCall? {
      CallStored(w, e.call);
      hide Step, Apply, EndsItem, ArmsCall, Told, ChoiceOk, Valid, QueuesIfArmed, Stopped;
      CallSpares(w.store, e.call);
      assert Spares(w.store.batches[i], Step(w, e).value.store.batches[j],
                    ArmsCall(w.store, e.call, w.store.batches[i].batchId));
    } else {
      WorldValid(w);
      EventRunsOn(w, e);
      hide WorldOk, Step;
      RunnerStops(w.store, Step(w, e).value.store, i, j);
    }
  }

  lemma RunnerStops(s: State, s': State, i: nat, j: nat)
    requires Valid(s) && AllRunOn(s, s') && i < |s.batches| && j < |s'.batches|
    requires s.batches[i].batchId == s'.batches[j].batchId
    ensures var a, b := s.batches[i], s'.batches[j];
            && (EndsItem(a, b) ==> b.armedAt.None? && Stopped(b)) && QueuesIfArmed(a, b)
            && (!EndsItem(a, b) ==> b.armedAt == a.armedAt)
            && (a.armedAt.None? ==> b.armedAt.None?)
  {
    assert UniqueBatches(s.batches) && BatchOk(s.batches[i]);
    hide Valid, EndsItem, EndsHere;
    assert RunsOn(s.batches[j], s'.batches[j]) && i == j;
    EndsHereExactly(s.batches[i], s'.batches[j]);
  }

  lemma WorldValid(w: World)
    requires WorldOk(w)
    ensures Valid(w.store)
  {
  }

  lemma CallStored(w: World, call: Call)
    requires Step(w, ChannelCall(call)).Some?
    ensures Assumed(w.store, call) && Step(w, ChannelCall(call)).value.store == Apply(w.store, call)
  {
  }

  // ----- Over whole runs

  /** No stored batch of this id is armed. */
  ghost predicate Disarmed(s: State, batchId: string) {
    forall i :: 0 <= i < |s.batches| && s.batches[i].batchId == batchId ==> s.batches[i].armedAt.None?
  }

  ghost predicate HasId(s: State, batchId: string) {
    exists i :: 0 <= i < |s.batches| && s.batches[i].batchId == batchId
  }

  /** A batch of a new id is one just staged, and not armed. */
  lemma NewBatchIsUnarmed(w: World, e: Event, j: nat)
    requires Step(w, e).Some? && j < |Step(w, e).value.store.batches|
    ensures var b := Step(w, e).value.store.batches[j]; HasId(w.store, b.batchId) || b.armedAt.None?
  {
    if e.ChannelCall? {
      CallStored(w, e.call);
      hide Step;
      NewFromCall(w.store, e.call, j);
    } else {
      EventRunsOn(w, e);
      hide Step;
      SameIdsFromRunner(w.store, Step(w, e).value.store);
    }
  }

  lemma SameIdsFromRunner(s: State, s': State)
    requires AllRunOn(s, s')
    ensures forall j :: 0 <= j < |s'.batches| ==> HasId(s, s'.batches[j].batchId)
  {
    forall j | 0 <= j < |s'.batches|
      ensures HasId(s, s'.batches[j].batchId)
    {
      assert RunsOn(s.batches[j], s'.batches[j]);
    }
  }

  lemma NewFromCall(s: State, call: Call, j: nat)
    requires Assumed(s, call) && j < |Apply(s, call).batches|
    ensures HasId(s, Apply(s, call).batches[j].batchId) || Apply(s, call).batches[j].armedAt.None?
  {
    if call.AckReceipts? || call.Discard? || call.RevokeScope? || call.RemoveAll? || call.AckSent? {
      hide Apply;
      RemovedRemains(s, call, j);
    } else if call.StageBatch? {
      NewFromStage(s, call.batch, j);
    } else {
      SameIdsFromCall(s, call);
    }
  }

  lemma NewFromStage(s: State, batch: Batch, j: nat)
    requires FreshBatch(s, batch) && j < |Apply(s, StageBatch(batch)).batches|
    ensures var b := Apply(s, StageBatch(batch)).batches[j]; HasId(s, b.batchId) || b.armedAt.None?
  {
    var s' := Apply(s, StageBatch(batch));
    if j < |s.batches| {
      assert s'.batches[j].batchId == s.batches[j].batchId;
    }
  }

  lemma SameIdsFromCall(s: State, call: Call)
    requires call.ArmBatch? || call.RecoverBatch? || call.VerifiedProof? || call.AckProof? || call.HeightNotice?
             || call.AckHeight?
    ensures forall j :: 0 <= j < |Apply(s, call).batches| ==> HasId(s, Apply(s, call).batches[j].batchId)
  {
    forall j | 0 <= j < |Apply(s, call).batches|
      ensures j < |s.batches| && s.batches[j].batchId == Apply(s, call).batches[j].batchId
    {
    }
  }

  lemma DisarmedKept(w: World, e: Event, batchId: string)
    requires WorldOk(w) && Disarmed(w.store, batchId) && Step(w, e).Some? && !Arms(w, e, batchId)
    ensures Disarmed(Step(w, e).value.store, batchId)
  {
    hide WorldOk, Step, Arms, EndsItem, Stopped, QueuesIfArmed;
    var s' := Step(w, e).value.store;
    forall j | 0 <= j < |s'.batches| && s'.batches[j].batchId == batchId
      ensures s'.batches[j].armedAt.None?
    {
      if i :| 0 <= i < |w.store.batches| && w.store.batches[i].batchId == batchId {
        StoppedExactly(w, e, i, j);
      } else {
        NewBatchIsUnarmed(w, e, j);
      }
    }
  }

  /** The run begins to submit an item of this batch. */
  predicate Selects(w: World, e: Event, batchId: string) {
    e.Select? && Step(w, e).Some? && Step(w, e).value.phase.Chose?
    && Step(w, e).value.phase.selection.batchId == batchId
  }

  lemma PreparedDisarmed(s: State, endpoint: string, height: U64, verifyProofs: bool, now: Date, i: nat)
    requires i < |s.batches| && s.batches[i].armedAt.None?
    ensures var p := Prepare(s, endpoint, height, verifyProofs, now);
            i < |p.batches| && p.batches[i].batchId == s.batches[i].batchId && p.batches[i].armedAt.None?
  {
    hide Prepare;
    PrepareRunsOn(s, endpoint, height, verifyProofs, now);
    assert RunsOn(s.batches[i], Prepare(s, endpoint, height, verifyProofs, now).batches[i]);
  }

  lemma PreparedIds(s: State, endpoint: string, height: U64, verifyProofs: bool, now: Date)
    ensures var p := Prepare(s, endpoint, height, verifyProofs, now);
            && |p.batches| == |s.batches|
            && forall i :: 0 <= i < |s.batches| ==> p.batches[i].batchId == s.batches[i].batchId
  {
    hide Prepare;
    PrepareRunsOn(s, endpoint, height, verifyProofs, now);
    assert forall i :: 0 <= i < |s.batches| ==>
        RunsOn(s.batches[i], Prepare(s, endpoint, height, verifyProofs, now).batches[i]);
  }

  /** What a selection selects from was armed before. */
  lemma SelectedWasArmed(s: State, endpoint: string, height: U64, verifyProofs: bool, attemptId: string, now: Date)
    requires Valid(s) && SelectUpdate(s, endpoint, height, verifyProofs, attemptId, now).Ok?
    requires SelectUpdate(s, endpoint, height, verifyProofs, attemptId, now).value.selection.Some?
    ensures var selection := SelectUpdate(s, endpoint, height, verifyProofs, attemptId, now).value.selection.value;
            !Disarmed(s, selection.batchId)
  {
    hide Valid, Prepare, SelectUpdate, ValidateRescheduling, BeginSubmission, Settles, Due;
    var t, at := SelectUpdateParts(s, endpoint, height, verifyProofs, attemptId, now);
    PreparedIds(s, endpoint, height, verifyProofs, now);
    if s.batches[at.batch].armedAt.None? {
      PreparedDisarmed(s, endpoint, height, verifyProofs, now, at.batch);
      assert false;
    }
  }

  lemma DisarmedIsNotSelected(w: World, e: Event, batchId: string)
    requires WorldOk(w) && Disarmed(w.store, batchId)
    ensures !Selects(w, e, batchId)
  {
    hide SelectUpdate, Told, ChoiceOk, Valid, Disarmed;
    if Selects(w, e, batchId) {
      SelectedWasArmed(w.store, w.phase.endpoint, w.phase.height, e.verifyProofs, e.attemptId, e.now);
    }
  }

  /** No event of the run arms the batch. */
  ghost predicate NeverArms(w: World, events: seq<Event>, batchId: string)
    decreases |events|
  {
    events == [] ||
    (!Arms(w, events[0], batchId)
     && (Step(w, events[0]).Some? ==> NeverArms(Step(w, events[0]).value, events[1..], batchId)))
  }

  /** No event of the run begins to submit an item of the batch. */
  ghost predicate NeverSelects(w: World, events: seq<Event>, batchId: string)
    decreases |events|
  {
    events == [] ||
    (!Selects(w, events[0], batchId)
     && (Step(w, events[0]).Some? ==> NeverSelects(Step(w, events[0]).value, events[1..], batchId)))
  }

  lemma {:induction false} DisarmedRun(w: World, events: seq<Event>, batchId: string)
    requires WorldOk(w) && Disarmed(w.store, batchId) && Run(w, events).Some? && NeverArms(w, events, batchId)
    ensures NeverSelects(w, events, batchId) && Disarmed(Run(w, events).value.store, batchId)
    decreases |events|
  {
    if events != [] {
      hide WorldOk, Step, Disarmed, Arms, Selects;
      StepKeeps(w, events[0]);
      DisarmedIsNotSelected(w, events[0], batchId);
      DisarmedKept(w, events[0], batchId);
      DisarmedRun(Step(w, events[0]).value, events[1..], batchId);
    }
  }

  /**
   * An end stops the batch: once an item of it is rejected, expired or to be
   * signed again, by whatever event, the batch is neither inspected, selected nor
   * announced, and no run selects an item of it before a call arms it again.
   */
  lemma EndStopsBatch(w: World, e: Event, i: nat, j: nat, events: seq<Event>)
    requires Reachable(w) && Step(w, e).Some? && i < |w.store.batches| && j < |Step(w, e).value.store.batches|
    requires var a, b := w.store.batches[i], Step(w, e).value.store.batches[j];
             a.batchId == b.batchId && EndsItem(a, b)
    requires Run(Step(w, e).value, events).Some? && NeverArms(Step(w, e).value, events, w.store.batches[i].batchId)
    ensures Stopped(Step(w, e).value.store.batches[j])
    ensures NeverSelects(Step(w, e).value, events, w.store.batches[i].batchId)
    ensures Disarmed(Run(Step(w, e).value, events).value.store, w.store.batches[i].batchId)
  {
    hide WorldOk, Step, Stopped, EndsItem, NeverArms, NeverSelects, Disarmed;
    ReachableOk(w);
    StepKeeps(w, e);
    StoppedExactly(w, e, i, j);
    StoppedIsDisarmed(Step(w, e).value, j);
    DisarmedRun(Step(w, e).value, events, w.store.batches[i].batchId);
  }

  lemma StoppedIsDisarmed(w: World, j: nat)
    requires WorldOk(w) && j < |w.store.batches| && Stopped(w.store.batches[j])
    ensures w.store.batches[j].armedAt.None? ==> Disarmed(w.store, w.store.batches[j].batchId)
  {
    hide Told, ChoiceOk, Stopped;
    assert UniqueBatches(w.store.batches);
  }

  // ----- Which items a height ends

  /** The one expiry with which transactions may still be sent at this height. */
  predicate InWindow(expiry: U64, height: U64) {
    var canonical := (height / EXPIRY_MODULUS + 2) * EXPIRY_MODULUS;
    canonical >= TWO_64 || expiry == canonical
  }

  lemma CanonicalIsInWindow(expiry: U64, height: U64)
    ensures match CanonicalExpiry(height)
            case None => InWindow(expiry, height)
            case Some(canonical) => InWindow(expiry, height) <==> expiry == canonical
  {
  }

  /** The item expires, is found signed for another window, or neither. */
  ghost predicate RetiredAs(b: Batch, a: Item, after: Item, endpoint: string, height: U64) {
    var here := b.url == endpoint && a.status == Armed;
    && (after.status == ExpiredAwaiting && a.status != ExpiredAwaiting <==> here && height >= a.expiryHeight)
    && (after.status == NeedsResignAwaiting && a.status != NeedsResignAwaiting <==>
        here && height < a.expiryHeight && a.scheduledHeight <= height && !InWindow(a.expiryHeight, height))
  }

  lemma RetiredTwice(b: Batch, height: U64, endpoint: string, k: nat)
    requires k < |b.items|
    ensures var b1 := RetiredBatch(PastExpiry, b, height, endpoint);
            && |b1.items| == |b.items| && b1.url == b.url
            && var b2 := match CanonicalExpiry(height)
                         case None => b1
                         case Some(canonical) => RetiredBatch(OtherWindow(canonical), b1, height, endpoint);
               |b2.items| == |b.items| && RetiredAs(b, b.items[k], b2.items[k], endpoint, height)
  {
    CanonicalIsInWindow(b.items[k].expiryHeight, height);
    hide InWindow, CanonicalExpiry;
    OnceRetired(PastExpiry, b, height, endpoint, k);
    var b1 := RetiredBatch(PastExpiry, b, height, endpoint);
    if CanonicalExpiry(height).Some? {
      OnceRetired(OtherWindow(CanonicalExpiry(height).value), b1, height, endpoint, k);
    }
    hide RetiredBatch;
  }

  lemma OnceRetired(why: Retirement, b: Batch, height: U64, endpoint: string, k: nat)
    requires k < |b.items|
    ensures var b' := RetiredBatch(why, b, height, endpoint);
            && |b'.items| == |b.items| && b'.url == b.url
            && b'.items[k] == if b.url == endpoint && Retires(why, b.items[k], height)
                              then b.items[k].(status := StatusOf(RetirementOutcome(why))) else b.items[k]
  {
  }

  /**
   * What a selecting update retires, exactly: on the inspected endpoint an armed
   * item expires once the height has reached its expiry, and is to be signed again
   * when it is due but belongs to another window than the height's.
   */
  lemma RetiredExactly(s: State, endpoint: string, height: U64, verifyProofs: bool, attemptId: string, now: Date,
                       i: nat, k: nat)
    requires SelectUpdate(s, endpoint, height, verifyProofs, attemptId, now).Ok?
    requires i < |s.batches| && k < |s.batches[i].items|
    ensures var s' := SelectUpdate(s, endpoint, height, verifyProofs, attemptId, now).value.state;
            && i < |s'.batches| && k < |s'.batches[i].items|
            && RetiredAs(s.batches[i], s.batches[i].items[k], s'.batches[i].items[k], endpoint, height)
  {
    hide RetiredAs, Prepare, SelectDue;
    PreparedItems(s, endpoint, height, verifyProofs, now, i);
    RetiredTwice(s.batches[i], height, endpoint, k);
    var p := Prepare(s, endpoint, height, verifyProofs, now);
    SelectDueBatches(p, height, endpoint, now);
    BegunStatus(s.batches[i], s.batches[i].items[k], p.batches[i].items[k], endpoint, height);
  }

  lemma PreparedItems(s: State, endpoint: string, height: U64, verifyProofs: bool, now: Date, i: nat)
    requires i < |s.batches|
    ensures var p := Prepare(s, endpoint, height, verifyProofs, now);
            && |p.batches| == |s.batches|
            && var b1 := RetiredBatch(PastExpiry, s.batches[i], height, endpoint);
               match CanonicalExpiry(height)
               case None => p.batches[i].items == b1.items
               case Some(canonical) =>
                 p.batches[i].items == RetiredBatch(OtherWindow(canonical), b1, height, endpoint).items
  {
    hide RetiredBatch, CanonicalExpiry;
  }

  /** Beginning to submit an item that is still armed changes nothing about what was retired. */
  lemma BegunStatus(b: Batch, a: Item, after: Item, endpoint: string, height: U64)
    requires RetiredAs(b, a, after, endpoint, height)
    ensures forall begun: Item :: begun.status == Submitting && after.status == Armed ==>
              RetiredAs(b, a, begun, endpoint, height)
  {
    hide InWindow;
  }

  // ----- The receipts of a retirement

  /** A receipt filed at this height for an item that was never answered. */
  predicate FiledAt(q: Receipt, height: U64, now: Date) {
    && (q.outcome == Expired || q.outcome == NeedsResign) && q.remoteHeight == height && q.recordedAt == now
    && q.responseCode.None? && q.updates == []
  }

  lemma {:induction false} BatchFiles(why: Retirement, b: Batch, height: U64, now: Date, n: nat)
    requires n <= |b.items|
    ensures forall q :: q in BatchReceipts(why, b, height, now, n) ==> FiledAt(q, height, now)
  {
    if n > 0 {
      BatchFiles(why, b, height, now, n - 1);
    }
  }

  lemma {:induction false} RetirementFiles(why: Retirement, batches: seq<Batch>, height: U64, endpoint: string,
                                           now: Date, n: nat)
    requires n <= |batches|
    ensures forall q :: q in RetiredReceipts(why, batches, height, endpoint, now, n) ==> FiledAt(q, height, now)
  {
    if n > 0 {
      RetirementFiles(why, batches, height, endpoint, now, n - 1);
      BatchFiles(why, batches[n - 1], height, now, |batches[n - 1].items|);
    }
  }

  /** A selecting update keeps every receipt and adds only those of what it retires, filed at its height. */
  lemma SelectFiles(s: State, endpoint: string, height: U64, verifyProofs: bool, attemptId: string, now: Date)
    requires SelectUpdate(s, endpoint, height, verifyProofs, attemptId, now).Ok?
    ensures var s' := SelectUpdate(s, endpoint, height, verifyProofs, attemptId, now).value.state;
            && s.receipts <= s'.receipts
            && forall q :: q in s'.receipts[|s.receipts|..] ==> FiledAt(q, height, now)
  {
    hide RetiredReceipts, SelectDue, FiledAt;
    var s1 := ExpireItems(s, height, endpoint, now);
    RetirementFiles(PastExpiry, s.batches, height, endpoint, now, |s.batches|);
    if CanonicalExpiry(height).Some? {
      RetirementFiles(OtherWindow(CanonicalExpiry(height).value), s1.batches, height, endpoint, now, |s1.batches|);
    }
    PreparedReceipts(s, endpoint, height, verifyProofs, now);
    hide Prepare;
    SelectDueReceipts(Prepare(s, endpoint, height, verifyProofs, now), height, endpoint, now);
  }

  lemma PreparedReceipts(s: State, endpoint: string, height: U64, verifyProofs: bool, now: Date)
    ensures var s1 := ExpireItems(s, height, endpoint, now);
            Prepare(s, endpoint, height, verifyProofs, now).receipts
            == s.receipts + RetiredReceipts(PastExpiry, s.batches, height, endpoint, now, |s.batches|)
                + match CanonicalExpiry(height)
                  case None => []
                  case Some(c) => RetiredReceipts(OtherWindow(c), s1.batches, height, endpoint, now, |s1.batches|)
  {
    hide RetiredReceipts, CanonicalExpiry;
  }

  lemma SelectDueReceipts(s: State, height: U64, endpoint: string, now: Date)
    ensures SelectDue(s, height, Some(endpoint), now).0.receipts == s.receipts
  {
  }
}
