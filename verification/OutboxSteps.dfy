/** Every operation that neither adds nor removes records keeps the invariant and follows the life cycle. */
module OutboxSteps {
  import opened Common
  import opened OutboxTypes
  import opened OutboxPeers
  import opened OutboxOps
  import opened OutboxInvariant

  // ----- Markers and cursors

  lemma NoReceipts(a: Batch, b: Batch, licence: Licence)
    requires BatchEvolves(a, b, licence)
    requires forall k :: 0 <= k < |a.items| && Terminal(b.items[k].status) ==> Terminal(a.items[k].status)
    ensures Accounts(a, b, [])
  {
  }

  /** A batch whose items stay as they are. */
  lemma MarkerStep(s: State, i: nat, b: Batch)
    requires Valid(s) && i < |s.batches|
    requires SameBatch(s.batches[i], b) && b.url == s.batches[i].url && b.items == s.batches[i].items
    requires 0 < b.timingMean <= b.timingMax && MarkersOk(b) && NoticesKept(s.batches[i], b)
    requires b.batchId in s.announced ==> b.sentPendingAt.None?
    ensures Valid(WithBatch(s, i, b)) && Evolves(s, WithBatch(s, i, b), PLAIN)
  {
    var a := s.batches[i];
    forall k | 0 <= k < |a.items|
      ensures ItemEvolves(a.items[k], b.items[k], PLAIN)
    {
      ItemReflexive(a.items[k], PLAIN);
    }
    NoReceipts(a, b, PLAIN);
    BatchStepKeepsValid(s, i, b, [], PLAIN);
    assert s.receipts + [] == s.receipts;
  }

  lemma MarkProofReadyKeeps(s: State, height: U64, endpoint: string, date: Date)
    requires Valid(s)
    ensures Valid(MarkProofReady(s, height, endpoint, date).0)
    ensures Evolves(s, MarkProofReady(s, height, endpoint, date).0, PLAIN)
  {
    EvolvesReflexive(s, PLAIN);
    match FirstProof(s.batches, ReadyAt(height, endpoint))
    case None =>
    case Some(i) =>
      var b := s.batches[i];
      if b.proofPendingAt.None? {
        MarkerStep(s, i, b.(proofPendingAt := Some(date)));
      }
  }

  lemma RecordVerifiedKeeps(s: State, network: string, accountUuid: string, runId: string, date: Date)
    requires Valid(s)
    ensures Valid(RecordVerified(s, network, accountUuid, runId, date).0)
    ensures Evolves(s, RecordVerified(s, network, accountUuid, runId, date).0, PLAIN)
  {
    EvolvesReflexive(s, PLAIN);
    match FirstProof(s.batches, VerifiedFor(network, accountUuid, runId))
    case None =>
    case Some(i) =>
      var b := s.batches[i];
      if b.proofNotifiedAt.None? && b.proofPendingAt.None? {
        MarkerStep(s, i, b.(proofPendingAt := Some(date)));
      }
  }

  lemma AcknowledgeProofReadyKeeps(s: State, batchId: string, date: Date)
    requires Valid(s) && AcknowledgeProofReady(s, batchId, date).Ok?
    ensures var s' := AcknowledgeProofReady(s, batchId, date).value; Valid(s') && Evolves(s, s', PLAIN)
  {
    var i := FindBatch(s.batches, batchId).value;
    MarkerStep(s, i, s.batches[i].(proofPendingAt := None, proofNotifiedAt := Some(date)));
  }

  lemma MarkHeightNoticeKeeps(s: State, batchId: string, date: Date)
    requires Valid(s)
    ensures var s' := MarkHeightNotice(s, batchId, date).0; Valid(s') && Evolves(s, s', PLAIN)
  {
    EvolvesReflexive(s, PLAIN);
    if MarkHeightNotice(s, batchId, date).1 {
      var i := FindBatch(s.batches, batchId).value;
      MarkerStep(s, i, s.batches[i].(heightPendingAt := Some(date)));
    }
  }

  lemma AcknowledgeHeightNoticeKeeps(s: State, batchId: string, date: Date)
    requires Valid(s) && AcknowledgeHeightNotice(s, batchId, date).Ok?
    ensures var s' := AcknowledgeHeightNotice(s, batchId, date).value; Valid(s') && Evolves(s, s', PLAIN)
  {
    var i := FindBatch(s.batches, batchId).value;
    MarkerStep(s, i, s.batches[i].(heightPendingAt := None, heightNoticedAt := Some(date)));
  }

  lemma MarkSentKeeps(s: State, batchId: string, date: Date)
    requires Valid(s)
    ensures var s' := MarkSent(s, batchId, date); Valid(s') && Evolves(s, s', PLAIN)
  {
    EvolvesReflexive(s, PLAIN);
    match FindBatch(s.batches, batchId)
    case None =>
    case Some(i) =>
      if MarkSent(s, batchId, date) != s {
        MarkerStep(s, i, s.batches[i].(sentPendingAt := Some(date)));
      }
  }

  lemma CursorKeeps(s: State, scope: Option<string>, endpoint: Option<string>)
    requires Valid(s)
    ensures var s' := s.(lastScope := scope, lastEndpoint := endpoint); Valid(s') && Evolves(s, s', PLAIN)
  {
    EvolvesReflexive(s, PLAIN);
  }

  // ----- Arming and recovery

  lemma ArmKeeps(s: State, batchId: string, digests: map<string, Digest>, date: Date)
    requires Valid(s) && Arm(s, batchId, digests, date).Ok?
    ensures var s' := Arm(s, batchId, digests, date).value; Valid(s') && Evolves(s, s', PLAIN)
  {
    var i := FindBatch(s.batches, batchId).value;
    var a := s.batches[i];
    var b := Arm(s, batchId, digests, date).value.batches[i];
    forall k | 0 <= k < |a.items|
      ensures ItemEvolves(a.items[k], b.items[k], PLAIN)
      ensures Terminal(b.items[k].status) ==> Terminal(a.items[k].status)
    {
      assert b.items[k] == ArmItem(a.items[k], digests);
    }
    NoReceipts(a, b, PLAIN);
    BatchStepKeepsValid(s, i, b, [], PLAIN);
    assert s.receipts + [] == s.receipts;
  }

  lemma RecoverKeeps(s: State, batchId: string, network: string, accountUuid: string, runId: string,
                     txids: set<string>, url: string, date: Date)
    requires Valid(s) && Recover(s, batchId, network, accountUuid, runId, txids, url, date).Ok?
    ensures var s' := Recover(s, batchId, network, accountUuid, runId, txids, url, date).value.0;
            Valid(s') && Evolves(s, s', PLAIN)
  {
    EvolvesReflexive(s, PLAIN);
    match FindBatch(s.batches, batchId)
    case None =>
    case Some(i) =>
      var a := s.batches[i];
      var b := RecoveredBatch(a, url, date);
      forall k | 0 <= k < |a.items|
        ensures ItemEvolves(a.items[k], b.items[k], PLAIN)
        ensures Terminal(b.items[k].status) ==> Terminal(a.items[k].status)
      {
        assert b.items[k] == RecoverItem(a.items[k], date);
      }
      NoReceipts(a, b, PLAIN);
      BatchStepKeepsValid(s, i, b, [], PLAIN);
      assert s.receipts + [] == s.receipts;
  }

  /** The state once the first `n` batches were recovered. */
  function InterruptedFirst(s: State, date: Date, n: nat): (r: State)
    requires n <= |s.batches|
    ensures |r.batches| == |s.batches|
    ensures forall i :: 0 <= i < |s.batches| ==>
              r.batches[i] == if i < n then InterruptedBatch(s.batches[i], date) else s.batches[i]
    ensures r == s.(batches := r.batches)
  {
    s.(batches := seq(|s.batches|, i requires 0 <= i < |s.batches| =>
                        if i < n then InterruptedBatch(s.batches[i], date) else s.batches[i]))
  }

  lemma InterruptedEvolves(a: Batch, date: Date)
    requires BatchOk(a)
    ensures BatchEvolves(a, InterruptedBatch(a, date), PLAIN)
    ensures Accounts(a, InterruptedBatch(a, date), [])
  {
    var b := InterruptedBatch(a, date);
    forall k | 0 <= k < |a.items|
      ensures ItemEvolves(a.items[k], b.items[k], PLAIN)
      ensures Terminal(b.items[k].status) ==> Terminal(a.items[k].status)
    {
      assert b.items[k] == InterruptedItem(a.items[k], date);
    }
    NoReceipts(a, b, PLAIN);
  }

  lemma InterruptedStep(s: State, i: nat, date: Date)
    requires Valid(s) && i < |s.batches|
    ensures Valid(WithBatch(s, i, InterruptedBatch(s.batches[i], date)))
  {
    InterruptedEvolves(s.batches[i], date);
    BatchStepKeepsValid(s, i, InterruptedBatch(s.batches[i], date), [], PLAIN);
    assert s.receipts + [] == s.receipts;
  }

  lemma InterruptedUnfold(s: State, date: Date, n: nat)
    requires 0 < n <= |s.batches|
    ensures var t := InterruptedFirst(s, date, n - 1);
            InterruptedFirst(s, date, n) == WithBatch(t, n - 1, InterruptedBatch(t.batches[n - 1], date))
  {
    var t := InterruptedFirst(s, date, n - 1);
    assert InterruptedFirst(s, date, n).batches == t.batches[n - 1 := InterruptedBatch(t.batches[n - 1], date)];
  }

  lemma {:induction false} InterruptedFirstValid(s: State, date: Date, n: nat)
    requires Valid(s) && n <= |s.batches|
    ensures Valid(InterruptedFirst(s, date, n))
  {
    hide Valid;
    if n == 0 {
      assert InterruptedFirst(s, date, 0).batches == s.batches;
    } else {
      InterruptedFirstValid(s, date, n - 1);
      InterruptedStep(InterruptedFirst(s, date, n - 1), n - 1, date);
      InterruptedUnfold(s, date, n);
    }
  }

  predicate NoSubmission(s: State) {
    forall i :: 0 <= i < |s.batches| ==> !s.batches[i].HasStatus(Submitting)
  }

  /** Recovery keeps the invariant and leaves nothing in flight. */
  lemma RecoverInterruptedKeeps(s: State, date: Date)
    requires Valid(s)
    ensures Valid(RecoverInterrupted(s, date)) && Evolves(s, RecoverInterrupted(s, date), PLAIN)
    ensures NoSubmission(RecoverInterrupted(s, date))
  {
    InterruptedFirstValid(s, date, |s.batches|);
    assert RecoverInterrupted(s, date).batches == InterruptedFirst(s, date, |s.batches|).batches;
    forall i | 0 <= i < |s.batches|
      ensures BatchEvolves(s.batches[i], RecoverInterrupted(s, date).batches[i], PLAIN)
    {
      InterruptedEvolves(s.batches[i], date);
    }
  }

  // ----- Retiring

  lemma {:induction false} BatchReceiptsMember(why: Retirement, b: Batch, height: U64, date: Date, n: nat, m: nat)
    returns (k: nat)
    requires n <= |b.items| && m < |BatchReceipts(why, b, height, date, n)|
    ensures k < n && Retires(why, b.items[k], height)
    ensures BatchReceipts(why, b, height, date, n)[m] == RetirementReceipt(why, b, b.items[k], height, date)
  {
    if m < |BatchReceipts(why, b, height, date, n - 1)| {
      k := BatchReceiptsMember(why, b, height, date, n - 1, m);
    } else {
      k := n - 1;
    }
  }

  lemma {:induction false} BatchReceiptsComplete(why: Retirement, b: Batch, height: U64, date: Date, n: nat, k: nat)
    requires k < n <= |b.items| && Retires(why, b.items[k], height)
    ensures RetirementReceipt(why, b, b.items[k], height, date) in BatchReceipts(why, b, height, date, n)
  {
    if k < n - 1 {
      BatchReceiptsComplete(why, b, height, date, n - 1, k);
    }
  }

  lemma {:induction false} BatchReceiptsDistinct(why: Retirement, b: Batch, height: U64, date: Date, n: nat)
    requires n <= |b.items| && DistinctItems(b.items)
    ensures DistinctReceipts(BatchReceipts(why, b, height, date, n))
  {
    if n > 0 {
      BatchReceiptsDistinct(why, b, height, date, n - 1);
      var before := BatchReceipts(why, b, height, date, n - 1);
      forall m | 0 <= m < |before|
        ensures before[m].itemId != b.items[n - 1].itemId
      {
        var k := BatchReceiptsMember(why, b, height, date, n - 1, m);
      }
    }
  }

  lemma RetiredItemAccounts(why: Retirement, a: Batch, height: U64, endpoint: string, date: Date, k: nat)
    requires BatchOk(a) && a.url == endpoint && k < |a.items|
    ensures var b := RetiredBatch(why, a, height, endpoint);
            var added := BatchReceipts(why, a, height, date, |a.items|);
            && |b.items| == |a.items|
            && b.items[k] == RetiredItem(why, a.items[k], height)
            && (Retires(why, a.items[k], height) ==> Receipted(b, b.items[k], added))
  {
    if Retires(why, a.items[k], height) {
      var b := RetiredBatch(why, a, height, endpoint);
      var added := BatchReceipts(why, a, height, date, |a.items|);
      BatchReceiptsComplete(why, a, height, date, |a.items|, k);
      var m :| 0 <= m < |added| && added[m] == RetirementReceipt(why, a, a.items[k], height, date);
      assert Describes(added[m], b, b.items[k]);
    }
  }

  lemma RetiredReceiptFinishes(why: Retirement, a: Batch, height: U64, endpoint: string, date: Date, m: nat)
    requires BatchOk(a) && a.url == endpoint && m < |BatchReceipts(why, a, height, date, |a.items|)|
    ensures |RetiredBatch(why, a, height, endpoint).items| == |a.items|
    ensures Finishes(a, RetiredBatch(why, a, height, endpoint), BatchReceipts(why, a, height, date, |a.items|)[m])
  {
    var k := BatchReceiptsMember(why, a, height, date, |a.items|, m);
    var b := RetiredBatch(why, a, height, endpoint);
    RetiredItemAccounts(why, a, height, endpoint, date, k);
    assert Describes(BatchReceipts(why, a, height, date, |a.items|)[m], b, b.items[k]);
  }

  lemma RetiredEvolves(why: Retirement, a: Batch, height: U64, endpoint: string)
    requires BatchOk(a)
    ensures BatchEvolves(a, RetiredBatch(why, a, height, endpoint), PLAIN)
  {
    var b := RetiredBatch(why, a, height, endpoint);
    forall k | 0 <= k < |a.items|
      ensures |b.items| == |a.items| && ItemEvolves(a.items[k], b.items[k], PLAIN)
    {
      ItemReflexive(a.items[k], PLAIN);
      assert b.items[k] == a.items[k] || b.items[k] == RetiredItem(why, a.items[k], height);
    }
  }

  lemma RetiredAccounts(why: Retirement, a: Batch, height: U64, endpoint: string, date: Date)
    requires BatchOk(a) && a.url == endpoint
    ensures |RetiredBatch(why, a, height, endpoint).items| == |a.items|
    ensures Accounts(a, RetiredBatch(why, a, height, endpoint), BatchReceipts(why, a, height, date, |a.items|))
  {
    var b := RetiredBatch(why, a, height, endpoint);
    var added := BatchReceipts(why, a, height, date, |a.items|);
    forall k | 0 <= k < |a.items|
      ensures |b.items| == |a.items|
      ensures Terminal(b.items[k].status) && !Terminal(a.items[k].status) ==> Receipted(b, b.items[k], added)
    {
      RetiredItemAccounts(why, a, height, endpoint, date, k);
    }
    forall m | 0 <= m < |added|
      ensures Finishes(a, b, added[m])
    {
      RetiredReceiptFinishes(why, a, height, endpoint, date, m);
    }
    BatchReceiptsDistinct(why, a, height, date, |a.items|);
  }

  function StepReceipts(why: Retirement, b: Batch, height: U64, endpoint: string, date: Date): seq<Receipt> {
    if b.url != endpoint then [] else BatchReceipts(why, b, height, date, |b.items|)
  }

  lemma RetireStep(s: State, why: Retirement, height: U64, endpoint: string, date: Date, i: nat)
    requires Valid(s) && i < |s.batches|
    ensures var s' := AfterBatchStep(s, i, RetiredBatch(why, s.batches[i], height, endpoint),
                                     StepReceipts(why, s.batches[i], height, endpoint, date));
            Valid(s')
  {
    var a := s.batches[i];
    var b := RetiredBatch(why, a, height, endpoint);
    RetiredEvolves(why, a, height, endpoint);
    if a.url == endpoint {
      RetiredAccounts(why, a, height, endpoint, date);
    } else {
      NoReceipts(a, b, PLAIN);
    }
    BatchStepKeepsValid(s, i, b, StepReceipts(why, a, height, endpoint, date), PLAIN);
  }

  lemma RetireUnfold(s: State, why: Retirement, height: U64, endpoint: string, date: Date, n: nat)
    requires 0 < n <= |s.batches|
    ensures var t := RetireFirst(s, why, height, endpoint, date, n - 1);
            RetireFirst(s, why, height, endpoint, date, n)
            == AfterBatchStep(t, n - 1, RetiredBatch(why, t.batches[n - 1], height, endpoint),
                              StepReceipts(why, t.batches[n - 1], height, endpoint, date))
  {
    var t := RetireFirst(s, why, height, endpoint, date, n - 1);
    var u := RetireFirst(s, why, height, endpoint, date, n);
    assert u.batches == t.batches[n - 1 := RetiredBatch(why, t.batches[n - 1], height, endpoint)];
    assert u.receipts == t.receipts + StepReceipts(why, t.batches[n - 1], height, endpoint, date);
  }

  lemma {:induction false} RetireFirstValid(s: State, why: Retirement, height: U64, endpoint: string, date: Date,
                                            n: nat)
    requires Valid(s) && n <= |s.batches|
    ensures Valid(RetireFirst(s, why, height, endpoint, date, n))
  {
    hide Valid;
    if n == 0 {
      var u := RetireFirst(s, why, height, endpoint, date, n);
      assert u.batches == s.batches && u.receipts == s.receipts;
    } else {
      RetireFirstValid(s, why, height, endpoint, date, n - 1);
      RetireStep(RetireFirst(s, why, height, endpoint, date, n - 1), why, height, endpoint, date, n - 1);
      RetireUnfold(s, why, height, endpoint, date, n);
    }
  }

  lemma RetireKeeps(s: State, why: Retirement, height: U64, endpoint: string, date: Date)
    requires Valid(s)
    ensures var s' := Retire(s, why, height, endpoint, date); Valid(s') && Evolves(s, s', PLAIN)
  {
    RetireFirstValid(s, why, height, endpoint, date, |s.batches|);
    forall i | 0 <= i < |s.batches|
      ensures BatchEvolves(s.batches[i], Retire(s, why, height, endpoint, date).batches[i], PLAIN)
    {
      RetiredEvolves(why, s.batches[i], height, endpoint);
    }
  }

  // ----- Submission and its outcome

  /** One item changes, without becoming terminal. */
  lemma ItemStep(s: State, at: Location, item: Item, licence: Licence)
    requires Valid(s) && At(s.batches, at)
    requires ItemEvolves(ItemAt(s.batches, at), item, licence) && !Terminal(item.status)
    ensures Valid(WithItem(s, at, item)) && Evolves(s, WithItem(s, at, item), licence)
  {
    var a := s.batches[at.batch];
    var b := a.(items := a.items[at.item := item]);
    forall k | 0 <= k < |a.items|
      ensures ItemEvolves(a.items[k], b.items[k], licence)
    {
      ItemReflexive(a.items[k], licence);
    }
    NoReceipts(a, b, licence);
    BatchStepKeepsValid(s, at.batch, b, [], licence);
    assert s.receipts + [] == s.receipts;
  }

  lemma BeginSubmissionKeeps(s: State, itemId: string, attemptId: string, date: Date)
    requires Valid(s) && BeginSubmission(s, itemId, attemptId, date).Ok?
    ensures var s' := BeginSubmission(s, itemId, attemptId, date).value;
            Valid(s') && Evolves(s, s', Licence({itemId}, {}, {}))
  {
    var at := Transition(s, itemId, Armed).value;
    ItemStep(s, at, ItemAt(s.batches, at).(status := Submitting, attemptId := Some(attemptId),
                                           attemptStartedAt := Some(date)),
             Licence({itemId}, {}, {}));
  }

  lemma RecordUncertainKeeps(s: State, itemId: string, error: string, date: Date)
    requires Valid(s) && RecordUncertain(s, itemId, error, date).Ok?
    ensures var s' := RecordUncertain(s, itemId, error, date).value; Valid(s') && Evolves(s, s', PLAIN)
  {
    var at := Transition(s, itemId, Submitting).value;
    ItemStep(s, at, Uncertain(ItemAt(s.batches, at), error, date), PLAIN);
  }

  /** Only a cancellation observed before the transport call may forget that a submission was begun. */
  lemma RecordCancelledKeeps(s: State, itemId: string, error: string)
    requires Valid(s) && RecordCancelled(s, itemId, error).Ok?
    ensures var s' := RecordCancelled(s, itemId, error).value; Valid(s') && Evolves(s, s', Licence({}, {itemId}, {}))
  {
    var at := Transition(s, itemId, Submitting).value;
    ItemStep(s, at, CancelledItem(ItemAt(s.batches, at), error), Licence({}, {itemId}, {}));
  }

  /** One submission ends with a receipt; its peers follow the life cycle without becoming terminal. */
  lemma FinishStep(s: State, at: Location, b: Batch, receipt: Receipt)
    requires Valid(s) && At(s.batches, at)
    requires BatchEvolves(s.batches[at.batch], b, PLAIN)
    requires !Terminal(ItemAt(s.batches, at).status) && Describes(receipt, b, b.items[at.item])
    requires forall k :: 0 <= k < |b.items| && k != at.item && Terminal(b.items[k].status) ==>
               Terminal(s.batches[at.batch].items[k].status)
    requires b.sentPendingAt == s.batches[at.batch].sentPendingAt
    ensures var s' := AfterBatchStep(s, at.batch, b, [receipt]); Valid(s') && Evolves(s, s', PLAIN)
  {
    var a := s.batches[at.batch];
    assert Accounts(a, b, [receipt]) by {
      assert Finishes(a, b, receipt);
      assert [receipt][0] == receipt;
    }
    BatchStepKeepsValid(s, at.batch, b, [receipt], PLAIN);
  }

  lemma RecordRejectedKeeps(s: State, itemId: string, height: U64, code: int, message: string, date: Date)
    requires Valid(s) && RecordRejected(s, itemId, height, code, message, date).Ok?
    ensures var s' := RecordRejected(s, itemId, height, code, message, date).value; Valid(s') && Evolves(s, s', PLAIN)
  {
    var at := Transition(s, itemId, Submitting).value;
    var a := s.batches[at.batch];
    var s' := RecordRejected(s, itemId, height, code, message, date).value;
    var b := s'.batches[at.batch];
    forall k | 0 <= k < |a.items|
      ensures ItemEvolves(a.items[k], b.items[k], PLAIN)
    {
      ItemReflexive(a.items[k], PLAIN);
    }
    FinishStep(s, at, b, s'.receipts[|s.receipts|]);
  }

  lemma RescheduledEvolves(before: Item, after: Item, excluded: string, height: U64)
    requires ItemOk(before) && RescheduledItem(before, after, excluded, height)
    ensures ItemEvolves(before, after, PLAIN) && after.status == before.status
  {
  }

  lemma AcceptedBatchEvolves(s: State, at: Location, rescheduled: Rescheduled, itemId: string, equivalent: bool,
                             height: U64, code: int, message: string, date: Date)
    requires Valid(s) && At(s.batches, at)
    requires ItemAt(s.batches, at).itemId == itemId && ItemAt(s.batches, at).status == Submitting
    requires |rescheduled.items| == |s.batches[at.batch].items|
    requires forall k :: 0 <= k < |rescheduled.items| ==>
               RescheduledItem(s.batches[at.batch].items[k], rescheduled.items[k], itemId, height)
    ensures var s' := AcceptedState(s, at, rescheduled, equivalent, height, code, message, date);
            Valid(s') && Evolves(s, s', PLAIN)
  {
    var a := s.batches[at.batch];
    var s' := AcceptedState(s, at, rescheduled, equivalent, height, code, message, date);
    var b := s'.batches[at.batch];
    forall k | 0 <= k < |a.items|
      ensures ItemEvolves(a.items[k], b.items[k], PLAIN)
      ensures k != at.item ==> b.items[k].status == a.items[k].status
    {
      if k != at.item {
        RescheduledEvolves(a.items[k], b.items[k], itemId, height);
      }
    }
    FinishStep(s, at, b, s'.receipts[|s.receipts|]);
  }

  lemma RecordAcceptedKeeps(s: State, itemId: string, equivalent: bool, height: U64, code: int, message: string,
                            date: Date, random: Randomness)
    requires Valid(s) && RandomnessFits(s, itemId, height, random)
    requires RecordAccepted(s, itemId, equivalent, height, code, message, date, random).Ok?
    ensures var s' := RecordAccepted(s, itemId, equivalent, height, code, message, date, random).value;
            Valid(s') && Evolves(s, s', PLAIN)
  {
    var at := Transition(s, itemId, Submitting).value;
    var a := s.batches[at.batch];
    var rescheduled := Reschedule(a.items, itemId, height, a.timingMax, random).value;
    forall k | 0 <= k < |a.items|
      ensures |rescheduled.items| == |a.items|
      ensures RescheduledItem(a.items[k], rescheduled.items[k], itemId, height)
    {
      RescheduleItems(a.items, itemId, height, a.timingMax, random, k);
    }
    AcceptedBatchEvolves(s, at, rescheduled, itemId, equivalent, height, code, message, date);
  }
}
