/** The promises of the outbox, stated over every reachable world and every run. */
module OutboxTheorems {
  import opened Common
  import opened OutboxTypes
  import opened OutboxOps
  import opened OutboxInvariant
  import opened OutboxRecords
  import opened OutboxRunner
  import opened OutboxSubmission
  import opened ExecutionGate
  import opened OutboxWorld
  import opened OutboxRuns
  import opened OutboxSafety

  // ----- Receipts and the transactions behind them

  /** The raw bytes `listReceipts` finds for a receipt. */
  function RawTransaction(s: State, r: Receipt): Option<Bytes> {
    match FindBatch(s.batches, r.batchId)
    case None => None
    case Some(i) =>
      match FindItem(s.batches[i].items, r.itemId)
      case None => None
      case Some(k) => Some(s.batches[i].items[k].raw)
  }

  lemma ReceiptItem(s: State, m: nat) returns (at: Location)
    requires Valid(s) && m < |s.receipts|
    ensures DescribesAt(s.receipts[m], s.batches, at)
    ensures RawTransaction(s, s.receipts[m]) == Some(ItemAt(s.batches, at).raw)
    ensures forall b :: DescribesAt(s.receipts[m], s.batches, b) ==> b == at
  {
    var r := s.receipts[m];
    assert HasItem(r, s.batches);
    at :| DescribesAt(r, s.batches, at);
    var i := FindBatch(s.batches, r.batchId).value;
    assert i == at.batch;
    var k := FindItem(s.batches[i].items, r.itemId).value;
    assert ItemAt(s.batches, Location(i, k)).itemId == ItemAt(s.batches, at).itemId;
  }

  /**
   * In every reachable world each receipt has exactly one item, in its own batch
   * and with the matching status, and `listReceipts` finds that item's bytes.
   */
  lemma ReceiptsFindTheirTransactions(w: World, m: nat) returns (at: Location)
    requires Reachable(w) && m < |w.store.receipts|
    ensures DescribesAt(w.store.receipts[m], w.store.batches, at)
    ensures forall b :: DescribesAt(w.store.receipts[m], w.store.batches, b) ==> b == at
    ensures var item := ItemAt(w.store.batches, at);
            && RawTransaction(w.store, w.store.receipts[m]) == Some(item.raw)
            && item.raw != [] && item.digest == Sha256(item.raw)
  {
    ReachableOk(w);
    at := ReceiptItem(w.store, m);
    assert ItemOk(w.store.batches[at.batch].items[at.item]);
  }

  /** In every reachable world each terminal item has exactly one receipt. */
  lemma TerminalItemsHaveOneReceipt(w: World, at: Location) returns (m: nat)
    requires Reachable(w) && At(w.store.batches, at) && Terminal(ItemAt(w.store.batches, at).status)
    ensures m < |w.store.receipts| && DescribesAt(w.store.receipts[m], w.store.batches, at)
    ensures forall n :: 0 <= n < |w.store.receipts| && w.store.receipts[n].itemId == ItemAt(w.store.batches, at).itemId
              ==> n == m
  {
    ReachableOk(w);
    var s := w.store;
    assert Receipted(s.batches[at.batch], s.batches[at.batch].items[at.item], s.receipts);
    m :| 0 <= m < |s.receipts| && Describes(s.receipts[m], s.batches[at.batch], s.batches[at.batch].items[at.item]);
    forall n | 0 <= n < |s.receipts| && s.receipts[n].itemId == ItemAt(s.batches, at).itemId
      ensures n == m
    {
      SameItemSameReceipt(s, m, n);
    }
  }

  // ----- Draining

  /** Events that end the hold of a lease: its own release, its retirement, or the end of the process. */
  predicate Releases(e: Event, lease: string) {
    || e == ResumeGate(lease)
    || (e.DiscardStops? && StopPrefix(e.network, e.accountUuid) <= lease)
    || e.ProcessDies?
  }

  /**
   * A returned drain: no run is active, none is admitted, and every send of this
   * process has had its outcome update attempted.
   */
  lemma DrainIsQuiet(w: World, lease: string)
    requires Reachable(w) && lease in w.drained
    ensures w.phase.Idle? && !w.gate.running && !Admits(w.gate) && Step(w, BeginRun).None?
    ensures w.sends == w.outcomes
  {
    ReachableOk(w);
    assert lease in w.gate.leases;
  }

  /** ... and it stays so, whatever happens, until that very lease is released. */
  lemma {:induction false} DrainHolds(w: World, events: seq<Event>, lease: string)
    requires WorldOk(w) && lease in w.drained && Run(w, events).Some?
    requires forall i :: 0 <= i < |events| ==> !Releases(events[i], lease)
    ensures var w' := Run(w, events).value;
            lease in w'.drained && w'.phase.Idle? && w'.sends == w.sends && w'.outcomes == w.outcomes
    ensures forall i :: 0 <= i < |events| ==> !events[i].BeginRun? && !events[i].Send?
    decreases |events|
  {
    hide Valid, Apply;
    if events != [] {
      var w' := Step(w, events[0]).value;
      assert lease in w.gate.leases;
      StepKeeps(w, events[0]);
      DrainHolds(w', events[1..], lease);
      assert forall i :: 1 <= i < |events| ==> events[i] == events[1..][i - 1];
    }
  }

  // ----- The life of an item over a whole run

  lemma StepStored(w: World, e: Event) returns (licence: Licence)
    requires WorldOk(w) && Step(w, e).Some?
    ensures Stepped(w.store, Step(w, e).value.store, licence)
    ensures licence.resets <= EventResets(w, e)
    ensures !e.Select? ==> licence.begins == {}
  {
    hide Valid, Lifecycle, Stepped, FirstUpdate, SelectUpdate, OutcomeUpdate, Apply, RecordCancelled;
    licence := PLAIN;
    match e
    case Inspect(now) =>
      FirstUpdateStep(w.store, now);
    case Select(verifyProofs, attemptId, now) =>
      var r := SelectUpdate(w.store, w.phase.endpoint, w.phase.height, verifyProofs, attemptId, now);
      if r.Ok? {
        SelectStep(w.store, w.phase.endpoint, w.phase.height, verifyProofs, attemptId, now);
        licence := SelectLicence(r);
      } else {
        SameStep(w.store, PLAIN);
      }
    case CancelBeforeSend(stored, message) =>
      licence := Licence({}, {w.phase.selection.item.itemId}, {});
      if stored {
        CancelStep(w.store, w.phase.selection.item.itemId, message);
      } else {
        SameStep(w.store, licence);
      }
    case RecordOutcome(stored, message, now, random) =>
      if stored {
        OutcomeStep(w.store, w.phase.selection, w.phase.height, w.phase.response, message, now, random);
      } else {
        SameStep(w.store, PLAIN);
      }
    case ChannelCall(call) =>
      if call.StageBatch? && Stage(w.store, call.batch).Err? {
        StageFails(w.store, call.batch);
        SameStep(w.store, PLAIN);
      } else {
        CallStep(w.store, call);
        licence := CallLicence(w.store, call);
      }
    case _ =>
      SameStep(w.store, PLAIN);
  }

  lemma StageFails(s: State, batch: Batch)
    requires Stage(s, batch).Err?
    ensures Apply(s, StageBatch(batch)) == s
  {
  }

  /** The batches whose proof-ready notices an event starts over: a restaged batch with another proof height. */
  function EventResets(w: World, e: Event): set<string> {
    if e.ChannelCall? && e.call.StageBatch? && Stage(w.store, e.call.batch).Ok? then StageResets(w.store,
              e.call.batch) else {}
  }

  /** Reachability along the edges of the life cycle. */
  predicate Moves(from: Status, to: Status) {
    from == to || from == Staged || ((from == Armed || from == Submitting) && to != Staged)
  }

  /** The item of this id is stored before every one of these events and after the last. */
  ghost predicate StoredThroughout(w: World, events: seq<Event>, itemId: string)
    decreases |events|
  {
    && Stored(w.store, itemId)
    && (events != [] && Step(w, events[0]).Some? ==> StoredThroughout(Step(w, events[0]).value, events[1..], itemId))
  }

  /** One event moves a stored item along one edge at most and never touches what was signed. */
  lemma ItemFollowsEdges(w: World, e: Event, itemId: string)
    requires WorldOk(w) && Step(w, e).Some?
    requires Stored(w.store, itemId) && Stored(Step(w, e).value.store, itemId)
    ensures var a, b := ItemBy(w.store, itemId).value, ItemBy(Step(w, e).value.store, itemId).value;
            && SamePayload(a, b) && Edge(a.status, b.status) && a.attemptCount <= b.attemptCount
            && b.scheduledHeight < b.expiryHeight
  {
    hide Valid, Step;
    var licence := StepStored(w, e);
    assert ItemStepped(w.store, Step(w, e).value.store, licence, itemId);
  }

  /** Over a whole run, a stored item keeps its payload and its expiry, and its status only moves forward. */
  lemma {:induction false} ItemLifecycle(w: World, events: seq<Event>, itemId: string)
    requires WorldOk(w) && Run(w, events).Some? && StoredThroughout(w, events, itemId)
    ensures Stored(Run(w, events).value.store, itemId)
    ensures var a, b := ItemBy(w.store, itemId).value, ItemBy(Run(w, events).value.store, itemId).value;
            && SamePayload(a, b) && Moves(a.status, b.status) && a.attemptCount <= b.attemptCount
            && b.scheduledHeight < b.expiryHeight
    decreases |events|
  {
    hide WorldOk, Step;
    if events == [] {
      StoredItemOk(w, itemId);
    } else {
      StepKeeps(w, events[0]);
      ItemFollowsEdges(w, events[0], itemId);
      ItemLifecycle(Step(w, events[0]).value, events[1..], itemId);
    }
  }

  lemma StoredItemOk(w: World, itemId: string)
    requires WorldOk(w) && Stored(w.store, itemId)
    ensures ItemOk(ItemBy(w.store, itemId).value)
  {
    var at := Locate(w.store.batches, itemId).value;
    assert BatchOk(w.store.batches[at.batch]);
  }

  // ----- Submissions

  /**
   * Whenever a run commits a selection, the submission is legal and it is the
   * only one in flight in the whole snapshot.
   */
  lemma EverySubmissionIsLegal(w: World, verifyProofs: bool, attemptId: string, now: Date)
    requires Reachable(w) && w.phase.AtTip?
    requires Step(w, Select(verifyProofs, attemptId, now)).value.phase.Chose?
    ensures var w' := Step(w, Select(verifyProofs, attemptId, now)).value;
            && LegalSubmission(w'.store, w'.phase.selection, w.phase.endpoint, w.phase.height, now)
            && (forall a, b :: At(w'.store.batches, a) && At(w'.store.batches, b)
                  && ItemAt(w'.store.batches, a).status == Submitting
                      && ItemAt(w'.store.batches, b).status == Submitting
                  ==> a == b)
  {
    hide Valid, SelectUpdate, LegalSubmission;
    ReachableOk(w);
    var w' := Step(w, Select(verifyProofs, attemptId, now)).value;
    SelectedSubmissionIsLegal(w.store, w.phase.endpoint, w.phase.height, verifyProofs, attemptId, now);
    forall a, b | At(w'.store.batches, a) && At(w'.store.batches, b)
        && ItemAt(w'.store.batches, a).status == Submitting && ItemAt(w'.store.batches, b).status == Submitting
      ensures a == b
    {
      SelectedSubmissionIsAlone(w.store, w.phase.endpoint, w.phase.height, verifyProofs, attemptId, now, a, b);
    }
  }

  lemma SelectedWorld(w: World, verifyProofs: bool, attemptId: string, now: Date)
    requires w.phase.AtTip? && Step(w, Select(verifyProofs, attemptId, now)).value.phase.Chose?
    ensures var r := SelectUpdate(w.store, w.phase.endpoint, w.phase.height, verifyProofs, attemptId, now);
            var w' := Step(w, Select(verifyProofs, attemptId, now)).value;
            && r.Ok? && r.value.selection == Some(w'.phase.selection) && w'.store == r.value.state
            && w'.phase.height == w.phase.height
  {
    hide SelectUpdate;
  }

  /**
   * With nothing in between, the acceptance of a selected submission is always
   * recorded, whatever the randomness: the outcome update commits.
   */
  lemma AcceptedSubmissionIsRecorded(w: World, verifyProofs: bool, attemptId: string, now: Date, response: SendResponse,
                                     later: Date, random: Randomness)
    requires Reachable(w) && w.phase.AtTip? && CanonicalExpiry(w.phase.height).Some?
    requires Step(w, Select(verifyProofs, attemptId, now)).value.phase.Chose?
    requires AcceptsResponse(response)
    requires var chosen := Step(w, Select(verifyProofs, attemptId, now)).value;
             RandomnessFits(chosen.store, chosen.phase.selection.item.itemId, w.phase.height, random)
    ensures var chosen := Step(w, Select(verifyProofs, attemptId, now)).value;
            OutcomeUpdate(chosen.store, chosen.phase.selection, w.phase.height, Some(response), "", later, random).Ok?
  {
    hide Valid, SelectUpdate, RecordAccepted, Step, Told, ChoiceOk;
    ReachableOk(w);
    SelectedWorld(w, verifyProofs, attemptId, now);
    PreflightIsSound(w.store, w.phase.endpoint, w.phase.height, verifyProofs, attemptId, now,
                     response.errorCode != 0, response.errorCode, response.errorMessage, later, random);
  }
}
