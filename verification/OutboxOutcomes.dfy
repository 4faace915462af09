/**
 * What becomes of a sent transaction, from the reply alone: which replies count
 * as accepted, and what the outcome update records of each.
 */
module OutboxOutcomes {
  import opened Common
  import opened OutboxTypes
  import opened OutboxRescheduling
  import opened OutboxPeers
  import opened OutboxOps
  import opened OutboxInvariant
  import opened OutboxRunner
  import opened OutboxSubmission
  import opened OutboxWorld
  import opened OutboxRuns
  import opened OutboxSafety
  import opened OutboxTheorems

  // ----- Which replies are accepted

  /** The text stands at this position of the message, whatever the case of the message's letters. */
  predicate StandsAt(message: string, text: string, i: nat) {
    i + |text| <= |message| && forall k :: 0 <= k < |text| ==> LowerChar(message[i + k]) == text[k]
  }

  /** The message says somewhere that the network has the transaction already. */
  predicate SaysKnown(message: string) {
    exists j, i :: 0 <= j < |EQUIVALENT_MESSAGES| && 0 <= i <= |message|
                   && StandsAt(message, EQUIVALENT_MESSAGES[j], i)
  }

  /** What the reply means, by its code and its message. */
  function Verdict(reply: SendResponse): Outcome {
    if reply.errorCode == 0 then Accepted
    else if SaysKnown(reply.errorMessage) then AcceptedEquivalent
    else Rejected
  }

  predicate OccursAt(text: string, part: string, i: nat) {
    i + |part| <= |text| && text[i..i + |part|] == part
  }

  lemma {:induction false} OccursContains(text: string, part: string, i: nat)
    requires OccursAt(text, part, i)
    ensures Contains(text, part)
  {
    if i == 0 {
      assert part <= text;
    } else {
      assert text[1..][i - 1..i - 1 + |part|] == text[i..i + |part|];
      OccursContains(text[1..], part, i - 1);
    }
  }

  lemma {:induction false} ContainsOccurs(text: string, part: string) returns (i: nat)
    requires Contains(text, part)
    ensures OccursAt(text, part, i)
  {
    if part <= text {
      i := 0;
    } else {
      var k := ContainsOccurs(text[1..], part);
      i := k + 1;
      assert text[1..][k..k + |part|] == text[i..i + |part|];
    }
  }

  lemma StandsInLower(message: string, text: string, i: nat)
    ensures StandsAt(message, text, i) <==> OccursAt(Lower(message), text, i)
  {
    if i + |text| <= |message| {
      var part := Lower(message)[i..i + |text|];
      assert forall k :: 0 <= k < |text| ==> part[k] == LowerChar(message[i + k]);
    }
  }

  lemma TextFound(message: string, text: string)
    ensures Contains(Lower(message), text) <==> exists i :: 0 <= i <= |message| && StandsAt(message, text, i)
  {
    if Contains(Lower(message), text) {
      var i := ContainsOccurs(Lower(message), text);
      StandsInLower(message, text, i);
    }
    if i :| 0 <= i <= |message| && StandsAt(message, text, i) {
      StandsInLower(message, text, i);
      OccursContains(Lower(message), text, i);
    }
  }

  /** A reply is taken as accepted exactly if its code is 0 or its message has one of the nine texts in any case. */
  lemma AcceptsExactly(reply: SendResponse)
    ensures AcceptsResponse(reply) <==> reply.errorCode == 0 || SaysKnown(reply.errorMessage)
    ensures AcceptsResponse(reply) <==> Verdict(reply) != Rejected
  {
    hide Contains, StandsAt;
    forall j | 0 <= j < |EQUIVALENT_MESSAGES|
      ensures Contains(Lower(reply.errorMessage), EQUIVALENT_MESSAGES[j])
              <==> exists i :: 0 <= i <= |reply.errorMessage| && StandsAt(reply.errorMessage, EQUIVALENT_MESSAGES[j], i)
    {
      TextFound(reply.errorMessage, EQUIVALENT_MESSAGES[j]);
    }
  }

  // ----- The submission in flight is the selected one

  /** While a selection is in flight, an item of its id that is still in submission is the selected one. */
  ghost predicate InFlight(w: World) {
    w.phase.Chose? || w.phase.Sent? ==>
      var id := w.phase.selection.item.itemId;
      Stored(w.store, id) && ItemBy(w.store, id).value.status == Submitting ==>
        && w.store.batches[Locate(w.store.batches, id).value.batch].batchId == w.phase.selection.batchId
        && SamePayload(w.phase.selection.item, ItemBy(w.store, id).value)
  }

  lemma SelectedInFlight(w: World, verifyProofs: bool, attemptId: string, now: Date)
    requires WorldOk(w) && w.phase.AtTip?
    ensures InFlight(Step(w, Select(verifyProofs, attemptId, now)).value)
  {
    hide Valid, SelectUpdate, Prepare, Told, ChoiceOk;
    var r := SelectUpdate(w.store, w.phase.endpoint, w.phase.height, verifyProofs, attemptId, now);
    if r.Ok? && r.value.selection.Some? {
      var t, at := SelectUpdateParts(w.store, w.phase.endpoint, w.phase.height, verifyProofs, attemptId, now);
      SelectUpdateKeeps(w.store, w.phase.endpoint, w.phase.height, verifyProofs, attemptId, now);
      BegunPlace(t, r.value.selection.value.item.itemId, attemptId, now, at, r.value.state);
    }
  }

  lemma BegunPlace(t: State, id: string, attemptId: string, now: Date, at: Location, s': State)
    requires At(t.batches, at) && Locate(t.batches, id) == Some(at) && Valid(s')
    requires BeginSubmission(t, id, attemptId, now) == Ok(s')
    ensures Locate(s'.batches, id) == Some(at) && s'.batches[at.batch].batchId == t.batches[at.batch].batchId
    ensures SamePayload(ItemAt(t.batches, at), ItemAt(s'.batches, at))
  {
    LocateUnique(s'.batches, id, at);
  }

  lemma InFlightKept(w: World, e: Event)
    requires WorldOk(w) && InFlight(w) && Step(w, e).Some?
    ensures InFlight(Step(w, e).value)
  {
    if e.Select? {
      SelectedInFlight(w, e.verifyProofs, e.attemptId, e.now);
    } else {
      var w' := Step(w, e).value;
      SelectionStays(w, e);
      hide Step, Valid, WorldOk;
      if w'.phase.Chose? || w'.phase.Sent? {
        var licence := StepStored(w, e);
        StillInFlight(w.store, w'.store, licence, w'.phase.selection);
      }
    }
  }

  lemma SelectionStays(w: World, e: Event)
    requires Step(w, e).Some? && !e.Select?
    ensures var w' := Step(w, e).value;
            w'.phase.Chose? || w'.phase.Sent? ==>
              (w.phase.Chose? || w.phase.Sent?) && w'.phase.selection == w.phase.selection
  {
  }

  ghost predicate Holds(s: State, selection: Selection) {
    Stored(s, selection.item.itemId) && ItemBy(s, selection.item.itemId).value.status == Submitting ==>
      && s.batches[Locate(s.batches, selection.item.itemId).value.batch].batchId == selection.batchId
      && SamePayload(selection.item, ItemBy(s, selection.item.itemId).value)
  }

  lemma StillInFlight(s: State, s': State, licence: Licence, selection: Selection)
    requires Holds(s, selection) && Stepped(s, s', licence) && licence.begins == {}
    ensures Holds(s', selection)
  {
    hide Valid;
    var id := selection.item.itemId;
    assert ItemStepped(s, s', licence, id);
    if Stored(s, id) && Stored(s', id) {
      var a, b := Locate(s.batches, id).value, Locate(s'.batches, id).value;
      assert ItemAt(s.batches, a).itemId == ItemAt(s'.batches, b).itemId;
    }
  }

  lemma {:induction false} RunInFlight(w: World, events: seq<Event>)
    requires WorldOk(w) && InFlight(w) && Run(w, events).Some?
    ensures InFlight(Run(w, events).value)
    decreases |events|
  {
    if events != [] {
      hide WorldOk, InFlight, Step;
      StepKeeps(w, events[0]);
      InFlightKept(w, events[0]);
      RunInFlight(Step(w, events[0]).value, events[1..]);
    }
  }

  lemma ReachableInFlight(w: World)
    requires Reachable(w)
    ensures InFlight(w)
  {
    var events :| Run(INITIAL_WORLD, events) == Some(w);
    InitialOk();
    RunInFlight(INITIAL_WORLD, events);
  }

  // ----- What is recorded

  /** One receipt was filed, about this item of this batch, with this outcome and the reply as it came. */
  ghost predicate Files(s: State, s': State, b: Batch, item: Item, outcome: Outcome, height: U64, reply: SendResponse,
                        now: Date)
  {
    && |s'.receipts| == |s.receipts| + 1 && s'.receipts[..|s.receipts|] == s.receipts
    && var q := s'.receipts[|s.receipts|];
       && q.batchId == b.batchId && q.itemId == item.itemId && q.txid == item.txid
       && q.network == b.network && q.accountUuid == b.accountUuid && q.runId == b.runId
       && q.outcome == outcome && q.remoteHeight == height && q.recordedAt == now
       && q.responseCode == Some(reply.errorCode) && q.responseMessage == Some(reply.errorMessage)
  }

  /** The item's own record after the update, by the reply. */
  ghost predicate ItemRecorded(a: Item, b: Item, response: Option<SendResponse>, message: string, now: Date) {
    && SamePayload(a, b) && a.scheduledHeight == b.scheduledHeight && b.attemptId.None?
    && match response
       case None =>
         && b.status == Armed && b.attemptCount == a.attemptCount + 1 && b.lastError == Some(message)
         && b.nextAttemptAt == Some(now + RetryDelay(b.attemptCount))
       case Some(reply) =>
         && b.attemptCount == a.attemptCount
         && (reply.errorCode == 0 || SaysKnown(reply.errorMessage) ==> b.status == AcceptedAwaiting)
         && (reply.errorCode != 0 && !SaysKnown(reply.errorMessage) ==> b.status == RejectedAwaiting)
  }

  /** The receipts after the update, by the reply. */
  ghost predicate ReceiptRecorded(s: State, s': State, at: Location, response: Option<SendResponse>, height: U64,
                                  now: Date)
    requires At(s.batches, at)
  {
    var b, item := s.batches[at.batch], ItemAt(s.batches, at);
    match response
    case None => s'.receipts == s.receipts
    case Some(reply) =>
      && (reply.errorCode == 0 ==> Files(s, s', b, item, Accepted, height, reply, now))
      && (reply.errorCode != 0 && SaysKnown(reply.errorMessage) ==>
            Files(s, s', b, item, AcceptedEquivalent, height, reply, now))
      && (reply.errorCode != 0 && !SaysKnown(reply.errorMessage) ==>
          Files(s, s', b, item, Rejected, height, reply, now))
  }

  /** What one committed outcome update leaves: the item, its receipt, and every other batch as it was. */
  ghost predicate Recorded(s: State, s': State, at: Location, response: Option<SendResponse>, message: string,
                           height: U64, now: Date)
    requires At(s.batches, at)
  {
    && At(s'.batches, at) && |s'.batches| == |s.batches|
    && (forall i :: 0 <= i < |s.batches| && i != at.batch ==> s'.batches[i] == s.batches[i])
    && ItemRecorded(ItemAt(s.batches, at), ItemAt(s'.batches, at), response, message, now)
    && ReceiptRecorded(s, s', at, response, height, now)
  }

  lemma UncertainRecorded(s: State, id: string, at: Location, message: string, height: U64, now: Date)
    requires RecordUncertain(s, id, message, now).Ok? && Locate(s.batches, id) == Some(at)
    ensures Recorded(s, RecordUncertain(s, id, message, now).value, at, None, message, height, now)
  {
  }

  lemma RejectedRecorded(s: State, id: string, at: Location, height: U64, reply: SendResponse, message: string,
                         now: Date)
    requires RecordRejected(s, id, height, reply.errorCode, reply.errorMessage, now).Ok?
    requires Locate(s.batches, id) == Some(at) && Verdict(reply) == Rejected
    ensures Recorded(s, RecordRejected(s, id, height, reply.errorCode, reply.errorMessage, now).value, at, Some(reply),
                     message, height, now)
  {
    hide SaysKnown;
    var s' := RecordRejected(s, id, height, reply.errorCode, reply.errorMessage, now).value;
    assert s'.receipts[..|s.receipts|] == s.receipts;
  }

  lemma AcceptedRecorded(s: State, selection: Selection, at: Location, height: U64, reply: SendResponse,
                         message: string, now: Date, random: Randomness)
    requires RandomnessFits(s, selection.item.itemId, height, random)
    requires AcceptUpdate(s, selection, reply, height, now, random).Ok?
    requires Locate(s.batches, selection.item.itemId) == Some(at) && Verdict(reply) != Rejected
    requires selection.batchId == s.batches[at.batch].batchId && UniqueBatches(s.batches)
    ensures Recorded(s, AcceptUpdate(s, selection, reply, height, now, random).value, at, Some(reply), message, height,
                     now)
  {
    hide SaysKnown, Shuffles, Reschedule;
    var b := s.batches[at.batch];
    var r := Reschedule(b.items, selection.item.itemId, height, b.timingMax, random).value;
    RescheduleItems(b.items, selection.item.itemId, height, b.timingMax, random, at.item);
    var t := AcceptedState(s, at, r, reply.errorCode != 0, height, reply.errorCode, reply.errorMessage, now);
    AcceptedStateRecorded(s, at, r, height, reply, message, now);
    hide AcceptedState, Recorded, MarkSent;
    MarkedElsewhere(t, selection.batchId, now, at.batch);
    StillRecorded(s, t, MarkSent(t, selection.batchId, now), at, Some(reply), message, height, now);
  }

  lemma AcceptedStateRecorded(s: State, at: Location, r: Rescheduled, height: U64, reply: SendResponse,
                              message: string, now: Date)
    requires At(s.batches, at) && |r.items| == |s.batches[at.batch].items| && Verdict(reply) != Rejected
    requires UniqueBatches(s.batches)
    ensures var t := AcceptedState(s, at, r, reply.errorCode != 0, height, reply.errorCode, reply.errorMessage, now);
            && Recorded(s, t, at, Some(reply), message, height, now)
            && UniqueBatches(t.batches) && t.batches[at.batch].batchId == s.batches[at.batch].batchId
  {
    hide SaysKnown;
    var t := AcceptedState(s, at, r, reply.errorCode != 0, height, reply.errorCode, reply.errorMessage, now);
    assert t.receipts[..|s.receipts|] == s.receipts;
    assert forall i :: 0 <= i < |s.batches| ==> t.batches[i].batchId == s.batches[i].batchId;
  }

  /** A notice marked in the same batch changes nothing of that. */
  lemma StillRecorded(s: State, t: State, s': State, at: Location, response: Option<SendResponse>, message: string,
                      height: U64, now: Date)
    requires At(s.batches, at) && Recorded(s, t, at, response, message, height, now)
    requires |s'.batches| == |t.batches| && s'.receipts == t.receipts
    requires s'.batches[at.batch].items == t.batches[at.batch].items
    requires forall j :: 0 <= j < |t.batches| && j != at.batch ==> s'.batches[j] == t.batches[j]
    ensures Recorded(s, s', at, response, message, height, now)
  {
    hide ItemRecorded, Files, SaysKnown;
    SameFiles(s, s', t, height, now);
  }

  lemma SameFiles(s: State, s': State, t: State, height: U64, now: Date)
    requires s'.receipts == t.receipts
    ensures forall b, item, outcome, reply ::
              Files(s, s', b, item, outcome, height, reply, now) <==> Files(s, t, b, item, outcome, height, reply, now)
  {
  }

  lemma MarkedElsewhere(t: State, batchId: string, now: Date, i: nat)
    requires i < |t.batches| && t.batches[i].batchId == batchId && UniqueBatches(t.batches)
    ensures var s' := MarkSent(t, batchId, now);
            && |s'.batches| == |t.batches| && s'.receipts == t.receipts
            && s'.batches[i].items == t.batches[i].items
            && forall j :: 0 <= j < |t.batches| && j != i ==> s'.batches[j] == t.batches[j]
  {
    assert FindBatch(t.batches, batchId) == Some(i);
  }

  /** The update commits exactly if the item is still in submission and, for an acceptance, its peers fit. */
  ghost predicate Commits(s: State, selection: Selection, height: U64, response: Option<SendResponse>) {
    && Stored(s, selection.item.itemId) && ItemBy(s, selection.item.itemId).value.status == Submitting
    && (response.Some? && (response.value.errorCode == 0 || SaysKnown(response.value.errorMessage)) ==>
          var items := s.batches[Locate(s.batches, selection.item.itemId).value.batch].items;
          Fits(PeerExpiries(items, selection.item.itemId, height), height))
  }

  lemma CommitsExactly(s: State, selection: Selection, height: U64, response: Option<SendResponse>, message: string,
                       now: Date, random: Randomness)
    requires Valid(s) && RandomnessFits(s, selection.item.itemId, height, random)
    ensures OutcomeUpdate(s, selection, height, response, message, now, random).Ok?
            <==> Commits(s, selection, height, response)
  {
    hide Valid, SaysKnown, RecordAccepted, AcceptsResponse;
    if response.Some? {
      AcceptsExactly(response.value);
    }
    if Commits(s, selection, height, None) && response.Some? {
      var at := Locate(s.batches, selection.item.itemId).value;
      RecordAcceptedExact(s, selection.item.itemId, at, response.value.errorCode != 0, height, response.value.errorCode,
                          response.value.errorMessage, now, random);
    } else if response.Some? {
      NotSubmitting(s, selection, height, response.value, now, random);
    }
  }

  lemma NotSubmitting(s: State, selection: Selection, height: U64, reply: SendResponse, now: Date, random: Randomness)
    requires RandomnessFits(s, selection.item.itemId, height, random) && !Commits(s, selection, height, None)
    ensures RecordAccepted(s, selection.item.itemId, reply.errorCode != 0, height, reply.errorCode, reply.errorMessage,
                           now, random).Err?
  {
  }

  lemma OutcomeRecorded(s: State, selection: Selection, at: Location, height: U64, response: Option<SendResponse>,
                        message: string, now: Date, random: Randomness)
    requires RandomnessFits(s, selection.item.itemId, height, random) && UniqueBatches(s.batches)
    requires OutcomeUpdate(s, selection, height, response, message, now, random).Ok?
    requires Locate(s.batches, selection.item.itemId) == Some(at) && selection.batchId == s.batches[at.batch].batchId
    ensures Recorded(s, OutcomeUpdate(s, selection, height, response, message, now, random).value, at, response,
                     message, height, now)
  {
    hide AcceptUpdate, RecordRejected, RecordUncertain, Recorded, RandomnessFits, AcceptsResponse, Verdict;
    match response
    case None => UncertainRecorded(s, selection.item.itemId, at, message, height, now);
    case Some(reply) =>
      AcceptsExactly(reply);
      if AcceptsResponse(reply) {
        AcceptedRecorded(s, selection, at, height, reply, message, now, random);
      } else {
        RejectedRecorded(s, selection.item.itemId, at, height, reply, message, now);
      }
  }

  /**
   * The reply decides: in every reachable world with a sent transaction, the
   * outcome update writes something exactly if the item is still in submission
   * (and, for an acceptance, its peers can be rescheduled), and what it writes
   * follows from the reply's code and message alone.
   */
  lemma ReplyDecides(w: World, message: string, now: Date, random: Randomness)
    requires Reachable(w) && w.phase.Sent? && Step(w, RecordOutcome(true, message, now, random)).Some?
    ensures var s' := Step(w, RecordOutcome(true, message, now, random)).value.store;
            && (s' != w.store <==> Commits(w.store, w.phase.selection, w.phase.height, w.phase.response))
            && (s' != w.store ==>
                  var at := Locate(w.store.batches, w.phase.selection.item.itemId).value;
                  && w.store.batches[at.batch].batchId == w.phase.selection.batchId
                  && ItemAt(w.store.batches, at).raw == w.phase.selection.item.raw
                  && Recorded(w.store, s', at, w.phase.response, message, w.phase.height, now))
  {
    ReachableOk(w);
    ReachableInFlight(w);
    SentStep(w, message, now, random);
    var s, selection := w.store, w.phase.selection;
    assert Valid(s) && UniqueBatches(s.batches);
    hide Valid, Step, OutcomeUpdate, WorldOk, RandomnessFits, Recorded;
    CommitsExactly(s, selection, w.phase.height, w.phase.response, message, now, random);
    if OutcomeUpdate(s, selection, w.phase.height, w.phase.response, message, now, random).Ok? {
      var at := Locate(s.batches, selection.item.itemId).value;
      OutcomeRecorded(s, selection, at, w.phase.height, w.phase.response, message, now, random);
      RecordedDiffers(s, OutcomeUpdate(s, selection, w.phase.height, w.phase.response, message, now, random).value, at,
                      w.phase.response, message, w.phase.height, now);
    }
  }

  lemma SentStep(w: World, message: string, now: Date, random: Randomness)
    requires w.phase.Sent? && Step(w, RecordOutcome(true, message, now, random)).Some?
    ensures RandomnessFits(w.store, w.phase.selection.item.itemId, w.phase.height, random)
    ensures Step(w, RecordOutcome(true, message, now, random)).value.store
            == Written(w.store, OutcomeUpdate(w.store, w.phase.selection, w.phase.height, w.phase.response, message,
                                              now, random))
  {
  }

  lemma RecordedDiffers(s: State, s': State, at: Location, response: Option<SendResponse>, message: string, height: U64,
                        now: Date)
    requires At(s.batches, at) && ItemAt(s.batches, at).status == Submitting
    requires Recorded(s, s', at, response, message, height, now)
    ensures s' != s
  {
    hide SaysKnown;
    assert ItemAt(s'.batches, at).status != Submitting;
  }

  // ----- The schedule updates of a receipt

  /** The schedule of this item changed, to what the update says. */
  predicate ChangedTo(before: seq<Item>, after: seq<Item>, k: nat, u: ScheduleUpdate) {
    && k < |before| && k < |after| && after[k].scheduledHeight != before[k].scheduledHeight
    && u == ScheduleUpdate(before[k].itemId, after[k].scheduledHeight, after[k].scheduleStartHeight)
  }

  /** Exactly the items of the batch that the update rescheduled, once each, with their new schedule. */
  ghost predicate ListsChanges(before: seq<Item>, after: seq<Item>, updates: seq<ScheduleUpdate>) {
    && |after| == |before|
    && (forall u :: u in updates <==> exists k :: ChangedTo(before, after, k, u))
    && (forall m, n :: 0 <= m < n < |updates| ==> updates[m].itemId != updates[n].itemId)
  }

  lemma PlanChanges(items: seq<Item>, excluded: string, height: U64, order: seq<nat>, plan: seq<U64>)
    requires Positions(order, items) && |plan| == |order| && DistinctItems(items)
    requires forall i, j :: 0 <= i < j < |order| ==> order[i] != order[j]
    requires forall k :: 0 <= k < |items| ==> (k in order <==> Overdue(items[k], excluded, height))
    requires forall j :: 0 <= j < |plan| ==> plan[j] > height
    ensures ListsChanges(items, ApplyPlan(items, order, plan, height), Updates(items, order, plan, height))
  {
    hide DistinctItems;
    var after, updates := ApplyPlan(items, order, plan, height), Updates(items, order, plan, height);
    forall k | 0 <= k < |items|
      ensures k !in order ==> after[k] == items[k]
      ensures forall j :: 0 <= j < |order| && order[j] == k ==> after[k] == ReplacingSchedule(items[k], plan[j], height)
    {
      ApplyPlanAt(items, order, plan, height, k);
    }
    hide ApplyPlan;
    forall u | u in updates
      ensures exists k :: ChangedTo(items, after, k, u)
    {
      var j :| 0 <= j < |updates| && updates[j] == u;
      assert order[j] in order && ChangedTo(items, after, order[j], u);
    }
    forall u, k | ChangedTo(items, after, k, u)
      ensures u in updates
    {
      var j :| 0 <= j < |order| && order[j] == k;
      assert updates[j] == u;
    }
    UpdatesDistinct(items, order, plan, height);
  }

  lemma UpdatesDistinct(items: seq<Item>, order: seq<nat>, plan: seq<U64>, height: U64)
    requires Positions(order, items) && |plan| == |order| && DistinctItems(items)
    requires forall i, j :: 0 <= i < j < |order| ==> order[i] != order[j]
    ensures var updates := Updates(items, order, plan, height);
            forall m, n :: 0 <= m < n < |updates| ==> updates[m].itemId != updates[n].itemId
  {
    var updates := Updates(items, order, plan, height);
    forall m, n | 0 <= m < n < |updates|
      ensures updates[m].itemId != updates[n].itemId
    {
      var a, b := order[m], order[n];
      assert if a < b then items[a].itemId != items[b].itemId else items[b].itemId != items[a].itemId;
    }
  }

  /** The receipt of an acceptance lists exactly the peers whose stored schedule changed, each once. */
  lemma ReceiptListsChanges(s: State, id: string, at: Location, equivalent: bool, height: U64, code: int,
                            message: string, now: Date, random: Randomness)
    requires Valid(s) && RandomnessFits(s, id, height, random) && Locate(s.batches, id) == Some(at)
    requires RecordAccepted(s, id, equivalent, height, code, message, now, random).Ok?
    ensures var s' := RecordAccepted(s, id, equivalent, height, code, message, now, random).value;
            && |s'.receipts| == |s.receipts| + 1 && |s'.batches| == |s.batches|
            && ListsChanges(s.batches[at.batch].items, s'.batches[at.batch].items, s'.receipts[|s.receipts|].updates)
  {
    var b := s.batches[at.batch];
    assert BatchOk(b);
    hide Valid, Shuffles, Reschedule, ListsChanges;
    var order, plan := ReschedulePlan(b.items, id, height, b.timingMax, random);
    forall j | 0 <= j < |plan|
      ensures plan[j] > height
    {
      assert height < plan[j];
    }
    PlanChanges(b.items, id, height, order, plan);
    ApplyPlanAt(b.items, order, plan, height, at.item);
    FinishedChanges(b.items, ApplyPlan(b.items, order, plan, height), Updates(b.items, order, plan, height), at.item);
  }

  /** Finishing one of the items changes no schedule. */
  lemma FinishedChanges(before: seq<Item>, after: seq<Item>, updates: seq<ScheduleUpdate>, k: nat)
    requires ListsChanges(before, after, updates) && k < |before| && after[k] == before[k]
    ensures ListsChanges(before, after[k := FinishedItem(before[k], AcceptedAwaiting)], updates)
  {
    var done := after[k := FinishedItem(before[k], AcceptedAwaiting)];
    assert forall j, u :: ChangedTo(before, done, j, u) <==> ChangedTo(before, after, j, u);
  }

  // ----- A submission taken back

  /**
   * Taking a selection back, exactly: it commits if the item is still in
   * submission; then that item alone changes, armed again at once and with no
   * attempt counted, and no receipt is filed.
   */
  lemma CancelTakesBack(w: World, message: string)
    requires Reachable(w) && w.phase.Chose?
    ensures var s := w.store;
            var s' := Step(w, CancelBeforeSend(true, message)).value.store;
            var id := w.phase.selection.item.itemId;
            && (s' != s <==> Stored(s, id) && ItemBy(s, id).value.status == Submitting)
            && (s' != s ==>
                  var at := Locate(s.batches, id).value;
                  var a := ItemAt(s.batches, at);
                  && s.batches[at.batch].batchId == w.phase.selection.batchId
                  && a.raw == w.phase.selection.item.raw
                  && s' == WithItem(s, at, a.(status := Armed, attemptId := None, attemptStartedAt := None,
                                              nextAttemptAt := None, lastError := Some(message))))
  {
    ReachableInFlight(w);
    var s, id := w.store, w.phase.selection.item.itemId;
    if Stored(s, id) && ItemBy(s, id).value.status == Submitting {
      var at := Locate(s.batches, id).value;
      var s' := RecordCancelled(s, id, message).value;
      assert ItemAt(s'.batches, at).status == Armed;
    }
  }
}
