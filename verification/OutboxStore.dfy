/**
 * The outbox store. `update` copies the stored snapshot, changes the copy in
 * place, and writes it back only when the whole mutation succeeded. The runner's
 * updates and the app's calls are proved to be steps of the outbox world.
 */
module OutboxStore {
  import opened Common
  import opened OutboxTypes
  import opened OutboxPeers
  import opened OutboxOps
  import opened OutboxRunner
  import opened OutboxSnapshot
  import opened ExecutionGate
  import opened OutboxWorld
  import opened OutboxSafety
  import opened OutboxTheorems

  /** Where the overdue peers' order and delays come from. */
  datatype RandomSource = RandomSource(shuffle: seq<nat> -> seq<nat>, draw: nat -> U64)

  ghost predicate Fair(random: RandomSource) {
    forall xs: seq<nat> {:trigger random.shuffle(xs)} :: multiset(random.shuffle(xs)) == multiset(xs)
  }

  /** What the source yields for the peers of one item. */
  function Drawn(random: RandomSource, s: State, itemId: string, height: U64): Randomness {
    match Locate(s.batches, itemId)
    case None => Randomness([], [])
    case Some(at) =>
      var shuffled := random.shuffle(OverduePeers(s.batches[at.batch].items, itemId, height));
      Randomness(shuffled, seq(|shuffled|, k requires 0 <= k < |shuffled| => random.draw(k)))
  }

  lemma DrawnFits(random: RandomSource, s: State, itemId: string, height: U64)
    requires Fair(random)
    ensures RandomnessFits(s, itemId, height, Drawn(random, s, itemId, height))
  {
    match Locate(s.batches, itemId)
    case None =>
    case Some(at) =>
      var items := s.batches[at.batch].items;
      var peers := OverduePeers(items, itemId, height);
      SameBagSameLength(random.shuffle(peers), peers);
      forall j | 0 <= j < |random.shuffle(peers)|
        ensures random.shuffle(peers)[j] < |items|
      {
        assert random.shuffle(peers)[j] in peers;
      }
  }

  // ----- The store

  class Store {
    var file: State

    constructor (s: State)
      ensures file == s
    {
      file := s;
    }

    /** The first update of a run; `None` when the store could not be read or written. */
    method FirstUpdate(now: Date, available: bool) returns (r: Option<Option<string>>)
      modifies this
      ensures available ==> r.Some? && (file, r.value) == OutboxRunner.FirstUpdate(old(file), now)
      ensures !available ==> r == None && file == old(file)
    {
      if !available {
        return None;
      }
      var snapshot := new Snapshot(file);
      snapshot.RecoverInterruptedSubmissions(now);
      var endpoint := snapshot.NextEndpointForInspection();
      file := snapshot.View();
      return Some(endpoint);
    }

    /** The selecting update. */
    method SelectUpdate(endpoint: string, height: U64, verifyProofs: bool, attemptId: string, now: Date)
      returns (r: Result<Option<Selection>, OutboxError>)
      modifies this
      ensures var result := OutboxRunner.SelectUpdate(old(file), endpoint, height, verifyProofs, attemptId, now);
              match result
              case Ok(s) => r == Ok(s.selection) && file == s.state
              case Err(e) => r == Err(e) && file == old(file)
    {
      var snapshot := new Snapshot(file);
      snapshot.ExpireItems(height, endpoint, now);
      snapshot.MarkDueItemsNeedingResign(height, endpoint, now);
      if !verifyProofs {
        var _ := snapshot.MarkProofReadyIfNeeded(height, endpoint, now);
      }
      assert snapshot.View() == Prepare(old(file), endpoint, height, verifyProofs, now);
      var selection := snapshot.SelectDue(height, Some(endpoint), now);
      if selection.Some? {
        var checked := snapshot.ValidateReschedulingAfterAcceptance(selection.value.item.itemId, height);
        if checked.Err? {
          return Err(checked.error);
        }
        var begun := snapshot.BeginSubmission(selection.value.item.itemId, attemptId, now);
        if begun.Err? {
          return Err(begun.error);
        }
      }
      file := snapshot.View();
      return Ok(selection);
    }

    /** The update made when the run is cancelled before it sends; failures are ignored. */
    method CancelUpdate(itemId: string, message: string, available: bool)
      modifies this
      ensures file == if available then Written(old(file), RecordCancelled(old(file), itemId, message)) else old(file)
    {
      if !available {
        return;
      }
      var snapshot := new Snapshot(file);
      var r := snapshot.RecordCancelledBeforeSubmission(itemId, message);
      if r.Ok? {
        file := snapshot.View();
      }
    }

    /** The update made after the transport call; the result says whether it was committed. */
    method OutcomeUpdate(selection: Selection, height: U64, response: Option<SendResponse>, message: string, now: Date,
                         random: Randomness) returns (committed: bool)
      requires RandomnessFits(file, selection.item.itemId, height, random)
      modifies this
      ensures var result := OutboxWorld.OutcomeUpdate(old(file), selection, height, response, message, now, random);
              file == Written(old(file), result) && committed == result.Ok?
    {
      var snapshot := new Snapshot(file);
      var id := selection.item.itemId;
      var r: Result<(), OutboxError>;
      if response.None? {
        r := snapshot.RecordUncertain(id, message, now);
      } else if AcceptsResponse(response.value) {
        var reply := response.value;
        r := snapshot.RecordAccepted(id, reply.errorCode != 0, height, reply.errorCode, reply.errorMessage, now,
                                     random);
        if r.Ok? {
          snapshot.MarkBroadcastCompleteIfNeeded(selection.batchId, now);
        }
      } else {
        r := snapshot.RecordRejected(id, height, response.value.errorCode, response.value.errorMessage, now);
      }
      if r.Err? {
        return false;
      }
      file := snapshot.View();
      return true;
    }

    // ----- The app's calls

    method StageBatch(batch: Batch)
      modifies this
      ensures file == Apply(old(file), Call.StageBatch(batch))
    {
      var snapshot := new Snapshot(file);
      var r := snapshot.Stage(batch);
      if r.Ok? {
        file := snapshot.View();
      }
    }

    method ArmBatch(batchId: string, digests: map<string, Digest>, now: Date)
      modifies this
      ensures file == Apply(old(file), Call.ArmBatch(batchId, digests, now))
    {
      var snapshot := new Snapshot(file);
      var r := snapshot.ArmBatch(batchId, digests, now);
      if r.Ok? {
        file := snapshot.View();
      }
    }

    method RecoverBatch(batchId: string, network: string, accountUuid: string, runId: string, txids: set<string>,
                        url: string, now: Date)
      modifies this
      ensures file == Apply(old(file), Call.RecoverBatch(batchId, network, accountUuid, runId, txids, url, now))
    {
      var snapshot := new Snapshot(file);
      var r := snapshot.RecoverBatch(batchId, network, accountUuid, runId, txids, url, now);
      if r.Ok? {
        file := snapshot.View();
      }
    }

    method RecordVerifiedProof(network: string, accountUuid: string, runId: string, now: Date)
      modifies this
      ensures file == Apply(old(file), VerifiedProof(network, accountUuid, runId, now))
    {
      var snapshot := new Snapshot(file);
      var _ := snapshot.RecordVerifiedProofReadiness(network, accountUuid, runId, now);
      file := snapshot.View();
    }

    method AcknowledgeReceipts(ids: set<ReceiptId>)
      modifies this
      ensures file == Apply(old(file), AckReceipts(ids))
    {
      var snapshot := new Snapshot(file);
      snapshot.AcknowledgeReceipts(ids);
      file := snapshot.View();
    }

    /** Removes the batch, if any, and never one whose delivery has begun or that a receipt names. */
    method DiscardBatch(batchId: string)
      modifies this
      ensures file == Apply(old(file), Discard(batchId))
    {
      var snapshot := new Snapshot(file);
      var r := snapshot.DiscardBatch(batchId);
      if r.Ok? {
        file := snapshot.View();
      }
    }

    method Revoke(network: string, accountUuid: string)
      modifies this
      ensures file == Apply(old(file), RevokeScope(network, accountUuid))
    {
      var snapshot := new Snapshot(file);
      snapshot.Revoke(network, accountUuid);
      file := snapshot.View();
    }

    method RemoveAll()
      modifies this
      ensures file == Apply(old(file), Call.RemoveAll)
    {
      file := EMPTY_STATE;
    }

    method AcknowledgeProofReady(batchId: string, now: Date)
      modifies this
      ensures file == Apply(old(file), AckProof(batchId, now))
    {
      var snapshot := new Snapshot(file);
      var r := snapshot.AcknowledgeProofReadyNotification(batchId, now);
      if r.Ok? {
        file := snapshot.View();
      }
    }

    method QueueHeightNotice(batchId: string, now: Date)
      modifies this
      ensures file == Apply(old(file), HeightNotice(batchId, now))
    {
      var snapshot := new Snapshot(file);
      var _ := snapshot.MarkUnverifiedProofReadyNotice(batchId, now);
      file := snapshot.View();
    }

    method AcknowledgeHeightNotice(batchId: string, now: Date)
      modifies this
      ensures file == Apply(old(file), AckHeight(batchId, now))
    {
      var snapshot := new Snapshot(file);
      var r := snapshot.AcknowledgeUnverifiedProofReadyNotice(batchId, now);
      if r.Ok? {
        file := snapshot.View();
      }
    }

    method AcknowledgeSent(batchId: string, now: Date)
      modifies this
      ensures file == Apply(old(file), AckSent(batchId, now))
    {
      var snapshot := new Snapshot(file);
      var r := snapshot.AcknowledgeBroadcastCompleteNotification(batchId, now);
      if r.Ok? {
        file := snapshot.View();
      }
    }

    method Perform(call: Call)
      modifies this
      ensures file == Apply(old(file), call)
    {
      hide Apply;
      match call
      case StageBatch(batch) => StageBatch(batch);
      case ArmBatch(id, digests, now) => ArmBatch(id, digests, now);
      case RecoverBatch(id, network, account, run, txids, url, now) =>
        RecoverBatch(id, network, account, run, txids, url, now);
      case VerifiedProof(network, account, run, now) => RecordVerifiedProof(network, account, run, now);
      case AckReceipts(ids) => AcknowledgeReceipts(ids);
      case Discard(id) => DiscardBatch(id);
      case RevokeScope(network, account) => Revoke(network, account);
      case RemoveAll => RemoveAll();
      case AckProof(id, now) => AcknowledgeProofReady(id, now);
      case HeightNotice(id, now) => QueueHeightNotice(id, now);
      case AckHeight(id, now) => AcknowledgeHeightNotice(id, now);
      case AckSent(id, now) => AcknowledgeSent(id, now);
    }
  }

  // ----- The app beside the runner

  /** Only the store and what is untried differ. */
  ghost predicate OnlyStored(w: World, w': World) {
    w' == w.(store := w'.store, untried := w'.untried)
  }

  /**
   * The app's calls, one after the other: a possible run of the world, at whatever
   * position the runner is, which moves neither the runner nor the gate. A call
   * that brings item ids of another batch is the app's fault and is left out.
   */
  method HandleCalls(store: Store, calls: seq<Call>, ghost w: World) returns (ghost trace: seq<Event>, ghost w': World)
    requires w.store == store.file
    modifies store
    ensures Run(w, trace) == Some(w') && OnlyStored(w, w') && w'.store == store.file
    ensures calls == [] ==> w' == w
    ensures WorldOk(w) ==> WorldOk(w')
  {
    hide WorldOk, Apply, Assumed;
    trace, w' := [], w;
    for n := 0 to |calls|
      invariant Run(w, trace) == Some(w') && OnlyStored(w, w') && w'.store == store.file
      invariant n == 0 ==> w' == w
    {
      if Assumed(store.file, calls[n]) {
        store.Perform(calls[n]);
        RunAppend(w, trace, ChannelCall(calls[n]));
        trace, w' := trace + [ChannelCall(calls[n])], Step(w', ChannelCall(calls[n])).value;
      }
    }
    if WorldOk(w) {
      RunKeeps(w, trace);
    }
  }

  lemma {:induction false} RunAppend(w: World, events: seq<Event>, e: Event)
    requires Run(w, events).Some?
    ensures Run(w, events + [e]) == Step(Run(w, events).value, e)
    decreases |events|
  {
    if events == [] {
      assert events + [e] == [e];
      assert [e][1..] == [];
    } else {
      RunAppend(Step(w, events[0]).value, events[1..], e);
      assert (events + [e])[1..] == events[1..] + [e];
    }
  }

  /** A wallet mutation at the gate: taking a lease, giving it back, or retiring stop leases. */
  datatype GateCall =
    | TakeLease(leaseId: string)
    | GiveBack(leaseId: string)
    | RetireStops(network: Option<string>, accountUuid: Option<string>)

  function GateEvent(call: GateCall): Event {
    match call
    case TakeLease(l) => PauseGate(l)
    case GiveBack(l) => ResumeGate(l)
    case RetireStops(network, account) => DiscardStops(network, account)
  }

  /** Every gate call is a step of the world; it never ends the hold of a drained lease that it does not release. */
  method HandleGate(gate: Gate, call: GateCall, ghost w: World) returns (ghost w': World)
    requires w.gate == gate.View()
    modifies gate
    ensures Step(w, GateEvent(call)) == Some(w') && w'.gate == gate.View()
    ensures forall l :: l in w.drained && l in w.gate.leases && !Releases(GateEvent(call), l) ==>
              l in w'.drained && l in gate.mutationLeases
    ensures WorldOk(w) ==> WorldOk(w')
  {
    match call {
      case TakeLease(l) => gate.Pause(l);
      case GiveBack(l) => var _ := gate.Resume(l);
      case RetireStops(network, account) => gate.DiscardStopLeases(network, account);
    }
    w' := Step(w, GateEvent(call)).value;
    hide WorldOk;
    if WorldOk(w) {
      StepKeeps(w, GateEvent(call));
    }
  }
}
