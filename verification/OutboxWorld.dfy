/**
 * The outbox in the world: one runner, the admission gate, the app's channel
 * calls, store failures, cancellation and process death, in any interleaving.
 * Every store update is one atomic step; network calls lie between steps.
 */
module OutboxWorld {
  import opened Common
  import opened OutboxTypes
  import opened OutboxOps
  import opened OutboxRecords
  import opened OutboxRunner
  import opened ExecutionGate

  // ----- State

  /** Where the admitted run is. */
  datatype Phase =
    | Idle
    | Admitted
    | Inspected(endpoint: string)
    | AtTip(endpoint: string, height: U64)
    | Chose(selection: Selection, height: U64, untried: bool)
    | Sent(selection: Selection, height: U64, response: Option<SendResponse>)
    | Ending

  /**
   * Beside the stored snapshot, the gate and the run's position, the world
   * remembers: the leases whose drain has returned; the ids whose bytes were ever
   * handed to the transport (`sent`); the stored ids whose record was added after
   * every selection of the id that was sent or may still be (`untried`); and how
   * many sends and outcome updates this process has made. `untried` in `Chose`
   * says that the selected record was untried before, which it is again when the
   * selection is taken back.
   */
  datatype World = World(
    store: State,
    gate: GateState,
    phase: Phase,
    drained: set<string>,
    sent: set<string>,
    untried: set<string>,
    sends: nat,
    outcomes: nat)

  const INITIAL_WORLD := World(EMPTY_STATE, OPEN_GATE, Idle, {}, {}, {}, 0, 0)

  // ----- The app's calls

  datatype Call =
    | StageBatch(batch: Batch)
    | ArmBatch(batchId: string, digests: map<string, Digest>, now: Date)
    | RecoverBatch(batchId: string, network: string, accountUuid: string, runId: string, txids: set<string>,
                   url: string, now: Date)
    | VerifiedProof(network: string, accountUuid: string, runId: string, now: Date)
    | AckReceipts(ids: set<ReceiptId>)
    | Discard(batchId: string)
    | RevokeScope(network: string, accountUuid: string)
    | RemoveAll
    | AckProof(batchId: string, now: Date)
    | HeightNotice(batchId: string, now: Date)
    | AckHeight(batchId: string, now: Date)
    | AckSent(batchId: string, now: Date)

  /** The stored state after a call; a call that fails writes nothing. */
  function Apply(s: State, call: Call): (r: State) {
    match call
    case StageBatch(batch) => Written(s, Stage(s, batch))
    case ArmBatch(id, digests, now) => Written(s, Arm(s, id, digests, now))
    case RecoverBatch(id, network, account, run, txids, url, now) =>
      (match Recover(s, id, network, account, run, txids, url, now) case Ok(v) => v.0 case Err(_) => s)
    case VerifiedProof(network, account, run, now) => RecordVerified(s, network, account, run, now).0
    case AckReceipts(ids) => AcknowledgeReceipts(s, ids)
    case Discard(id) => (match DiscardBatch(s, id) case Ok(v) => v.0 case Err(_) => s)
    case RevokeScope(network, account) => Revoke(s, network, account)
    case RemoveAll => EMPTY_STATE
    case AckProof(id, now) => Written(s, AcknowledgeProofReady(s, id, now))
    case HeightNotice(id, now) => MarkHeightNotice(s, id, now).0
    case AckHeight(id, now) => Written(s, AcknowledgeHeightNotice(s, id, now))
    case AckSent(id, now) => Written(s, AcknowledgeSent(s, id, now))
  }

  /** `store.update`: a failed mutation leaves the stored state as it was. */
  function Written(s: State, r: Result<State, OutboxError>): State {
    match r case Ok(s') => s' case Err(_) => s
  }

  // ----- Events

  datatype Event =
    | BeginRun
    | GiveUp                                                   // cancelled, or an update or the tip query failed
    | Inspect(now: Date)
    | LearnTip(height: U64)
    | Select(verifyProofs: bool, attemptId: string, now: Date)
    | CancelBeforeSend(stored: bool, message: string)
    | Send(response: Option<SendResponse>)                     // None: the transport failed
    | RecordOutcome(stored: bool, message: string, now: Date, random: Randomness)
    | FinishRun
    | ProcessDies
    | ChannelCall(call: Call)
    | PauseGate(leaseId: string)
    | DrainReturns(leaseId: string)
    | ResumeGate(leaseId: string)
    | DiscardStops(network: Option<string>, accountUuid: Option<string>)

  predicate Stored(s: State, itemId: string) {
    Locate(s.batches, itemId).Some?
  }

  function StoredIds(s: State): (ids: set<string>)
    ensures forall id :: id in ids <==> Stored(s, id)
  {
    var ids := set b, it | b in s.batches && it in b.items :: it.itemId;
    assert forall id :: id in ids <==> Stored(s, id) by {
      StoredIdsExact(s, ids);
    }
    ids
  }

  lemma StoredIdsExact(s: State, ids: set<string>)
    requires ids == set b, it | b in s.batches && it in b.items :: it.itemId
    ensures forall id :: id in ids <==> Stored(s, id)
  {
    forall id
      ensures id in ids <==> Stored(s, id)
    {
      if Stored(s, id) {
        var at := Locate(s.batches, id).value;
        var b := s.batches[at.batch];
        assert b in s.batches && b.items[at.item] in b.items;
      }
    }
  }

  /** A committed update: a record added by it is untried, whatever was sent under its id before. */
  function Commit(w: World, s: State): World {
    w.(store := s, untried := Untried(w, s))
  }

  function Untried(w: World, s: State): (ids: set<string>)
    ensures forall id :: id in ids <==> Stored(s, id) && (id in w.untried || !Stored(w.store, id))
  {
    set id | id in StoredIds(s) && (id in w.untried || !Stored(w.store, id))
  }

  predicate AcceptsResponse(response: SendResponse) {
    response.errorCode == 0 || AcceptedEquivalentMessage(Lower(response.errorMessage))
  }

  const EQUIVALENT_MESSAGES := [
    "transaction was committed to the best chain", "already in mempool", "already have transaction",
    "transaction already in block chain", "transaction is already in state", "transaction already exists",
    "txn-already-known", "txn-already-in-mempool", "already known"]

  predicate Contains(text: string, part: string) {
    part <= text || (text != "" && Contains(text[1..], part))
  }

  predicate AcceptedEquivalentMessage(message: string) {
    exists j :: 0 <= j < |EQUIVALENT_MESSAGES| && Contains(message, EQUIVALENT_MESSAGES[j])
  }

  /** The update made after the transport call, when the store takes it. */
  function OutcomeUpdate(s: State, selection: Selection, height: U64, response: Option<SendResponse>, message: string,
                         now: Date, random: Randomness): (r: Result<State, OutboxError>)
    requires RandomnessFits(s, selection.item.itemId, height, random)
  {
    var id := selection.item.itemId;
    match response
    case None => RecordUncertain(s, id, message, now)
    case Some(r) =>
      if AcceptsResponse(r) then AcceptUpdate(s, selection, r, height, now, random)
      else RecordRejected(s, id, height, r.errorCode, r.errorMessage, now)
  }

  /** What the code relies on without checking when a batch is staged. */
  predicate Assumed(s: State, call: Call) {
    call.StageBatch? ==> FreshBatch(s, call.batch)
  }

  function Step(w: World, e: Event): (r: Option<World>) {
    match e
    case BeginRun =>
      if Admits(w.gate) then Some(w.(gate := w.gate.(running := true), phase := Admitted)) else None
    case GiveUp =>
      if w.phase.Admitted? || w.phase.Inspected? || w.phase.AtTip? then Some(w.(phase := Ending)) else None
    case Inspect(now) =>
      if !w.phase.Admitted? then None
      else
        var (s, endpoint) := FirstUpdate(w.store, now);
        Some(Commit(w, s).(phase := if endpoint.Some? then Inspected(endpoint.value) else Ending))
    case LearnTip(height) =>
      if w.phase.Inspected? then Some(w.(phase := AtTip(w.phase.endpoint, height))) else None
    case Select(verifyProofs, attemptId, now) =>
      if !w.phase.AtTip? then None
      else
        (match SelectUpdate(w.store, w.phase.endpoint, w.phase.height, verifyProofs, attemptId, now)
         case Err(_) => Some(w.(phase := Ending))
         case Ok(r) =>
           if r.selection.None? then Some(Commit(w, r.state).(phase := Ending))
           else
             var id := r.selection.value.item.itemId;
             Some(Commit(w, r.state).(phase := Chose(r.selection.value, w.phase.height, id in w.untried),
                                      untried := Commit(w, r.state).untried - {id})))
    case CancelBeforeSend(stored, message) =>
      if !w.phase.Chose? then None
      else
        var id := w.phase.selection.item.itemId;
        var r := RecordCancelled(w.store, id, message);
        if stored && r.Ok? then
          Some(Commit(w, r.value).(phase := Ending,
                                   untried := if w.phase.untried then Commit(w, r.value).untried + {id}
                                              else Commit(w, r.value).untried))
        else Some(w.(phase := Ending))
    case Send(response) =>
      if !w.phase.Chose? then None
      else
        Some(w.(phase := Sent(w.phase.selection, w.phase.height, response),
                sent := w.sent + {w.phase.selection.item.itemId},
                sends := w.sends + 1))
    case RecordOutcome(stored, message, now, random) =>
      if !w.phase.Sent? || !RandomnessFits(w.store, w.phase.selection.item.itemId, w.phase.height, random) then None
      else
        var s := if stored then
                   Written(w.store, OutcomeUpdate(w.store, w.phase.selection, w.phase.height, w.phase.response,
                                                  message, now, random))
                 else w.store;
        Some(Commit(w, s).(phase := Ending, outcomes := w.outcomes + 1))
    case FinishRun =>
      if w.phase.Ending? then Some(w.(phase := Idle, gate := w.gate.(running := false))) else None
    case ProcessDies =>
      Some(w.(phase := Idle, gate := OPEN_GATE, drained := {}, sends := 0, outcomes := 0))
    case ChannelCall(call) =>
      if Assumed(w.store, call) then Some(Commit(w, Apply(w.store, call))) else None
    case PauseGate(l) => Some(w.(gate := w.gate.(leases := w.gate.leases + {l})))
    case DrainReturns(l) =>
      if !w.gate.running && l in w.gate.leases then Some(w.(drained := w.drained + {l})) else None
    case ResumeGate(l) => Some(w.(gate := w.gate.(leases := w.gate.leases - {l}), drained := w.drained - {l}))
    case DiscardStops(network, accountUuid) =>
      var leases := WithoutStopLeases(w.gate.leases, network, accountUuid);
      Some(w.(gate := w.gate.(leases := leases), drained := w.drained * leases))
  }

  /** The world after a whole run of events, if every one of them could happen. */
  function Run(w: World, events: seq<Event>): (r: Option<World>)
    decreases |events|
  {
    if events == [] then Some(w)
    else
      match Step(w, events[0])
      case None => None
      case Some(w') => Run(w', events[1..])
  }
}
