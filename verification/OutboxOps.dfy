/**
 * Every operation of the outbox snapshot as a function of the stored state. An
 * error leaves no trace: the store writes a snapshot back only when the whole
 * mutation succeeded.
 */
module OutboxOps {
  import opened Common
  import opened Sequences
  import opened Rotation
  import opened OutboxTypes
  import opened OutboxRescheduling
  import opened OutboxPeers

  // ----- Lookup

  function FindBatch(batches: seq<Batch>, batchId: string): (r: Option<nat>)
    ensures r.Some? ==> r.value < |batches| && batches[r.value].batchId == batchId
    ensures r.Some? ==> forall i :: 0 <= i < r.value ==> batches[i].batchId != batchId
    ensures r.None? ==> forall i :: 0 <= i < |batches| ==> batches[i].batchId != batchId
  {
    FirstIndex(batches, (b: Batch) => b.batchId == batchId)
  }

  function FindItem(items: seq<Item>, itemId: string): (r: Option<nat>)
    ensures r.Some? ==> r.value < |items| && items[r.value].itemId == itemId
    ensures r.Some? ==> forall k :: 0 <= k < r.value ==> items[k].itemId != itemId
    ensures r.None? ==> forall k :: 0 <= k < |items| ==> items[k].itemId != itemId
  {
    FirstIndex(items, (it: Item) => it.itemId == itemId)
  }

  datatype Location = Location(batch: nat, item: nat)

  predicate At(batches: seq<Batch>, at: Location) {
    at.batch < |batches| && at.item < |batches[at.batch].items|
  }

  function ItemAt(batches: seq<Batch>, at: Location): Item
    requires At(batches, at)
  {
    batches[at.batch].items[at.item]
  }

  function LocateFrom(batches: seq<Batch>, itemId: string, from: nat): (r: Option<Location>)
    requires from <= |batches|
    ensures r.Some? ==> At(batches, r.value) && ItemAt(batches, r.value).itemId == itemId
    ensures r.None? ==> forall i, k :: from <= i < |batches| && 0 <= k < |batches[i].items| ==>
              batches[i].items[k].itemId != itemId
    decreases |batches| - from
  {
    if from == |batches| then None
    else
      match FindItem(batches[from].items, itemId)
      case Some(k) => Some(Location(from, k))
      case None => LocateFrom(batches, itemId, from + 1)
  }

  /** `itemLocation`: the first item with this id over all batches. */
  function Locate(batches: seq<Batch>, itemId: string): (r: Option<Location>)
    ensures r.Some? ==> At(batches, r.value) && ItemAt(batches, r.value).itemId == itemId
    ensures r.None? ==> forall i, k :: 0 <= i < |batches| && 0 <= k < |batches[i].items| ==>
              batches[i].items[k].itemId != itemId
  {
    LocateFrom(batches, itemId, 0)
  }

  function WithBatch(s: State, i: nat, b: Batch): State
    requires i < |s.batches|
  {
    s.(batches := s.batches[i := b])
  }

  function WithItem(s: State, at: Location, item: Item): State
    requires At(s.batches, at)
  {
    WithBatch(s, at.batch, s.batches[at.batch].(items := s.batches[at.batch].items[at.item := item]))
  }

  // ----- Staging

  predicate Stageable(item: Item) {
    && item.itemId != "" && item.txid != "" && item.raw != []
    && item.digest == Sha256(item.raw)
    && item.scheduledHeight < item.expiryHeight
    && item.status == Staged
  }

  predicate DistinctItems(items: seq<Item>) {
    forall j, k :: 0 <= j < k < |items| ==> items[j].itemId != items[k].itemId && items[j].txid != items[k].txid
  }

  predicate ValidNewBatch(b: Batch) {
    && b.batchId != "" && b.network != "" && b.accountUuid != "" && b.runId != "" && b.url != ""
    && 0 < b.timingMean <= b.timingMax
    && (b.items != [] || b.nextProofHeight.Some?)
    && b.proofPendingAt.None? && b.proofNotifiedAt.None?
    && b.heightPendingAt.None? && b.heightNoticedAt.None?
    && b.sentPendingAt.None? && b.sentNotifiedAt.None?
    && DistinctItems(b.items)
    && (forall k :: 0 <= k < |b.items| ==> Stageable(b.items[k]))
  }

  predicate SameTransaction(a: Item, b: Item) {
    && a.partIndex == b.partIndex && a.txid == b.txid && a.digest == b.digest
    && a.anchorHeight == b.anchorHeight && a.expiryHeight == b.expiryHeight
  }

  predicate Clashes(existing: seq<Item>, incoming: Item) {
    exists k :: 0 <= k < |existing| && (existing[k].txid == incoming.txid
                                        || existing[k].partIndex == incoming.partIndex)
  }

  /** The incoming items not stored yet, or `None` when one contradicts a stored item. */
  function NewItems(existing: seq<Item>, incoming: seq<Item>): (r: Option<seq<Item>>) {
    if incoming == [] then Some([])
    else
      match FindItem(existing, incoming[0].itemId)
      case Some(k) =>
        if SameTransaction(existing[k], incoming[0]) then NewItems(existing, incoming[1..]) else None
      case None =>
        if Clashes(existing, incoming[0]) then None
        else
          match NewItems(existing, incoming[1..])
          case None => None
          case Some(rest) => Some([incoming[0]] + rest)
  }

  /** A stored record after restaging: new endpoint and cadence, new items, markers reset by a new proof height. */
  function Restaged(existing: Batch, batch: Batch, added: seq<Item>): Batch {
    var b := existing.(url := batch.url, timingMean := batch.timingMean, timingMax := batch.timingMax,
                       items := existing.items + added);
    var b := if existing.nextProofHeight != batch.nextProofHeight then
               b.(nextProofHeight := batch.nextProofHeight, proofPendingAt := None, proofNotifiedAt := None,
                  heightPendingAt := None, heightNoticedAt := None)
             else b;
    if added != [] || existing.nextProofHeight != batch.nextProofHeight then
      b.(sentPendingAt := None, sentNotifiedAt := None)
    else b
  }

  function Stage(s: State, batch: Batch): (r: Result<State, OutboxError>) {
    if !ValidNewBatch(batch) then Err(InvalidBatch)
    else
      match FindBatch(s.batches, batch.batchId)
      case None => Ok(s.(batches := s.batches + [batch]))
      case Some(i) =>
        var existing := s.batches[i];
        if existing.network != batch.network || existing.accountUuid != batch.accountUuid
            || existing.runId != batch.runId then
          Err(ConflictingBatch)
        else if existing.HasStatus(Submitting)
                && (existing.url != batch.url || existing.timingMean != batch.timingMean
                    || existing.timingMax != batch.timingMax) then
          Err(ConflictingBatch)
        else
          match NewItems(existing.items, batch.items)
          case None => Err(ConflictingBatch)
          case Some(added) => Ok(WithBatch(s, i, Restaged(existing, batch, added)))
  }

  // ----- Arming and recovery

  function MapItems(items: seq<Item>, f: Item -> Item): (r: seq<Item>)
    ensures |r| == |items|
    ensures forall k :: 0 <= k < |items| ==> r[k] == f(items[k])
  {
    seq(|items|, k requires 0 <= k < |items| => f(items[k]))
  }

  predicate ArmRequestOk(b: Batch, digests: map<string, Digest>) {
    && (digests.Keys != {} || b.nextProofHeight.Some?)
    && (forall id :: id in digests ==>
          exists k :: 0 <= k < |b.items| && b.items[k].itemId == id && b.items[k].digest == digests[id])
  }

  function ArmItem(item: Item, digests: map<string, Digest>): Item {
    if item.itemId in digests && item.status == Staged then item.(status := Armed) else item
  }

  function Arm(s: State, batchId: string, digests: map<string, Digest>, date: Date): (r: Result<State, OutboxError>) {
    match FindBatch(s.batches, batchId)
    case None => Err(BatchNotFound)
    case Some(i) =>
      var b := s.batches[i];
      if !ArmRequestOk(b, digests) then Err(InvalidArmRequest)
      else
        Ok(WithBatch(s, i, b.(armedAt := if b.armedAt.None? then Some(date) else b.armedAt,
                              items := MapItems(b.items, it => ArmItem(it, digests)))))
  }

  function RetryDelay(attemptCount: nat): int {
    if attemptCount <= 1 then 60 else if attemptCount == 2 then 300 else if attemptCount == 3 then 900 else 3600
  }

  /** A submission whose outcome is unknown: armed again, with one more attempt and a later retry. */
  function Uncertain(item: Item, error: string, date: Date): Item {
    item.(status := Armed, attemptCount := item.attemptCount + 1,
          nextAttemptAt := Some(date + RetryDelay(item.attemptCount + 1)),
          lastError := Some(error), attemptId := None, attemptStartedAt := None)
  }

  const UNKNOWN_OUTCOME := "The previous submission outcome is unknown."

  function RecoverItem(item: Item, date: Date): Item {
    if item.status == Submitting then Uncertain(item, UNKNOWN_OUTCOME, date)
    else if item.status == Staged then item.(status := Armed)
    else item
  }

  predicate RecoverMatches(b: Batch, network: string, accountUuid: string, runId: string, txids: set<string>) {
    && b.network == network && b.accountUuid == accountUuid && b.runId == runId
    && b.items != []
    && (forall k :: 0 <= k < |b.items| ==> exists t :: t in txids && Lower(t) == b.items[k].txid)
  }

  function RecoveredBatch(b: Batch, url: string, date: Date): Batch {
    var items := MapItems(b.items, it => RecoverItem(it, date));
    var b' := b.(items := items, url := url);
    if b'.HasStatus(Armed) && b.armedAt.None? then b'.(armedAt := Some(date)) else b'
  }

  /** `recoverBatch`: the new state and whether a record was found. */
  function Recover(s: State, batchId: string, network: string, accountUuid: string, runId: string,
                   txids: set<string>, url: string, date: Date): (r: Result<(State, bool), OutboxError>)
  {
    if txids == {} || url == "" then Err(InvalidArmRequest)
    else
      match FindBatch(s.batches, batchId)
      case None => Ok((s, false))
      case Some(i) =>
        if !RecoverMatches(s.batches[i], network, accountUuid, runId, txids) then Err(ConflictingBatch)
        else Ok((WithBatch(s, i, RecoveredBatch(s.batches[i], url, date)), true))
  }

  function InterruptedItem(item: Item, date: Date): Item {
    if item.status == Submitting then Uncertain(item, UNKNOWN_OUTCOME, date) else item
  }

  function InterruptedBatch(b: Batch, date: Date): Batch {
    b.(items := MapItems(b.items, it => InterruptedItem(it, date)))
  }

  function RecoverInterrupted(s: State, date: Date): (r: State)
    ensures |r.batches| == |s.batches|
    ensures forall i :: 0 <= i < |s.batches| ==> r.batches[i] == InterruptedBatch(s.batches[i], date)
    ensures r == s.(batches := r.batches)
  {
    s.(batches := seq(|s.batches|, i requires 0 <= i < |s.batches| => InterruptedBatch(s.batches[i], date)))
  }

  // ----- Endpoint rotation

  predicate Inspectable(b: Batch) {
    b.armedAt.Some? && (b.HasStatus(Armed) || (b.nextProofHeight.Some? && b.AwaitsProofReady()))
  }

  function Endpoints(batches: seq<Batch>): (r: seq<string>) {
    if batches == [] then []
    else (if Inspectable(batches[0]) then [batches[0].url] else []) + Endpoints(batches[1..])
  }

  /** `nextEndpointForInspection`, which also advances the cursor. */
  function NextEndpoint(s: State): (r: (State, Option<string>)) {
    var endpoints := Endpoints(s.batches);
    if endpoints == [] then (s, None)
    else
      var url := NextKey(endpoints, s.lastEndpoint);
      (s.(lastEndpoint := Some(url)), Some(url))
  }

  // ----- Retiring items at a height

  /** Why an armed item stops being sendable: its expiry passed, or it was signed for another window. */
  datatype Retirement = PastExpiry | OtherWindow(canonicalExpiry: U64)

  predicate Retires(why: Retirement, item: Item, height: U64) {
    && item.status == Armed
    && match why
       case PastExpiry => height >= item.expiryHeight
       case OtherWindow(canonical) => item.scheduledHeight <= height && item.expiryHeight != canonical
  }

  function RetirementOutcome(why: Retirement): Outcome {
    match why case PastExpiry => Expired case OtherWindow(_) => NeedsResign
  }

  function RetirementMessage(why: Retirement): Option<string> {
    match why
    case PastExpiry => None
    case OtherWindow(_) => Some("Broadcast height crossed a ZIP 318 expiry boundary.")
  }

  function MakeReceipt(b: Batch, item: Item, outcome: Outcome, height: U64, code: Option<int>,
                       message: Option<string>, updates: seq<ScheduleUpdate>, date: Date): Receipt
  {
    Receipt(b.batchId, item.itemId, b.network, b.accountUuid, b.runId, item.txid, outcome, height,
            code, message, date, updates)
  }

  function RetiredItem(why: Retirement, item: Item, height: U64): Item {
    if Retires(why, item, height) then item.(status := StatusOf(RetirementOutcome(why))) else item
  }

  function RetirementReceipt(why: Retirement, b: Batch, item: Item, height: U64, date: Date): Receipt {
    MakeReceipt(b, item, RetirementOutcome(why), height, None, RetirementMessage(why), [], date)
  }

  /** The receipts for the first `n` items of one batch, in storage order. */
  function BatchReceipts(why: Retirement, b: Batch, height: U64, date: Date, n: nat): (r: seq<Receipt>)
    requires n <= |b.items|
  {
    if n == 0 then []
    else
      BatchReceipts(why, b, height, date, n - 1)
      + if Retires(why, b.items[n - 1], height) then [RetirementReceipt(why, b, b.items[n - 1], height, date)] else []
  }

  predicate RetiresAny(why: Retirement, b: Batch, height: U64) {
    exists k :: 0 <= k < |b.items| && Retires(why, b.items[k], height)
  }

  function RetiredBatch(why: Retirement, b: Batch, height: U64, endpoint: string): Batch {
    if b.url != endpoint || !RetiresAny(why, b, height) then b
    else b.(items := MapItems(b.items, it => RetiredItem(why, it, height)), armedAt := None, nextProofHeight := None)
  }

  /** The receipts for the first `n` batches. */
  function RetiredReceipts(why: Retirement, batches: seq<Batch>, height: U64, endpoint: string, date: Date, n: nat)
    : (r: seq<Receipt>)
    requires n <= |batches|
  {
    if n == 0 then []
    else
      RetiredReceipts(why, batches, height, endpoint, date, n - 1)
      + if batches[n - 1].url != endpoint then []
        else BatchReceipts(why, batches[n - 1], height, date, |batches[n - 1].items|)
  }

  /** The state once the first `n` batches have been scanned. */
  function RetireFirst(s: State, why: Retirement, height: U64, endpoint: string, date: Date, n: nat): (r: State)
    requires n <= |s.batches|
    ensures |r.batches| == |s.batches|
    ensures forall i :: 0 <= i < |s.batches| ==>
              r.batches[i] == if i < n then RetiredBatch(why, s.batches[i], height, endpoint) else s.batches[i]
  {
    s.(batches := seq(|s.batches|, i requires 0 <= i < |s.batches| =>
                        if i < n then RetiredBatch(why, s.batches[i], height, endpoint) else s.batches[i]),
       receipts := s.receipts + RetiredReceipts(why, s.batches, height, endpoint, date, n))
  }

  function Retire(s: State, why: Retirement, height: U64, endpoint: string, date: Date): (r: State)
    ensures |r.batches| == |s.batches|
    ensures forall i :: 0 <= i < |s.batches| ==> r.batches[i] == RetiredBatch(why, s.batches[i], height, endpoint)
  {
    RetireFirst(s, why, height, endpoint, date, |s.batches|)
  }

  function ExpireItems(s: State, height: U64, endpoint: string, date: Date): State {
    Retire(s, PastExpiry, height, endpoint, date)
  }

  const EXPIRY_MODULUS := 34_560

  /** The expiry of transactions signed in the window that holds `height`, unless it overflows. */
  function CanonicalExpiry(height: U64): (r: Option<U64>) {
    var boundary := height - height % EXPIRY_MODULUS;
    if boundary + 2 * EXPIRY_MODULUS < TWO_64 then Some(boundary + 2 * EXPIRY_MODULUS) else None
  }

  function MarkNeedingResign(s: State, height: U64, endpoint: string, date: Date): State {
    match CanonicalExpiry(height)
    case None => s
    case Some(canonical) => Retire(s, OtherWindow(canonical), height, endpoint, date)
  }

  // ----- Selecting and submitting

  predicate Due(item: Item, height: U64, date: Date) {
    && item.status == Armed
    && item.scheduledHeight <= height < item.expiryHeight
    && (item.nextAttemptAt.None? || item.nextAttemptAt.value <= date)
  }

  predicate Selectable(b: Batch, height: U64, endpoint: Option<string>, date: Date) {
    && (endpoint.None? || b.url == endpoint.value)
    && b.armedAt.Some?
    && exists k :: 0 <= k < |b.items| && Due(b.items[k], height, date)
  }

  function DueScopes(batches: seq<Batch>, height: U64, endpoint: Option<string>, date: Date): (r: seq<string>) {
    if batches == [] then []
    else
      (if Selectable(batches[0], height, endpoint, date) then [batches[0].ScopeKey()] else [])
      + DueScopes(batches[1..], height, endpoint, date)
  }

  /** The order in which due items of one batch are sent. */
  predicate Earlier(a: Item, b: Item) {
    a.scheduledHeight < b.scheduledHeight || (a.scheduledHeight == b.scheduledHeight && Less(a.txid, b.txid))
  }

  /** The first due item of `items` in sending order, with ties kept in storage order. */
  function EarliestDue(items: seq<Item>, height: U64, date: Date): (r: Option<nat>)
    ensures r.Some? ==> r.value < |items| && Due(items[r.value], height, date)
    ensures r.None? ==> forall k :: 0 <= k < |items| ==> !Due(items[k], height, date)
  {
    if items == [] then None
    else
      var last := |items| - 1;
      var rest := EarliestDue(items[..last], height, date);
      assert forall k :: 0 <= k < last ==> items[k] == items[..last][k];
      if !Due(items[last], height, date) then rest
      else if rest.None? || Earlier(items[last], items[rest.value]) then Some(last)
      else rest
  }

  /** `selectDue`, which also advances the account cursor. */
  function SelectDue(s: State, height: U64, endpoint: Option<string>, date: Date): (r: (State, Option<Selection>)) {
    var scopes := DueScopes(s.batches, height, endpoint, date);
    if scopes == [] then (s, None)
    else
      var scope := NextKey(scopes, s.lastScope);
      match FirstIndex(s.batches, (b: Batch) => Selectable(b, height, endpoint, date) && b.ScopeKey() == scope)
      case None => (s, None)
      case Some(i) =>
        var b := s.batches[i];
        match EarliestDue(b.items, height, date)
        case None => (s, None)
        case Some(k) =>
          (s.(lastScope := Some(scope)), Some(Selection(b.batchId, b.accountUuid, b.ScopeKey(), b.url, b.items[k])))
  }

  /** The item at the located position if it has the status the transition needs. */
  function Transition(s: State, itemId: string, from: Status): (r: Result<Location, OutboxError>)
    ensures r.Ok? ==> At(s.batches, r.value)
    ensures r.Ok? ==> ItemAt(s.batches, r.value).itemId == itemId && ItemAt(s.batches, r.value).status == from
  {
    match Locate(s.batches, itemId)
    case None => Err(ItemNotFound)
    case Some(at) => if ItemAt(s.batches, at).status == from then Ok(at) else Err(InvalidTransition)
  }

  function BeginSubmission(s: State, itemId: string, attemptId: string, date: Date): (r: Result<State, OutboxError>) {
    match Transition(s, itemId, Armed)
    case Err(e) => Err(e)
    case Ok(at) =>
      Ok(WithItem(s, at, ItemAt(s.batches, at).(status := Submitting, attemptId := Some(attemptId),
                                                attemptStartedAt := Some(date))))
  }

  /** `validateReschedulingAfterAcceptance`. */
  function ValidateRescheduling(s: State, itemId: string, height: U64): (r: Result<(), OutboxError>) {
    match Locate(s.batches, itemId)
    case None => Err(ItemNotFound)
    case Some(at) =>
      if Preflight(PeerExpiries(s.batches[at.batch].items, itemId, height), height) then Ok(())
          else Err(InvalidSchedule)
  }

  // ----- Recording the outcome

  function RecordUncertain(s: State, itemId: string, error: string, date: Date): (r: Result<State, OutboxError>) {
    match Transition(s, itemId, Submitting)
    case Err(e) => Err(e)
    case Ok(at) => Ok(WithItem(s, at, Uncertain(ItemAt(s.batches, at), error, date)))
  }

  function CancelledItem(item: Item, error: string): Item {
    item.(status := Armed, nextAttemptAt := None, lastError := Some(error), attemptId := None, attemptStartedAt := None)
  }

  function RecordCancelled(s: State, itemId: string, error: string): (r: Result<State, OutboxError>) {
    match Transition(s, itemId, Submitting)
    case Err(e) => Err(e)
    case Ok(at) => Ok(WithItem(s, at, CancelledItem(ItemAt(s.batches, at), error)))
  }

  function FinishedItem(item: Item, status: Status): Item {
    item.(status := status, attemptId := None, attemptStartedAt := None, nextAttemptAt := None)
  }

  /** Whatever peers the accepted item has, the randomness covers them. */
  predicate RandomnessFits(s: State, itemId: string, height: U64, random: Randomness) {
    match Locate(s.batches, itemId)
    case None => true
    case Some(at) => Shuffles(random, s.batches[at.batch].items, itemId, height)
  }

  function RecordAccepted(s: State, itemId: string, equivalent: bool, height: U64, code: int, message: string,
                          date: Date, random: Randomness): (r: Result<State, OutboxError>)
    requires RandomnessFits(s, itemId, height, random)
  {
    match Transition(s, itemId, Submitting)
    case Err(e) => Err(e)
    case Ok(at) =>
      var b := s.batches[at.batch];
      if !(0 < b.timingMean <= b.timingMax) then Err(InvalidSchedule)
      else
        match Reschedule(b.items, itemId, height, b.timingMax, random)
        case None => Err(InvalidSchedule)
        case Some(rescheduled) => Ok(AcceptedState(s, at, rescheduled, equivalent, height, code, message, date))
  }

  function AcceptedState(s: State, at: Location, rescheduled: Rescheduled, equivalent: bool, height: U64,
                         code: int, message: string, date: Date): State
    requires At(s.batches, at)
    requires at.item < |rescheduled.items|
  {
    var b := s.batches[at.batch];
    var item := FinishedItem(b.items[at.item], AcceptedAwaiting);
    var b' := b.(items := rescheduled.items[at.item := item]);
    var receipt := MakeReceipt(b, item, if equivalent then AcceptedEquivalent else Accepted, height, Some(code),
                               Some(message), rescheduled.updates, date);
    WithBatch(s, at.batch, b').(receipts := s.receipts + [receipt])
  }

  function RecordRejected(s: State, itemId: string, height: U64, code: int, message: string, date: Date)
    : (r: Result<State, OutboxError>)
  {
    match Transition(s, itemId, Submitting)
    case Err(e) => Err(e)
    case Ok(at) =>
      var b := s.batches[at.batch];
      var item := FinishedItem(b.items[at.item], RejectedAwaiting);
      var b' := b.(items := b.items[at.item := item], armedAt := None, nextProofHeight := None);
      var receipt := MakeReceipt(b', item, Rejected, height, Some(code), Some(message), [], date);
      Ok(WithBatch(s, at.batch, b').(receipts := s.receipts + [receipt]))
  }

  // ----- Acknowledging and removing

  predicate EndsBatch(outcome: Outcome) {
    outcome == Rejected || outcome == Expired || outcome == NeedsResign
  }

  function Unacknowledged(ids: set<ReceiptId>): Receipt -> bool {
    (r: Receipt) => r.Id() !in ids
  }

  function KeptReceipts(receipts: seq<Receipt>, ids: set<ReceiptId>): seq<Receipt> {
    Filter(receipts, Unacknowledged(ids))
  }

  function AckedItemIds(receipts: seq<Receipt>, ids: set<ReceiptId>): set<string> {
    set r | r in receipts && r.Id() in ids :: r.itemId
  }

  /** Batches ended by an acknowledged receipt, with no other receipt left. */
  function EndedBatchIds(receipts: seq<Receipt>, ids: set<ReceiptId>): set<string> {
    var kept := KeptReceipts(receipts, ids);
    set r | r in receipts && r.Id() in ids && EndsBatch(r.outcome) && (forall q :: q in kept ==> q.batchId != r.batchId)
      :: r.batchId
  }

  function WithoutItems(b: Batch, itemIds: set<string>): Batch {
    b.(items := Filter(b.items, NotIn(itemIds)))
  }

  function NotIn(itemIds: set<string>): Item -> bool {
    (it: Item) => it.itemId !in itemIds
  }

  predicate Spent(b: Batch) {
    b.items == [] && b.nextProofHeight.None? && b.sentPendingAt.None?
  }

  /** The batches that are not dropped, without the items of the given ids. */
  function PruneBatches(batches: seq<Batch>, itemIds: set<string>, drop: Batch -> bool): (r: seq<Batch>) {
    if batches == [] then []
    else
      (if drop(batches[0]) then [] else [WithoutItems(batches[0], itemIds)])
      + PruneBatches(batches[1..], itemIds, drop)
  }

  /** The batches an acknowledgement removes: ended ones, and those left with nothing to do. */
  function Finished(receipts: seq<Receipt>, ids: set<ReceiptId>): Batch -> bool {
    (b: Batch) => b.batchId in EndedBatchIds(receipts, ids) || Spent(WithoutItems(b, AckedItemIds(receipts, ids)))
  }

  function AcknowledgeReceipts(s: State, ids: set<ReceiptId>): State {
    s.(batches := PruneBatches(s.batches, AckedItemIds(s.receipts, ids), Finished(s.receipts, ids)),
       receipts := KeptReceipts(s.receipts, ids))
  }

  function RemoveAt<T>(xs: seq<T>, i: nat): seq<T>
    requires i < |xs|
  {
    xs[..i] + xs[i + 1..]
  }

  predicate HasReceipt(receipts: seq<Receipt>, batchId: string) {
    exists m :: 0 <= m < |receipts| && receipts[m].batchId == batchId
  }

  predicate DeliveryStarted(b: Batch) {
    exists k :: 0 <= k < |b.items| && (b.items[k].status == Submitting || b.items[k].attemptCount > 0)
  }

  function DiscardBatch(s: State, batchId: string): (r: Result<(State, bool), OutboxError>) {
    match FindBatch(s.batches, batchId)
    case None => Ok((s, false))
    case Some(i) =>
      if DeliveryStarted(s.batches[i]) || HasReceipt(s.receipts, batchId) then Err(ConflictingBatch)
      else Ok((s.(batches := RemoveAt(s.batches, i)), true))
  }

  predicate InScope(b: Batch, network: string, accountUuid: string) {
    b.network == network && b.accountUuid == accountUuid
  }

  function ScopeBatchIds(batches: seq<Batch>, network: string, accountUuid: string): set<string> {
    set b | b in batches && InScope(b, network, accountUuid) :: b.batchId
  }

  function ScopePrefix(network: string, accountUuid: string): string {
    network + ":" + accountUuid + ":"
  }

  function OutsideBatches(ids: set<string>): Batch -> bool {
    (b: Batch) => b.batchId !in ids
  }

  function OutsideReceipts(ids: set<string>): Receipt -> bool {
    (r: Receipt) => r.batchId !in ids
  }

  function Revoke(s: State, network: string, accountUuid: string): State {
    var ids := ScopeBatchIds(s.batches, network, accountUuid);
    State(Filter(s.batches, OutsideBatches(ids)),
          Filter(s.receipts, OutsideReceipts(ids)),
          if s.lastScope == Some(network + ":" + accountUuid) then None else s.lastScope,
          s.lastEndpoint,
          Filter(s.announced, (id: string) => !(ScopePrefix(network, accountUuid) <= id)))
  }

  // ----- Notices to the user

  /** Whether a batch comes before another when notices are taken in (proof height, id) order. */
  predicate ProofBefore(a: Batch, b: Batch) {
    var ha := if a.nextProofHeight.Some? then a.nextProofHeight.value else 0;
    var hb := if b.nextProofHeight.Some? then b.nextProofHeight.value else 0;
    ha < hb || (ha == hb && Less(a.batchId, b.batchId))
  }

  /** The least batch, in (proof height, id) order, that passes the test. */
  function FirstProof(batches: seq<Batch>, test: Batch -> bool): (r: Option<nat>)
    ensures r.Some? ==> r.value < |batches| && test(batches[r.value])
    ensures r.None? ==> forall i :: 0 <= i < |batches| ==> !test(batches[i])
  {
    if batches == [] then None
    else
      var last := |batches| - 1;
      var rest := FirstProof(batches[..last], test);
      assert forall i :: 0 <= i < last ==> batches[i] == batches[..last][i];
      if !test(batches[last]) then rest
      else if rest.None? || ProofBefore(batches[last], batches[rest.value]) then Some(last)
      else rest
  }

  predicate ProofCandidate(b: Batch, height: U64, endpoint: string) {
    b.nextProofHeight.Some? && b.url == endpoint && b.armedAt.Some? && b.AwaitsProofReady()
        && b.nextProofHeight.value <= height
  }

  function ReadyAt(height: U64, endpoint: string): Batch -> bool {
    (b: Batch) => ProofCandidate(b, height, endpoint)
  }

  /** `markProofReadyIfNeeded`: the new state and the announced batch. */
  function MarkProofReady(s: State, height: U64, endpoint: string, date: Date): (r: (State, Option<string>)) {
    match FirstProof(s.batches, ReadyAt(height, endpoint))
    case None => (s, None)
    case Some(i) =>
      var b := s.batches[i];
      (if b.proofPendingAt.None? then WithBatch(s, i, b.(proofPendingAt := Some(date))) else s, Some(b.batchId))
  }

  predicate VerifiedCandidate(b: Batch, network: string, accountUuid: string, runId: string) {
    b.network == network && b.accountUuid == accountUuid && b.runId == runId && b.armedAt.Some?
        && b.nextProofHeight.Some?
  }

  function VerifiedFor(network: string, accountUuid: string, runId: string): Batch -> bool {
    (b: Batch) => VerifiedCandidate(b, network, accountUuid, runId)
  }

  /** `recordVerifiedProofReadiness`: the new state and whether a batch matched. */
  function RecordVerified(s: State, network: string, accountUuid: string, runId: string,
                          date: Date): (r: (State, bool)) {
    match FirstProof(s.batches, VerifiedFor(network, accountUuid, runId))
    case None => (s, false)
    case Some(i) =>
      var b := s.batches[i];
      var marked :=
        if b.proofNotifiedAt.None? && b.proofPendingAt.None? then WithBatch(s, i, b.(proofPendingAt := Some(date)))
        else s;
      (marked, true)
  }

  predicate PendingProof(b: Batch) {
    b.armedAt.Some? && b.proofPendingAt.Some? && b.proofNotifiedAt.None? && b.nextProofHeight.Some?
  }

  /** `pendingProofReadyNotification`: the verified notice delivered next. */
  function PendingProofReady(s: State): Option<string> {
    match FirstProof(s.batches, b => PendingProof(b))
    case None => None
    case Some(i) => Some(s.batches[i].batchId)
  }

  function AcknowledgeProofReady(s: State, batchId: string, date: Date): (r: Result<State, OutboxError>) {
    match FindBatch(s.batches, batchId)
    case None => Err(BatchNotFound)
    case Some(i) =>
      var b := s.batches[i];
      if b.proofPendingAt.None? then Err(InvalidTransition)
      else Ok(WithBatch(s, i, b.(proofPendingAt := None, proofNotifiedAt := Some(date))))
  }

  /** `markUnverifiedProofReadyNoticeIfNeeded`: the new state and whether the nudge was queued. */
  function MarkHeightNotice(s: State, batchId: string, date: Date): (r: (State, bool)) {
    match FindBatch(s.batches, batchId)
    case None => (s, false)
    case Some(i) =>
      var b := s.batches[i];
      if b.armedAt.Some? && b.nextProofHeight.Some? && b.proofNotifiedAt.None? && b.proofPendingAt.None?
         && b.heightPendingAt.None? && b.heightNoticedAt.None?
      then (WithBatch(s, i, b.(heightPendingAt := Some(date))), true)
      else (s, false)
  }

  function AcknowledgeHeightNotice(s: State, batchId: string, date: Date): (r: Result<State, OutboxError>) {
    match FindBatch(s.batches, batchId)
    case None => Err(BatchNotFound)
    case Some(i) =>
      var b := s.batches[i];
      if b.heightPendingAt.None? then Err(InvalidTransition)
      else Ok(WithBatch(s, i, b.(heightPendingAt := None, heightNoticedAt := Some(date))))
  }

  predicate AllAccepted(items: seq<Item>) {
    forall k :: 0 <= k < |items| ==> items[k].status == AcceptedAwaiting
  }

  /** `markBroadcastCompleteIfNeeded`. */
  function MarkSent(s: State, batchId: string, date: Date): (r: State) {
    match FindBatch(s.batches, batchId)
    case None => s
    case Some(i) =>
      var b := s.batches[i];
      if b.nextProofHeight.None? && b.sentNotifiedAt.None? && batchId !in s.announced && b.items != []
         && AllAccepted(b.items) && b.sentPendingAt.None?
      then WithBatch(s, i, b.(sentPendingAt := Some(date)))
      else s
  }

  /** `acknowledgeBroadcastCompleteNotification`. */
  function AcknowledgeSent(s: State, batchId: string, date: Date): (r: Result<State, OutboxError>) {
    match FindBatch(s.batches, batchId)
    case None => Err(BatchNotFound)
    case Some(i) =>
      var b := s.batches[i];
      if b.sentPendingAt.None? then Err(InvalidTransition)
      else
        var s' := s.(announced := if batchId in s.announced then s.announced else s.announced + [batchId]);
        if b.items == [] && b.nextProofHeight.None? then Ok(s'.(batches := RemoveAt(s.batches, i)))
        else Ok(WithBatch(s', i, b.(sentPendingAt := None, sentNotifiedAt := Some(date))))
  }
}
