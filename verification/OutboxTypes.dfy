/**
 * The records of the Ironwood migration outbox. Dates are whole seconds, the
 * payload digest is symbolic, and a receipt id is the triple it is built from.
 */
module OutboxTypes {
  import opened Common

  type Date = int

  datatype OutboxError =
    | InvalidBatch | ConflictingBatch | BatchNotFound | ItemNotFound
    | InvalidArmRequest | InvalidTransition | InvalidSchedule

  /** A collision-free stand-in for the SHA-256 digest of a payload. */
  datatype Digest = Sha256(data: Bytes)

  datatype Status =
    | Staged | Armed | Submitting
    | AcceptedAwaiting | RejectedAwaiting | ExpiredAwaiting | NeedsResignAwaiting

  predicate Terminal(status: Status) {
    status.AcceptedAwaiting? || status.RejectedAwaiting? || status.ExpiredAwaiting? || status.NeedsResignAwaiting?
  }

  datatype Outcome = Accepted | AcceptedEquivalent | Rejected | Expired | NeedsResign

  /** The terminal status that goes with each recorded outcome. */
  function StatusOf(outcome: Outcome): (status: Status)
    ensures Terminal(status)
  {
    match outcome
    case Accepted | AcceptedEquivalent => AcceptedAwaiting
    case Rejected => RejectedAwaiting
    case Expired => ExpiredAwaiting
    case NeedsResign => NeedsResignAwaiting
  }

  function LowerChar(c: char): char {
    if 'A' <= c <= 'Z' then (c as int + 32) as char else c
  }

  /** `lowercased()`, for the ASCII text that transaction ids are. */
  function Lower(s: string): (r: string)
    ensures |r| == |s|
    ensures forall i :: 0 <= i < |s| ==> r[i] == LowerChar(s[i])
  {
    seq(|s|, i requires 0 <= i < |s| => LowerChar(s[i]))
  }

  datatype Item = Item(
    itemId: string,
    partIndex: nat,
    txid: string,
    raw: Bytes,
    digest: Digest,
    anchorHeight: U64,
    scheduledHeight: U64,
    scheduleStartHeight: U64,
    expiryHeight: U64,
    status: Status,
    attemptCount: nat,
    attemptId: Option<string>,
    attemptStartedAt: Option<Date>,
    nextAttemptAt: Option<Date>,
    lastError: Option<string>)

  /** The initializer of an outbox item: a lower-case txid, the payload's digest and no attempt. */
  function NewItem(itemId: string, partIndex: nat, txid: string, raw: Bytes, anchorHeight: U64,
                   scheduledHeight: U64, scheduleStartHeight: U64, expiryHeight: U64): Item
  {
    Item(itemId, partIndex, Lower(txid), raw, Sha256(raw), anchorHeight, scheduledHeight,
         scheduleStartHeight, expiryHeight, Staged, 0, None, None, None, None)
  }

  datatype Batch = Batch(
    batchId: string,
    network: string,
    accountUuid: string,
    runId: string,
    url: string,
    timingMean: U64,
    timingMax: U64,
    createdAt: Date,
    armedAt: Option<Date>,
    nextProofHeight: Option<U64>,
    proofPendingAt: Option<Date>,
    proofNotifiedAt: Option<Date>,
    heightPendingAt: Option<Date>,
    heightNoticedAt: Option<Date>,
    sentPendingAt: Option<Date>,
    sentNotifiedAt: Option<Date>,
    items: seq<Item>)
  {
    function ScopeKey(): string {
      network + ":" + accountUuid
    }

    /** Whether the batch still owes the user a proof-ready announcement. */
    predicate AwaitsProofReady() {
      proofNotifiedAt.None? && (proofPendingAt.Some? || heightNoticedAt.None? || heightPendingAt.Some?)
    }

    predicate HasStatus(status: Status) {
      exists k :: 0 <= k < |items| && items[k].status == status
    }
  }

  datatype ScheduleUpdate = ScheduleUpdate(itemId: string, scheduledHeight: U64, scheduleStartHeight: U64)

  datatype ReceiptId = ReceiptId(batchId: string, itemId: string, outcome: Outcome)

  datatype Receipt = Receipt(
    batchId: string,
    itemId: string,
    network: string,
    accountUuid: string,
    runId: string,
    txid: string,
    outcome: Outcome,
    remoteHeight: U64,
    responseCode: Option<int>,
    responseMessage: Option<string>,
    recordedAt: Date,
    updates: seq<ScheduleUpdate>)
  {
    function Id(): ReceiptId {
      ReceiptId(batchId, itemId, outcome)
    }
  }

  datatype Selection = Selection(batchId: string, accountUuid: string, scopeKey: string, url: string, item: Item)

  /**
   * A stored snapshot. `announced` holds the batch ids whose "transfers sent"
   * notice was delivered; an absent list reads as the empty one.
   */
  datatype State = State(
    batches: seq<Batch>,
    receipts: seq<Receipt>,
    lastScope: Option<string>,
    lastEndpoint: Option<string>,
    announced: seq<string>)

  const EMPTY_STATE := State([], [], None, None, [])

  /** The outcomes of shuffling the overdue peers and of sampling their delays. */
  datatype Randomness = Randomness(shuffled: seq<nat>, draws: seq<U64>)

  datatype SendResponse = SendResponse(errorCode: int, errorMessage: string)
}
