# Vizor background protocols in Dafny

A model of the parts of the Vizor wallet that run unattended, with proofs of
what they promise. Each part is a specification on values, the imperative form
that the source has, proved equal to it, and theorems over every input, every
run or every reachable state.

- **The Ironwood migration outbox** (`Outbox*.dfy`, `ExecutionGate.dfy`,
  `Rotation.dfy`). Signed transactions are staged, armed, selected when due,
  sent, retried, rescheduled, retired, receipted and acknowledged.
  `OutboxOps` gives every operation as a function of the stored state,
  `OutboxSnapshot` the snapshot that is changed in place, `OutboxStore` the
  all-or-nothing store with the app's calls, `OutboxRunOnce` one run of the
  runner, and `OutboxWorld` the world in which runner steps, app calls, store
  failures, cancellation, process death and the admission gate interleave. The
  imperative parts are proved to be runs of that world. `OutboxInvariant`,
  `OutboxSteps`, `OutboxRecords`, `OutboxRuns` and `OutboxSafety` carry one
  invariant through every step; `OutboxTheorems`, `OutboxAttempts`,
  `OutboxNotices`, `OutboxReopening`, `OutboxRetries`, `OutboxOutcomes`,
  `OutboxEndings`, `OutboxSending` and `OutboxCalls` state what follows, and
  `OutboxFindings` holds the runs in which less follows than expected.
- **The keychain accessibility migration** (`Keychain*.dfy`). A staged copy,
  delete, add and verify protocol against a store whose operations may be
  refused, may fail after taking effect, or may store something else.
- **The Tor route policy** (`TorRoute*.dfy`). Threads that take one atomic load,
  store or locked update at a time, in any interleaving.
- **The notification coordinator** (`Notification*.dfy`). A serial queue whose
  submissions supersede each other, and the callers that wait for an answer. The
  queue loop in `NotificationBlocks` is proved to be a run of that queue.
- **Wire formats** (`Wire*.dfy`). Base-128 varints and fields as in the Protocol
  Buffers encoding, gRPC frames, and the three response parsers, with what they
  read from any bytes.
- **Body framing** (`RelayFraming.dfy`, `Relay.dfy`). The relay's chunked and
  fixed-length output (section 7.1 of RFC 9112) and the gateway's chunk reader.

`dafny verify dfyconfig.toml` checks the whole project.

## What is assumed

The outbox code relies on these without checking them; the world's `Assumed`
and the lemmas that need them say so.

- Item ids are unique over all batches. Staging checks this inside one batch
  only, while lookup and acknowledgement search all batches.
  `OutboxFindings.SharedIdsReached` and `SharedIdsLoseATransaction` show what goes
  wrong otherwise.
- Staged items come from their initializer: lower-case txid, digest of the
  bytes, no attempts.
- A receipt id is the triple of batch, item and outcome that it is built from.
- Two payloads with the same digest are the same payload.
- For the preflight theorem, the height is below 2^64 - 69,120, so that a
  canonical expiry exists. The code skips re-sign marking otherwise.

## Where the code does less than one might expect

Each of these is proved, with the exact condition next to the example.

- The check before broadcasting is weaker than the rescheduler when expiries
  differ (`PreflightTooWeakForMixedExpiries`, `PreflightExact`). Re-sign marking
  is what makes it sufficient (`PreflightIsSound`).
- An attempt can go unreported when a record is removed after its selection and
  staged again, before the transport call (`ReplacedRecordHidesAnAttempt`) or
  after it (`RemovedRecordHidesAnAttempt`). `AttemptEscapesExactly` lists the
  three events that do it. None occurs while no record is staged for an id that
  is not stored although it was sent or is selected
  (`NoLostAttemptWithoutRestaging`). Staging under a drained lease is not enough:
  it rules out what is in flight, not what was sent and removed before
  (`DrainedStagingHidesExactly`).
- Retiring an item clears the watched proof height but not the notice markers.
  A pending verified notice is then no longer inspected
  (`OwedNoticeOutOfSight`, `OwedNoticeInspectable`), and staging the same height
  again, which then counts as another height, announces it a second time while
  the record is stored throughout (`SameHeightAnnouncedTwice`,
  `VerifiedAgainExactly`, `NudgeAgainExactly`), although the comment on the nudge
  (ios/Runner/BackgroundMigrationOutbox.swift:594) speaks of once per proof height.
- Acknowledging the nudge does not affect verification
  (`NudgeKeepsVerifiedNotice`), but where the runner takes a reached height for
  readiness it replaces the announcement of the nudged batch, in exactly one case
  (`NudgeCanReplaceTheMark`, `NudgeReplacesTheMarkExactly`).
- A keychain write that stores something else blocks its account for good, with
  the data safe in staging (`GarbledWriteBlocksForGood`, `BlockedForGood`,
  `FaultFreeRunFinishesExactly`).
- `begin_tor_enable` may clear a client that was published after its section,
  leaving a ready status without a client (`ReadyWithoutClientIsReachable`,
  `ReadyKeepsItsClientExactly`). Requests are refused, never sent direct.
- A callback under way when a scope is resolved may accept the resolved events
  again, which silences the next equal event (`ResolvedScopeCanBeSilenced`,
  `ResolvedScopeStaysForgottenExactly`).
- Without overflow checks the relay's byte counter wraps, so an announced length of
  2^64 - 1 is also met by 2^64 bytes more (`MeetsExactly`).
- An empty block response is refused as malformed, one with unknown fields only
  for its missing height (`UnknownFieldsKeepBlockHeightExactly`).

## Model

| member | source | states |
|---|---|---|
| `OutboxRescheduling.ReschedulingSucceedsExactly` | ios/Runner/BackgroundMigrationOutbox.swift:1050-1107 | for n overdue peers with least expiry e at height h, every draw of delays succeeds when n = 0 or h + n < e and every draw fails otherwise; on success the heights rise strictly in expiry order, each above h and below its own expiry, with gaps of at most the cadence maximum |
| `OutboxRescheduling.PlanExact` | ios/Runner/BackgroundMigrationOutbox.swift:1073-1092 | the same equivalence at any point of the loop, whatever has already elapsed and whatever is still to be drawn |
| `OutboxRescheduling.PlanIsGood` | ios/Runner/BackgroundMigrationOutbox.swift:1073-1092 | what a successful pass promises about every remaining peer: strict order, own expiry, bounded gaps |
| `OutboxRescheduling.PlansComeOutExactly` | ios/Runner/BackgroundMigrationOutbox.swift:1073-1092 | a schedule comes out for some draws if and only if its heights rise by steps of at most the cadence and each leaves room for the peers still to come before its own expiry |
| `OutboxRescheduling.DrawsAreFollowed` | ios/Runner/BackgroundMigrationOutbox.swift:1073-1092 | draws that are the steps of such a schedule are followed to the block |
| `OutboxRescheduling.PreflightExact` | ios/Runner/BackgroundMigrationOutbox.swift:850-870 | the check before broadcasting passes exactly when the i-th expiry exceeds the observed height by at least i + 2, for every i |
| `OutboxRescheduling.FitsImpliesPreflight` | ios/Runner/BackgroundMigrationOutbox.swift:850-870 | peers that can be rescheduled always pass the check |
| `OutboxRescheduling.PreflightExactForCommonExpiry` | ios/Runner/BackgroundMigrationOutbox.swift:850-870 | with one common expiry the check and the rescheduler agree in both directions |
| `OutboxRescheduling.PreflightTooWeakForMixedExpiries` | ios/Runner/BackgroundMigrationOutbox.swift:850-870 | with different expiries they do not: a concrete input passes the check and cannot be rescheduled |
| `OutboxPeers.RescheduleExact` | ios/Runner/BackgroundMigrationOutbox.swift:1050-1107 | on stored items, success depends neither on the shuffle nor on the delays: it is exactly that the overdue peers fit before their least expiry |
| `OutboxPeers.ReschedulePlan` | ios/Runner/BackgroundMigrationOutbox.swift:1061-1106 | a successful rescheduling comes from one plan: its order lists exactly the overdue peers, once each and by expiry, and items and reported updates follow it |
| `OutboxPeers.RescheduleItems` | ios/Runner/BackgroundMigrationOutbox.swift:1061-1130 | an overdue peer moves strictly between the observed height and its own expiry; every other item is left as it was |
| `OutboxPeers.SortedExpiriesOfShuffle` | ios/Runner/BackgroundMigrationOutbox.swift:1066-1070 | sorting any shuffle of the overdue peers by expiry yields the same expiries as sorting the peers themselves |
| `OutboxPeers.RescheduleAround` | ios/Runner/BackgroundMigrationOutbox.swift:916-927 | marking the accepted item before or after rescheduling its peers makes no difference |
| `Rotation.RotationIsFair` | ios/Runner/BackgroundMigrationOutbox.swift:809-817 | over as many rotations as there are distinct keys, each key is chosen exactly once, whatever the cursor held |
| `Rotation.NextKeyExtensional` | ios/Runner/BackgroundMigrationOutbox.swift:809-817 | the choice depends on the set of keys only, not on their order or repetition |
| `OutboxRunner.SelectDueChooses` | ios/Runner/BackgroundMigrationOutbox.swift:789-838 | the chosen item is due, first in (height, txid) order within its batch, and its batch is the first eligible one of the scope after the cursor |
| `OutboxRunner.SelectDueExact` | ios/Runner/BackgroundMigrationOutbox.swift:789-838 | something is chosen if and only if some batch on the endpoint is armed and has a due item |
| `OutboxRunner.SelectionIsFair` | ios/Runner/BackgroundMigrationOutbox.swift:789-838 | over k consecutive selections with the same k due scopes each scope is chosen exactly once |
| `OutboxRunner.InspectionIsFair` | ios/Runner/BackgroundMigrationOutbox.swift:430-449 | over k consecutive inspections of a stable set of k endpoints each endpoint is inspected exactly once |
| `OutboxSubmission.CanonicalWindow` | ios/Runner/BackgroundMigrationOutbox.swift:1159-1165 | the canonical expiry for a height lies more than 34,560 and at most 69,120 blocks above it |
| `OutboxSubmission.PrepareLeavesOneWindow` | ios/Runner/BackgroundMigrationOutbox.swift:721-787 | after expiring and re-sign marking, every overdue armed item of a batch on the endpoint carries the one canonical expiry of the height |
| `OutboxSubmission.SelectedSubmissionIsLegal` | ios/Runner/BackgroundMigrationOutboxRunner.swift:119-156 | a committed selection is armed on the inspected endpoint, scheduled and not expired, with the canonical expiry, and past its retry time |
| `OutboxSubmission.SelectedSubmissionIsAlone` | ios/Runner/BackgroundMigrationOutboxRunner.swift:119-156 | it is the only item being submitted in the whole snapshot, given that interrupted submissions were recovered |
| `OutboxSubmission.RecordAcceptedExact` | ios/Runner/BackgroundMigrationOutbox.swift:907-944 | recording an acceptance commits exactly when the overdue peers of the item fit, for every randomness |
| `OutboxSubmission.PreflightIsSound` | ios/Runner/BackgroundMigrationOutboxRunner.swift:119-156 | once the selecting update has committed, recording the acceptance on that state cannot fail, for any randomness |
| `OutboxTheorems.ReceiptsFindTheirTransactions` | ios/Runner/BackgroundMigrationOutboxChannel.swift:119-153 | in every reachable world each receipt has exactly one item, in its own batch with the matching terminal status, and the listing finds its non-empty bytes with the right digest |
| `OutboxTheorems.TerminalItemsHaveOneReceipt` | ios/Runner/BackgroundMigrationOutboxChannel.swift:119-153 | in every reachable world each terminal item has exactly one receipt |
| `OutboxAttempts.ReportedExactly` | ios/Runner/BackgroundMigrationOutboxChannel.swift:155-179 | a stored item's txid is on the list of its network, account and run if and only if its own attempt is on record or another attempted item of the run has the same txid |
| `OutboxAttempts.ListedMember` | ios/Runner/BackgroundMigrationOutboxChannel.swift:155-179 | the list holds exactly the txids of attempted items of that network, account and run |
| `OutboxAttempts.NoLostAttempt` | ios/Runner/BackgroundMigrationOutboxChannel.swift:155-179 | in every reachable world a stored item counts as attempted if and only if some selection of this very record was sent or may have been; so an item whose bytes were ever handed over is reported unless its record was added after that and not attempted since |
| `OutboxAttempts.AttemptEscapesExactly` | ios/Runner/BackgroundMigrationOutboxChannel.swift:155-179 | the one event that makes a stored, sent item unreported is, exactly: staging a record for an id that was sent and is not stored, sending a selected item whose record was replaced by an untried one, or taking back a selection of a record staged after an earlier send |
| `OutboxAttempts.NoLostAttemptWithoutRestaging` | ios/Runner/BackgroundMigrationOutboxChannel.swift:155-179 | if no record is staged for an id that is not stored although it was sent or is selected, every stored item whose bytes were ever handed over is reported, in every run |
| `OutboxAttempts.CallAddsExactly` | ios/Runner/BackgroundMigrationOutbox.swift:211-299 | staging is the only app call that adds a record, and it adds exactly those of its batch |
| `OutboxAttempts.RunnerAddsNothing` | ios/Runner/BackgroundMigrationOutboxRunner.swift:35-318 | no update of the runner adds a record |
| `OutboxAttempts.DrainedStagingHidesExactly` | ios/Runner/BackgroundMigrationOutboxExecutionGate.swift:36-47 | what a returned drain gives to staging, exactly: nothing is in flight, so staging hides an attempt if and only if it brings back an id that was sent earlier and is no longer stored |
| `OutboxAttempts.DiscardRemovesOnlyUntried` | ios/Runner/BackgroundMigrationOutbox.swift:1008-1022 | discarding removes only records of which no selection was sent or may have been |
| `OutboxTheorems.DrainIsQuiet` | ios/Runner/BackgroundMigrationOutboxExecutionGate.swift:19-47 | while a drained lease is held no run is active or can be admitted, and every send has had its outcome update attempted |
| `OutboxTheorems.DrainHolds` | ios/Runner/BackgroundMigrationOutboxExecutionGate.swift:19-72 | that stays so over any run until the lease itself is resumed or retired; foreign and repeated resumes do not end it |
| `OutboxTheorems.ItemFollowsEdges` | ios/Runner/BackgroundMigrationOutbox.swift:211-381 | one event moves a stored item along one edge of the life cycle at most, never changes txid, bytes, digest, anchor or expiry, never lowers the attempt count, and leaves the schedule below the expiry |
| `OutboxTheorems.ItemLifecycle` | ios/Runner/BackgroundMigrationOutbox.swift:840-977 | the same over whole runs: payload kept, status only moves forward |
| `OutboxTheorems.EverySubmissionIsLegal` | ios/Runner/BackgroundMigrationOutboxRunner.swift:61-66 | in every reachable world a committed selection is legal and alone in flight |
| `OutboxTheorems.AcceptedSubmissionIsRecorded` | ios/Runner/BackgroundMigrationOutboxRunner.swift:252-264 | from a reachable world, with nothing in between, the outcome update for an accepting response commits |
| `OutboxOutcomes.AcceptsExactly` | ios/Runner/BackgroundMigrationOutboxRunner.swift:251-330 | a reply counts as accepted if and only if its code is 0 or one of the nine texts stands somewhere in its message, in letters of either case |
| `OutboxOutcomes.ReplyDecides` | ios/Runner/BackgroundMigrationOutboxRunner.swift:233-316 | for every reachable sent transaction the outcome update writes exactly if the item is still in submission and, for an acceptance, its peers fit; code 0 leaves the item accepted with an accepted receipt, another code with a known text accepted with an equivalent receipt, any other code rejected with a rejected receipt, and no reply armed again with one more attempt, a later retry and no receipt; all other batches stay |
| `OutboxOutcomes.CancelTakesBack` | ios/Runner/BackgroundMigrationOutboxRunner.swift:216-231 | for every reachable selection the cancelling update writes exactly if the item is still in submission; the item alone changes, armed at once with no attempt counted |
| `OutboxOutcomes.ReceiptListsChanges` | ios/Runner/BackgroundMigrationOutbox.swift:907-944 | the receipt of an acceptance lists exactly the peers whose stored schedule changed, each once and with its new schedule |
| `OutboxEndings.StoppedExactly` | ios/Runner/BackgroundMigrationOutbox.swift:721-977 | one event disarms a stored batch if and only if it rejects, expires or marks for signing one of its items, and arms it if and only if it is an arm or recover call granted for it |
| `OutboxEndings.EndStopsBatch` | ios/Runner/BackgroundMigrationOutbox.swift:946-977 | from the event that rejects, expires or marks for signing an item, its batch is not inspected, selected or announced at any height and date, watches no height, and no run selects an item of it before a call arms it again |
| `OutboxEndings.RetiredExactly` | ios/Runner/BackgroundMigrationOutbox.swift:721-787 | in a selecting update an armed item on the endpoint expires if and only if the height has reached its expiry, and is to be signed again if and only if it is due before that and belongs to another window |
| `OutboxEndings.SelectFiles` | ios/Runner/BackgroundMigrationOutbox.swift:721-787 | that update keeps every receipt and adds only receipts filed at its height and date, without a response |
| `OutboxSending.SentNoticeOwedExactly` | ios/Runner/BackgroundMigrationOutbox.swift:675-695 | over every event of every run the transfers-sent notice becomes owed if and only if a committed acceptance leaves every item of the batch accepted and the batch watches no proof height and was never announced |
| `OutboxCalls.RestageExactly` | ios/Runner/BackgroundMigrationOutbox.swift:211-299 | a stored record takes a batch if and only if it is valid, of the same run, changes no node or cadence under a submission, and each transaction is stored identically or resembles none; the new ones are appended, and notices start over exactly as far as height or items are new |
| `OutboxCalls.ArmExactly` | ios/Runner/BackgroundMigrationOutbox.swift:305-331 | arming is granted if and only if each named id has the digest of the bytes stored under it; exactly the named staged items become armed |
| `OutboxCalls.RecoverExactly` | ios/Runner/BackgroundMigrationOutbox.swift:333-381 | recovery is granted if and only if there is a node and every stored transaction is among the txids; then nothing stays staged or in submission, interrupted submissions count as attempts, and the record is armed if anything is left to send |
| `OutboxCalls.AcknowledgingRemovesExactly` | ios/Runner/BackgroundMigrationOutbox.swift:979-1006 | an acknowledgement removes a batch, with whatever items it still holds, if and only if all its receipts are acknowledged and one of them ended its delivery, or nothing is left to do for it; otherwise exactly the acknowledged items |
| `OutboxCalls.DiscardExactly` | ios/Runner/BackgroundMigrationOutbox.swift:1008-1022 | a record is discarded if and only if no item was sent or is being sent and no receipt of it is waiting; all others stay |
| `OutboxCalls.RevokeExactly` | ios/Runner/BackgroundMigrationOutbox.swift:1024-1039 | revoking removes the batches of the scope with their receipts, cursor and history, and nothing else |
| `OutboxCalls.SentAcknowledgedExactly` | ios/Runner/BackgroundMigrationOutbox.swift:697-719 | the transfers-sent acknowledgement is granted if and only if the notice is owed; the id joins the announced ones, and the record goes if and only if it holds and watches nothing |
| `OutboxNotices.TransfersSentOnce` | ios/Runner/BackgroundMigrationOutbox.swift:675-719 | once a batch's notice is acknowledged it is never acknowledged again before its history is dropped, across receipts, pruning and restaging of the same id |
| `OutboxNotices.ProofReadyOnce` | ios/Runner/BackgroundMigrationOutbox.swift:577-660 | each kind of proof-ready notice is acknowledged at most once while the record is stored and not restaged for another proof height |
| `OutboxNotices.OwedIsUndelivered` | ios/Runner/BackgroundMigrationOutbox.swift:114-119 | in every reachable world a pending notice has not been delivered |
| `OutboxReopening.DeliveryHasACause` | ios/Runner/BackgroundMigrationOutbox.swift:577-660 | a notice becomes delivered by its own acknowledgement and by nothing else |
| `OutboxReopening.DeliveredExactly` | ios/Runner/BackgroundMigrationOutbox.swift:211-299 | over any run without a further acknowledgement a delivered notice is still delivered if and only if its record was neither removed nor restaged for another proof height |
| `OutboxReopening.AcknowledgementComesExactly` | ios/Runner/BackgroundMigrationOutbox.swift:484-660 | a continuation that leaves the record in place and its height alone can acknowledge a notice if and only if the record has it coming: pending, or still watching a height with the notice undelivered |
| `OutboxReopening.VerifiedAgainExactly` | ios/Runner/BackgroundMigrationOutbox.swift:289-295 | after an acknowledgement, a record that watches a height can have its verified notice acknowledged again if and only if it was removed or restaged for another height in between |
| `OutboxReopening.NudgeAgainExactly` | ios/Runner/BackgroundMigrationOutbox.swift:289-295 | for the nudge likewise, provided that no verified notice is owed or delivered, or the nudge is queued already |
| `OutboxNotices.OwedNoticeInspectable` | ios/Runner/BackgroundMigrationOutbox.swift:430-437 | an armed batch that owes the verified notice is inspected if and only if it still watches a proof height or has an armed item |
| `OutboxNotices.NudgeKeepsVerifiedNotice` | ios/Runner/BackgroundMigrationOutbox.swift:527-555 | where verification queues the notice, acknowledging the height-only nudge changes nothing about which batch is marked |
| `OutboxNotices.NudgeReplacesTheMarkExactly` | ios/Runner/BackgroundMigrationOutbox.swift:484-525 | where a reached height queues it, the acknowledgement changes the marking if and only if the nudged batch is the first candidate and not yet marked |
| `OutboxFindings.NudgeCanReplaceTheMark` | ios/Runner/BackgroundMigrationOutbox.swift:484-525 | a concrete run in which it does: the batch is no longer marked, nor inspected |
| `OutboxFindings.SameHeightAnnouncedTwice` | ios/Runner/BackgroundMigrationOutbox.swift:289-295 | a concrete run with two acknowledgements of the verified notice for one proof height while the record is stored throughout: staged, armed, verified, acknowledged, expired, staged again, armed, verified, acknowledged |
| `OutboxFindings.OwedNoticeOutOfSight` | ios/Runner/BackgroundMigrationOutbox.swift:430-437 | a concrete run that ends with an armed batch that owes a verified notice and is neither inspected nor announced |
| `OutboxNotices.FirstProofIsFirst` | ios/Runner/BackgroundMigrationOutbox.swift:503-525 | the batch announced as ready is the first candidate in (proof height, id) order |
| `OutboxFindings.SharedIdsReached` | ios/Runner/BackgroundMigrationOutbox.swift:211-331 | two batches with one item id, staged, armed and expired by the operations themselves |
| `OutboxFindings.SharedIdsLoseATransaction` | ios/Runner/BackgroundMigrationOutbox.swift:979-999 | in that state acknowledging the receipt of one batch leaves the other batch's receipt without its bytes |
| `OutboxFindings.ReplacedRecordHidesAnAttempt` | ios/Runner/BackgroundMigrationOutboxChannel.swift:155-179 | a concrete run in which a record is removed and staged again between selection and send: the bytes are sent, the record shows no attempt, and a discard would remove it |
| `OutboxFindings.RemovedRecordHidesAnAttempt` | ios/Runner/BackgroundMigrationOutboxChannel.swift:155-179 | the same with the record removed before the send and staged again after it |
| `OutboxRetries.StageStores` | ios/Runner/BackgroundMigrationOutbox.swift:211-299 | after staging the record holds every transaction of the batch and, in place, what it held before; every other record, receipt and cursor is as it was |
| `OutboxRetries.StagingAgain` | ios/Runner/BackgroundMigrationOutbox.swift:211-299 | staging the same batch again changes nothing |
| `OutboxRetries.ArmingAgain` | ios/Runner/BackgroundMigrationOutbox.swift:305-331 | arming again, at any later date, changes nothing |
| `OutboxRetries.RecoveringAgain` | ios/Runner/BackgroundMigrationOutbox.swift:333-381 | recovering again, at any later date, changes nothing and counts no second attempt |
| `OutboxRetries.RecoveringInterruptedAgain` | ios/Runner/BackgroundMigrationOutbox.swift:412-428 | recovering interrupted submissions again changes nothing |
| `OutboxRetries.RetiringAgain` | ios/Runner/BackgroundMigrationOutbox.swift:721-787 | retiring again at the same height changes nothing and files no second receipt |
| `OutboxRetries.AcknowledgingAgain` | ios/Runner/BackgroundMigrationOutbox.swift:979-1006 | acknowledging the same receipts again changes nothing |
| `OutboxRetries.DiscardingAgain` | ios/Runner/BackgroundMigrationOutbox.swift:1008-1022 | a second discard finds nothing and says so |
| `OutboxRetries.RevokingAgain` | ios/Runner/BackgroundMigrationOutbox.swift:1024-1039 | revoking again changes nothing, and nothing of the scope is left |
| `OutboxRetries.RetryWaits` | ios/Runner/BackgroundMigrationOutbox.swift:1195-1202 | after an unknown outcome an item is not due again for 60, 300, 900 or 3600 seconds, by its number of attempts |
| `OutboxInvariant.BatchStepKeepsValid` | ios/Runner/BackgroundMigrationOutbox.swift:721-977 | any change of one batch along the life cycle that adds a receipt for each newly finished item keeps the whole invariant of the outbox |
| `OutboxRecords.StageKeeps` | ios/Runner/BackgroundMigrationOutbox.swift:211-299 | staging keeps the invariant and the life of every stored item, given item ids that no other batch uses |
| `OutboxSteps.ArmKeeps` | ios/Runner/BackgroundMigrationOutbox.swift:305-331 | arming keeps the invariant and the life of every item |
| `OutboxSteps.RecoverKeeps` | ios/Runner/BackgroundMigrationOutbox.swift:333-381 | recovering a batch keeps them and counts each interrupted attempt |
| `OutboxSteps.RecoverInterruptedKeeps` | ios/Runner/BackgroundMigrationOutbox.swift:412-428 | recovering interrupted submissions keeps them and leaves nothing in submission |
| `OutboxSteps.RetireKeeps` | ios/Runner/BackgroundMigrationOutbox.swift:721-787 | expiring and re-sign marking keep them: each retired item gets its receipt |
| `OutboxSteps.BeginSubmissionKeeps` | ios/Runner/BackgroundMigrationOutbox.swift:840-848 | beginning a submission keeps them |
| `OutboxSteps.RecordUncertainKeeps` | ios/Runner/BackgroundMigrationOutbox.swift:872-891 | recording an unknown outcome keeps them |
| `OutboxSteps.RecordCancelledKeeps` | ios/Runner/BackgroundMigrationOutbox.swift:893-905 | recording a cancellation before the send keeps them |
| `OutboxSteps.RecordAcceptedKeeps` | ios/Runner/BackgroundMigrationOutbox.swift:907-944 | recording an acceptance, with the rescheduling of its peers, keeps them |
| `OutboxSteps.RecordRejectedKeeps` | ios/Runner/BackgroundMigrationOutbox.swift:946-977 | recording a rejection keeps them |
| `OutboxRecords.AcknowledgeReceiptsKeeps` | ios/Runner/BackgroundMigrationOutbox.swift:979-1006 | acknowledging receipts, with the pruning of items and batches, keeps the bijection between receipts and terminal items |
| `OutboxRecords.DiscardBatchKeeps` | ios/Runner/BackgroundMigrationOutbox.swift:1008-1022 | discarding keeps the invariant |
| `OutboxRecords.RevokeKeeps` | ios/Runner/BackgroundMigrationOutbox.swift:1024-1039 | revoking a scope keeps the invariant |
| `OutboxRecords.AcknowledgeSentKeeps` | ios/Runner/BackgroundMigrationOutbox.swift:697-719 | acknowledging the transfers-sent notice, which may remove an empty record, keeps the invariant |
| `OutboxSafety.StepKeeps` | ios/Runner/BackgroundMigrationOutboxRunner.swift:35-318 | every event of the runner, the gate, the app or the process keeps the invariant of the world |
| `OutboxSafety.RunKeeps` | ios/Runner/BackgroundMigrationOutboxRunner.swift:35-318 | so does every run of events, in any interleaving |
| `OutboxSnapshot.Snapshot.Stage` | ios/Runner/BackgroundMigrationOutbox.swift:211-299 | the in-place staging, item by item, yields the staged state or the same error as the specification |
| `OutboxSnapshot.Snapshot.AddItems` | ios/Runner/BackgroundMigrationOutbox.swift:246-288 | the loop over incoming items stops at the first contradiction and otherwise appends exactly the new ones |
| `OutboxSnapshot.Snapshot.ArmBatch` | ios/Runner/BackgroundMigrationOutbox.swift:305-331 | arms exactly the named staged items of the batch whose digests match |
| `OutboxSnapshot.Snapshot.RecoverBatch` | ios/Runner/BackgroundMigrationOutbox.swift:333-381 | turns interrupted items into uncertain ones and staged into armed ones, item by item |
| `OutboxSnapshot.Snapshot.RecoverInterruptedSubmissions` | ios/Runner/BackgroundMigrationOutbox.swift:412-428 | the two nested loops recover every interrupted item and nothing else |
| `OutboxSnapshot.Snapshot.NextEndpointForInspection` | ios/Runner/BackgroundMigrationOutbox.swift:430-449 | returns and remembers the endpoint after the last one inspected |
| `OutboxSnapshot.Snapshot.RetireItems` | ios/Runner/BackgroundMigrationOutbox.swift:721-787 | the nested loops retire what the height retires, with one receipt each in storage order, on the endpoint only |
| `OutboxSnapshot.Snapshot.ExpireItems` | ios/Runner/BackgroundMigrationOutbox.swift:721-748 | retires the armed items whose expiry has passed |
| `OutboxSnapshot.Snapshot.MarkDueItemsNeedingResign` | ios/Runner/BackgroundMigrationOutbox.swift:750-787 | retires due items whose expiry is not the canonical one for the height |
| `OutboxSnapshot.Snapshot.SelectDue` | ios/Runner/BackgroundMigrationOutbox.swift:789-838 | the search over batches returns the specified selection and moves the account cursor |
| `OutboxSnapshot.Snapshot.EarliestDueItem` | ios/Runner/BackgroundMigrationOutbox.swift:819-827 | one pass finds the first due item in (height, txid) order |
| `OutboxSnapshot.Snapshot.ItemLocation` | ios/Runner/BackgroundMigrationOutbox.swift:1041-1048 | finds the first item with the id over all batches |
| `OutboxSnapshot.Snapshot.BeginSubmission` | ios/Runner/BackgroundMigrationOutbox.swift:840-848 | marks the armed item as submitting, or fails without a change |
| `OutboxSnapshot.Snapshot.ValidateReschedulingAfterAcceptance` | ios/Runner/BackgroundMigrationOutbox.swift:850-870 | the loop over sorted expiries answers the specified check |
| `OutboxSnapshot.Snapshot.RecordUncertain` | ios/Runner/BackgroundMigrationOutbox.swift:872-891 | re-arms with one more attempt and a later retry |
| `OutboxSnapshot.Snapshot.RecordCancelledBeforeSubmission` | ios/Runner/BackgroundMigrationOutbox.swift:893-905 | re-arms without counting an attempt |
| `OutboxSnapshot.Snapshot.RescheduleOverdueItems` | ios/Runner/BackgroundMigrationOutbox.swift:1050-1107 | one pass over the sorted peers places each and collects the updates, exactly as the plan does |
| `OutboxSnapshot.Snapshot.RecordAccepted` | ios/Runner/BackgroundMigrationOutbox.swift:907-944 | reschedules the peers, finishes the item and files one receipt |
| `OutboxSnapshot.Snapshot.RecordRejected` | ios/Runner/BackgroundMigrationOutbox.swift:946-977 | finishes the item and files one receipt, as the specification whose effect on the batch is `EndStopsBatch` |
| `OutboxSnapshot.Snapshot.AcknowledgeReceipts` | ios/Runner/BackgroundMigrationOutbox.swift:979-1006 | the three pruning passes leave what the one-pass specification leaves |
| `OutboxSnapshot.Snapshot.MarkProofReadyIfNeeded` | ios/Runner/BackgroundMigrationOutbox.swift:484-525 | marks the first ready batch in (height, id) order |
| `OutboxSnapshot.Snapshot.MarkBroadcastCompleteIfNeeded` | ios/Runner/BackgroundMigrationOutbox.swift:675-695 | marks the notice once all items are accepted and the id was never announced |
| `OutboxSnapshot.PlaceIsPlan` | ios/Runner/BackgroundMigrationOutbox.swift:1073-1105 | placing peers item by item leaves what applying the whole plan leaves |
| `OutboxSnapshot.PruneInPasses` | ios/Runner/BackgroundMigrationOutbox.swift:979-1006 | removing batches, then items, then spent batches is one pruning pass |
| `OutboxStore.Store.FirstUpdate` | ios/Runner/BackgroundMigrationOutboxRunner.swift:61-66 | the first update commits recovery and the next endpoint, or changes nothing |
| `OutboxStore.Store.SelectUpdate` | ios/Runner/BackgroundMigrationOutboxRunner.swift:119-156 | the selecting update commits as a whole or leaves the stored state as it was |
| `OutboxStore.Store.CancelUpdate` | ios/Runner/BackgroundMigrationOutboxRunner.swift:344-352 | the update for a cancelled submission, ignored when it fails |
| `OutboxStore.Store.OutcomeUpdate` | ios/Runner/BackgroundMigrationOutboxRunner.swift:233-290 | the update after the transport call commits as a whole or leaves the stored state as it was; what it commits for each reply is `ReplyDecides` |
| `OutboxStore.HandleCalls` | ios/Runner/BackgroundMigrationOutboxChannel.swift:10-206 | any sequence of the app's calls, performed one after the other on the store, is a run of the world from whatever position the runner is in; it moves neither runner nor gate and keeps the invariant |
| `OutboxStore.HandleGate` | ios/Runner/BackgroundMigrationOutboxExecutionGate.swift:36-72 | every gate call of the app is a step of the world, keeps its invariant, and ends the hold of no drained lease that it does not release |
| `OutboxRunOnce.RunOnce` | ios/Runner/BackgroundMigrationOutboxRunner.swift:35-318 | whatever the network, the store, cancellation and the app between its updates do, one run is a possible run of the world, leaves the gate as it was, sends at most once, attempts one outcome update for what it sent, keeps the invariant, and reports acceptance whenever the network accepted, the store is there and the app did not interfere |
| `OutboxRunOnce.RunChosen` | ios/Runner/BackgroundMigrationOutboxRunner.swift:216-316 | the part from the selection on: cancelled without a send, or one send and one outcome update; acceptance is reported exactly when the network accepts, the store is there and the update commits |
| `OutboxRunOnce.RunSent` | ios/Runner/BackgroundMigrationOutboxRunner.swift:233-316 | the update after the transport call and what is reported: accepted exactly when it was recorded, with the next height at which the endpoint has something to do |
| `OutboxRunOnce.RunAtTip` | ios/Runner/BackgroundMigrationOutboxRunner.swift:109-231 | the part from the tip on: an accepted, undisturbed send is always recorded if the store is there, and without a selection the run reports what `Unselected` says of the stored state |
| `OutboxRunOnce.UnselectedExactly` | ios/Runner/BackgroundMigrationOutboxRunner.swift:157-190 | with nothing retired at the height the run reports no work if and only if the endpoint has nothing to do at any height, and otherwise the least height at which it has |
| `OutboxRunner.NextActionHeight` | ios/Runner/BackgroundMigrationOutbox.swift:451-463 | the least height at which a batch of the endpoint has an armed item scheduled or a proof height to announce |
| `OutboxRunOnce.AcceptanceCommits` | ios/Runner/BackgroundMigrationOutboxRunner.swift:252-264 | after a committed selection the acceptance update commits for every random source |
| `ExecutionGate.Gate.TryBeginRun` | ios/Runner/BackgroundMigrationOutboxExecutionGate.swift:19-25 | admits a run exactly when none is active and no lease is held |
| `ExecutionGate.Gate.FinishRun` | ios/Runner/BackgroundMigrationOutboxExecutionGate.swift:27-32 | ends the run and touches no lease |
| `ExecutionGate.Gate.Pause` | ios/Runner/BackgroundMigrationOutboxExecutionGate.swift:36-40 | registers the lease; a second time changes nothing |
| `ExecutionGate.Gate.Resume` | ios/Runner/BackgroundMigrationOutboxExecutionGate.swift:67-72 | releases that lease only and says whether any is left |
| `ExecutionGate.Gate.DiscardStopLeases` | ios/Runner/BackgroundMigrationOutboxExecutionGate.swift:52-62 | retires every stop lease of the scope, never a lease that is not a stop lease, adds none, and leaves a running run running |
| `KeychainTheorems.EveryFaultKeepsData` | ios/Runner/KeychainAccessibilityMigrator.swift:82-175 | whatever the store does to any operation (refuse it, fail after it, store something else), an account's data stays alone in the canonical service or verified in staging |
| `KeychainTheorems.RunsKeepData` | ios/Runner/KeychainAccessibilityMigrator.swift:82-175 | the same over any number of failing runs |
| `KeychainTheorems.FinishedRunMigrates` | ios/Runner/KeychainAccessibilityMigrator.swift:93-115 | a run that finishes leaves each account with one canonical item in the target class and with its data, nothing staged, the flag set, and no new account |
| `KeychainTheorems.FlagMeansMoved` | ios/Runner/KeychainAccessibilityMigrator.swift:111-115 | the completion flag is set exactly when a run succeeds, and then everything has moved |
| `KeychainTheorems.RunsKeepFlag` | ios/Runner/KeychainAccessibilityMigrator.swift:82-115 | over any number of runs the flag means that everything has moved |
| `KeychainTheorems.FaultFreeRunFinishesExactly` | ios/Runner/KeychainAccessibilityMigrator.swift:118-175 | from any state of both services a run without faults finishes if and only if each account has at most one item in each, known classes, and copies that agree |
| `KeychainTheorems.FineMigrates` | ios/Runner/KeychainAccessibilityMigrator.swift:130-175 | without faults an account ends with its surviving item, attributes included, in the target class, and is counted exactly when it was moved |
| `KeychainTheorems.HonestRunsAreFaithful` | ios/Runner/KeychainAccessibilityMigrator.swift:130-175 | with a store that only refuses or fails, an item is never absent and its copies differ from it in class only, over any number of runs |
| `KeychainTheorems.InterruptedRunsRecover` | ios/Runner/KeychainAccessibilityMigrator.swift:82-175 | after any number of interrupted runs the first run without faults finishes and every account holds its original item in the target class |
| `KeychainTheorems.GarbledWriteBlocksForGood` | ios/Runner/KeychainAccessibilityMigrator.swift:197-210 | one write that stores something else can leave an account that no later run finishes, its data safe in staging |
| `KeychainTheorems.BlockedForGood` | ios/Runner/KeychainAccessibilityMigrator.swift:130-175 | an account outside the condition of `FaultFreeRunFinishesExactly` stays as it is over any number of runs, whatever the store does, and the flag is never set |
| `KeychainTheorems.IndexExact` | ios/Runner/KeychainAccessibilityMigrator.swift:118-128 | indexing succeeds exactly when no account occurs twice, and then gives each account's single item |
| `KeychainTheorems.MigrateKeeps` | ios/Runner/KeychainAccessibilityMigrator.swift:130-175 | migrating one account touches no other, keeps its data at every stop, and on success has moved it |
| `KeychainMigrator.SecureStore.Items` | ios/Runner/KeychainAccessibilityMigrator.swift:236-292 | reads one service or fails |
| `KeychainMigrator.SecureStore.Add` | ios/Runner/KeychainAccessibilityMigrator.swift:294-325 | adds in the target class unless refused or occupied |
| `KeychainMigrator.SecureStore.Delete` | ios/Runner/KeychainAccessibilityMigrator.swift:327-336 | deletes every item of the account |
| `KeychainMigrator.SecureStore.Verify` | ios/Runner/KeychainAccessibilityMigrator.swift:197-210 | reads back one item in the target class with the expected data |
| `KeychainMigrator.SecureStore.Migrate` | ios/Runner/KeychainAccessibilityMigrator.swift:130-175 | the branches and operations of one account, in order |
| `KeychainMigrator.SecureStore.IndexedItems` | ios/Runner/KeychainAccessibilityMigrator.swift:118-128 | the loop indexes by account and stops at the first duplicate |
| `KeychainMigrator.SecureStore.EnsureFirstUnlockThisDeviceOnly` | ios/Runner/KeychainAccessibilityMigrator.swift:82-116 | refuses unknown services; otherwise the loop over accounts leaves vault, flag and count as specified |
| `TorRoute.StepKeeps` | rust/src/network_privacy.rs:100-219 | every atomic step of every thread keeps the invariant: locks, counts, wakers, polls and status |
| `TorRoute.RunKeeps` | rust/src/network_privacy.rs:100-219 | so does every interleaving |
| `TorRouteTheorems.BeginCutsOffEveryLease` | rust/src/network_privacy.rs:100-118 | once the epoch has moved, no lease that read it before runs its inner poll again in any interleaving, also after direct routing is restored |
| `TorRouteTheorems.CutLeaseNeverPolls` | rust/src/network_privacy.rs:176-199 | a lease of an earlier epoch never runs its inner poll |
| `TorRouteTheorems.InnerPollIsDirect` | rust/src/network_privacy.rs:176-199 | no inner poll is made while a Tor request stands, nor by a lease that is not live and current; when one is made at all is `PollPollsExactly` |
| `TorRoutePolls.PollPollsExactly` | rust/src/network_privacy.rs:180-202 | a poll that runs to its end in any interleaving reads the epoch if and only if Tor was not desired when it read the flag, makes exactly one inner poll if that epoch was its lease's and none otherwise, and has its waker registered before |
| `TorRoutePolls.LonePoll` | rust/src/network_privacy.rs:180-202 | an undisturbed poll ends, and reaches its connection if and only if Tor is not desired and its lease is current |
| `TorRoutePolls.LoneLease` | rust/src/network_privacy.rs:171-179 | an undisturbed creation adds one live lease with a fresh id and the current epoch, and counts it |
| `TorRoutePolls.LoneDrop` | rust/src/network_privacy.rs:209-220 | an undisturbed drop removes the lease and its waker, and counts it off |
| `TorRoutePolls.LoneBegin` | rust/src/network_privacy.rs:100-118 | an undisturbed Tor request leaves Tor desired and bootstrapping without a client, every lease so far behind the epoch, and every registered waker woken |
| `TorRoutePolls.LoneBootstrap` | rust/src/network_privacy.rs:355-440 | while an undisturbed bootstrap runs, Tor is desired and the status says bootstrapping |
| `TorRoutePolls.LoneEnable` | rust/src/network_privacy.rs:355-483 | undisturbed, it ends ready with a client, or failed, without one and still desired, exactly as the bootstrap itself ends |
| `TorRoutePolls.LoneFail` | rust/src/network_privacy.rs:550-572 | an abandoned enable leaves the route failed while Tor is desired, and its status alone otherwise |
| `TorRoutePolls.LoneDisable` | rust/src/network_privacy.rs:532-544 | an undisturbed switch to direct leaves Tor undesired, the status direct and no client |
| `TorRoutePolls.LoneResolve` | rust/src/network_privacy.rs:590-625 | an undisturbed request is given one of six answers, each in exactly one kind of state: none, a shared or an isolated client, or the refusal that names bootstrapping, failure or absence |
| `TorRouteTheorems.NoDirectPollUntilRestored` | rust/src/network_privacy.rs:100-199 | from the Tor request until direct routing is restored no lease at all runs its inner poll |
| `TorRouteTheorems.StaleLeaseIsWoken` | rust/src/network_privacy.rs:100-118 | a live lease that registered and fell behind has been woken or its waker is in a request under way |
| `TorRouteWakes.BeginWakesEveryPolledLease` | rust/src/network_privacy.rs:100-118 | from the epoch change to the return of `begin_tor_enable`: every lease that was live, current and had polled has been woken, in every interleaving |
| `TorRouteWakes.RunKeepsWoken` | rust/src/network_privacy.rs:100-219 | in every interleaving a lease that is woken or about to be is behind the epoch or dropped, and has registered |
| `TorRouteTheorems.DrainSeesNoLease` | rust/src/network_privacy.rs:152-164 | a drain that sees zero sees no live lease and none half created or half dropped |
| `TorRouteTheorems.NoClientExactly` | rust/src/network_privacy.rs:590-612 | a resolution yields no client exactly when it read that Tor is not desired, and a client exactly when desired, ready and present |
| `TorRouteTheorems.ResolutionFailsClosed` | rust/src/network_privacy.rs:614-625 | a call wholly between the Tor request and the next restoration is never told to go direct, with slot, flag and status read in separate steps |
| `TorRouteTheorems.ReadyMeansDesired` | rust/src/network_privacy.rs:450-483 | in every reachable state with the slot lock free, a ready status means that Tor is desired |
| `TorRouteTheorems.ReadyKeepsItsClientExactly` | rust/src/network_privacy.rs:100-118 | a ready status loses its client in exactly one way: `begin_tor_enable` clears the slot after a bootstrap was published behind its section |
| `TorRouteTheorems.ReadyWithoutClientIsReachable` | rust/src/network_privacy.rs:100-118 | that interleaving is reachable; requests are then refused as unavailable |
| `NotificationTheorems.StepKeeps` | ios/Runner/MigrationPreparationNotificationCoordinator.swift:240-485 | every executed block and every callback keeps the accounts: whoever waits waits for an outstanding add of the current generation, and each call is queued, waiting or answered |
| `NotificationTheorems.RunKeeps` | ios/Runner/MigrationPreparationNotificationCoordinator.swift:240-485 | so does every interleaving |
| `NotificationTheorems.EveryCallIsAnsweredOnce` | ios/Runner/MigrationPreparationNotificationCoordinator.swift:240-485 | no call is ever answered twice, and once everything has called back each has been answered exactly once |
| `NotificationTheorems.SettledAnswersEveryone` | ios/Runner/MigrationPreparationNotificationCoordinator.swift:240-485 | with an empty queue and no request outstanding nobody waits |
| `NotificationTheorems.ActivityIsBounded` | ios/Runner/MigrationPreparationNotificationCoordinator.swift:430-485 | without new calls no run is longer than the work asked for, so everything settles |
| `NotificationTheorems.UnsettledGoesOn` | ios/Runner/MigrationPreparationNotificationCoordinator.swift:430-485 | as long as something is under way some step can be taken without a new call |
| `NotificationTheorems.SupersededCallbackIsIgnored` | ios/Runner/MigrationPreparationNotificationCoordinator.swift:461-468 | a superseded callback changes nothing and answers nobody |
| `NotificationTheorems.AcceptanceHasACause` | ios/Runner/MigrationPreparationNotificationCoordinator.swift:461-474 | a fingerprint becomes accepted only through the current submission that carried its event or through suppression while pending |
| `NotificationAnswers.FalseExactly` | ios/Runner/MigrationPreparationNotificationCoordinator.swift:415-485 | in every step a caller is told false if and only if it waits and the step executes the failing callback of the current submission or a teardown; no fingerprint becomes accepted by that |
| `NotificationAnswers.TrueExactly` | ios/Runner/MigrationPreparationNotificationCoordinator.swift:240-485 | a caller is told true if and only if it waits and the current submission is registered or the block leaves nothing to announce, or every event of its call was accepted already |
| `NotificationAnswers.RegisteredForItsCallers` | ios/Runner/MigrationPreparationNotificationCoordinator.swift:430-474 | from the call of an event that was not accepted, over every run in which no block withdraws it, the submission that is registered carries its key, with that event or one of a later call, and its fingerprint is then accepted |
| `NotificationAnswers.WithdrawsExactly` | ios/Runner/MigrationPreparationNotificationCoordinator.swift:240-428 | a pending event goes away if and only if it is resolved, not retained, suppressed, cleared, or its window has passed at a call that does not bring it again |
| `NotificationAnswers.SubmitsExactly` | ios/Runner/MigrationPreparationNotificationCoordinator.swift:240-460 | a block submits if and only if it has news, a shown summary to replace or one to re-arm, and then a new generation that speaks for exactly what is pending |
| `NotificationAnswers.RechecksExactly` | ios/Runner/MigrationPreparationNotificationCoordinator.swift:278-356 | resolving or retaining asks whether the summary was shown if and only if events remain and, for retaining, some were dropped |
| `NotificationTheorems.ResolvedScopeStaysForgottenExactly` | ios/Runner/MigrationPreparationNotificationCoordinator.swift:278-325 | over any run after `resolve` has been executed, no fingerprint of the scope is accepted if and only if no callback of a then current submission that carried an event of the scope, and no suppression with one pending, is executed |
| `NotificationTheorems.ResolvedScopeCanBeSilenced` | ios/Runner/MigrationPreparationNotificationCoordinator.swift:278-325 | a concrete run in which such a callback comes after `resolve` and the next equal event is answered as submitted without an alert |
| `NotificationTheorems.ResolveKeepsTheWindow` | ios/Runner/MigrationPreparationNotificationCoordinator.swift:278-303 | resolving removes the events of the scope and no other, never extends an open window, and leaves no past deadline that would expire the remaining scopes |
| `NotificationTheorems.RetainKeepsTheWindow` | ios/Runner/MigrationPreparationNotificationCoordinator.swift:327-356 | the same for retaining scopes, which asks for a recheck only when it dropped something |
| `NotificationTheorems.EnqueueJoinsTheBatch` | ios/Runner/MigrationPreparationNotificationCoordinator.swift:240-276 | a call into an open window keeps its deadline and earlier events, replacing only events of the same key |
| `NotificationTheorems.EnqueueOpensAWindow` | ios/Runner/MigrationPreparationNotificationCoordinator.swift:240-276 | a batch submitted without a deadline gets one thirty seconds ahead |
| `NotificationBlocks.Coordinator.EnqueueEvent` | ios/Runner/MigrationPreparationNotificationCoordinator.swift:65-76 | stores the event unless accepted or already pending |
| `NotificationBlocks.Coordinator.ExpireBatchIfNeeded` | ios/Runner/MigrationPreparationNotificationCoordinator.swift:120-124 | drops a batch whose deadline has passed |
| `NotificationBlocks.Coordinator.Enqueue` | ios/Runner/MigrationPreparationNotificationCoordinator.swift:240-276 | the block of `enqueue`, with its loop over events |
| `NotificationBlocks.Coordinator.SchedulePendingSummary` | ios/Runner/MigrationPreparationNotificationCoordinator.swift:430-460 | a new generation takes over every waiter, or the caller is answered at once |
| `NotificationBlocks.Coordinator.FlushSubmissionCompletions` | ios/Runner/MigrationPreparationNotificationCoordinator.swift:479-485 | answers every waiter once and leaves none |
| `NotificationBlocks.Dispatcher.Submit` | ios/Runner/MigrationPreparationNotificationCoordinator.swift:240-428 | a call is a step of the queue's world: queued, or answered on the spot when it carries no event |
| `NotificationBlocks.Dispatcher.ExecuteNext` | ios/Runner/MigrationPreparationNotificationCoordinator.swift:240-428 | executing the next block in place is a step of the queue's world; which answers that gives is `TrueExactly` and `FalseExactly` |
| `NotificationBlocks.Dispatcher.Settle` | ios/Runner/MigrationPreparationNotificationCoordinator.swift:430-485 | executing what is queued while the notification centre reports as it likes ends, is a run of the queue's world without new calls, and leaves every call made so far answered exactly once |
| `Wire.VarintRoundTrip` | ios/Runner/NativeLightwalletdClient.swift:383-440 | reading undoes encoding for every 64-bit value and takes exactly its bytes, at most ten |
| `Wire.VarintFits` | ios/Runner/NativeLightwalletdClient.swift:426-440 | whatever bytes arrive, the value read stays within 64 bits |
| `Wire.VarintPrefix` | ios/Runner/NativeLightwalletdClient.swift:426-440 | bytes behind a varint do not change it |
| `Wire.FrameRoundTrip` | ios/Runner/NativeLightwalletdClient.swift:358-407 | unframing undoes framing for payloads below 2^32 bytes, whatever follows |
| `Wire.FieldsAppend` | ios/Runner/NativeLightwalletdClient.swift:442-471 | messages that end on a field boundary are read one after the other, and a malformed rest makes the whole malformed |
| `Wire.UnknownFieldsKeepTransaction` | ios/Runner/NativeLightwalletdClient.swift:243-262 | well-formed unknown fields inserted at any field boundary do not change the parsed transaction |
| `Wire.UnknownFieldsKeepSendResponse` | ios/Runner/NativeLightwalletdClient.swift:310-356 | nor the parsed send response |
| `Wire.UnknownFieldsKeepBlockHeightExactly` | ios/Runner/NativeLightwalletdClient.swift:165-188 | nor the block height, except in an empty message, which is refused differently |
| `Wire.BytesMessageRoundTrip` | ios/Runner/NativeLightwalletdClient.swift:366-381 | the request messages read back as their one field with its bytes |
| `WireReplies.ReplyRoundTrip` | ios/Runner/NativeLightwalletdClient.swift:310-356 | the frame of any signed 32-bit code, sign-extended, and any text whose bytes decode parses to exactly that code and text, in either order; without the code field the code is 0 |
| `WireReplies.LastCodeCounts` | ios/Runner/NativeLightwalletdClient.swift:310-356 | whatever well-formed fields surround it, the last code field is the code |
| `WireReplies.LastTextCounts` | ios/Runner/NativeLightwalletdClient.swift:310-356 | likewise the last text field is the message |
| `WireReplies.OmittedFieldsDefault` | ios/Runner/NativeLightwalletdClient.swift:310-356 | without a code field the code is 0, without a text field the message is empty |
| `WireReplies.ReplyReadsExactly` | ios/Runner/NativeLightwalletdClient.swift:310-356 | a framed reply parses if and only if its fields are well formed and each of its texts decodes, and is malformed otherwise |
| `WireReplies.LastHeightCounts` | ios/Runner/NativeLightwalletdClient.swift:243-262 | the last height field of a transaction response decides: 0 is the mempool, the largest value a fork, any other the height itself |
| `WireReplies.NoHeightIsMempool` | ios/Runner/NativeLightwalletdClient.swift:243-262 | a transaction response without a height field is one in the mempool |
| `WireReplies.FirstBlockHeightCounts` | ios/Runner/NativeLightwalletdClient.swift:165-188 | the first height field of a block is its height, whatever bytes follow |
| `WireCodec.EncodeVarint` | ios/Runner/NativeLightwalletdClient.swift:383-393 | the loop yields the encoding, which reads back as the value |
| `WireCodec.ReadVarint` | ios/Runner/NativeLightwalletdClient.swift:426-440 | the loop reads the varint at the index and moves behind it, or fails |
| `WireCodec.SkipField` | ios/Runner/NativeLightwalletdClient.swift:442-471 | moves exactly behind the field's value, or fails |
| `WireCodec.UnframeGrpc` | ios/Runner/NativeLightwalletdClient.swift:395-407 | the length fold and bounds of `grpcPayload` |
| `WireCodec.ParseTransactionResponse` | ios/Runner/NativeLightwalletdClient.swift:243-262 | the loop advances and yields the last height field's observation, or malformed |
| `WireCodec.ParseSendTransactionResponse` | ios/Runner/NativeLightwalletdClient.swift:310-356 | the loop answers as the function whose reading of bytes is `ReplyRoundTrip`, `LastCodeCounts` and `LastTextCounts` |
| `WireCodec.ParseLatestBlockResponse` | ios/Runner/NativeLightwalletdClient.swift:165-188 | the loop yields the first height field, or the error the source gives |
| `RelayFraming.ChunksRoundTrip` | scripts/e2e/voting-regtest-gateway.py:45-66 | for any pieces, empty ones included, the chunked output reads back as exactly their concatenation and not a byte further, if and only if that is within the reader's cap |
| `RelayFraming.HexRoundTrip` | scripts/e2e/voting-regtest-gateway.py:52-54 | the reader's number syntax gives back every size the writer prints |
| `RelayFraming.ChunkReads` | rust/src/tor_update_relay.rs:404-410 | one written chunk is read as its data, unless it exceeds the cap |
| `Relay.RelayedBodyReads` | rust/src/tor_update_relay.rs:334-410 | what the relay writes for a transfer that goes through is read by the gateway as the package |
| `Relay.StreamResponseBody` | rust/src/tor_update_relay.rs:334-356 | wherever upstream or the connection fails, the bytes written are a prefix of what is owed and, unless the counter wraps, never exceed the announced length; success is exactly an unbroken transfer of the announced length that the connection takes, and then everything has been written |
| `Relay.MeetsExactly` | rust/src/tor_update_relay.rs:384-392 | the byte counter meets an announced length exactly when the lengths are equal, save that 2^64 - 1 is also met by 2^65 - 1 bytes |
| `Relay.WriteBodyData` | rust/src/tor_update_relay.rs:362-382 | refuses what would exceed the announced length before writing any of it; otherwise writes the data or the chunk |
| `Relay.FinishBody` | rust/src/tor_update_relay.rs:384-402 | fails on a length mismatch; otherwise writes the terminator in chunked framing and flushes |
| `Relay.WriteChunk` | rust/src/tor_update_relay.rs:404-410 | three writes amount to writing the chunk, also when the connection fails in between |
| `Relay.ReadChunkedBody` | scripts/e2e/voting-regtest-gateway.py:45-66 | the loop over chunks answers as specified and leaves the stream behind the body |
| `Relay.SkipTrailers` | scripts/e2e/voting-regtest-gateway.py:57-62 | reads lines up to the empty one, or reports the end of the stream |

## Left out

Outbox:

- AES-GCM, the key store, JSON coding and the file system: a store update commits
  as a whole or not at all, and any store error is treated as an unavailable store.
- SHA-256: a symbolic digest that no two payloads share.
- `sampleDelay`'s exponential distribution: any draw, clamped to 1..max as the code clamps it.
- Dates are whole seconds, and attempt counts do not overflow.
- Strings: lower-casing is ASCII, and ordering is by character code.
- `hasBatch`, `nextActionAccountUuid` and the cadence of checks: they decide whose and
  how soon the next run is, not what it does.
- The metadata handed to the notification layer, beyond the batch it is about.
- The channel's argument decoding: calls arrive decoded.
- The gate's condition variable: a returning `waitUntilIdle`
  is the world's event `DrainReturns`, possible when no run is active.
- OutboxRunOnce.RunOnce: gate calls of the app during a run are left to the world, where
  they interleave with every step of it; its own calls come between the run's updates.

Keychain:

- Security framework queries: a store of items keyed by account and access group,
  with one service and its staging service at a time.
- Writes by the rest of the app while a migration runs.

Tor route:

- The epoch and the lease ids do not wrap at 2^64.
- Memory orderings weaker than sequential consistency.
- Bootstrapping itself, deadlines and polling intervals: a bootstrap succeeds or
  fails at any time. The init lock is left out, which only adds interleavings.
- Dormancy of the client.

Notifications:

- Titles, bodies and priorities of summaries; a submission is the set of events it speaks for.
- Persistence of the coordinator's state, and wrap-around of the generation.

Wire and framing:

- URLs, the native calls and cancellation of the lightwalletd client.
- Decoding of UTF-8: an arbitrary partial function.
- HTTP headers, redirects and TLS of the relay, and the gateway's fixed-length branch.
- One upstream frame is a Rust slice, so shorter than 2^63 bytes.

Not modelled at all: background task scheduling, the preparation manager, the FFI layer,
the user interface and the release scripts.
