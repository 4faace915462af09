/** What the selecting update promises about the submission it begins. */
module OutboxSubmission {
  import opened Common
  import opened OutboxTypes
  import opened OutboxRescheduling
  import opened OutboxPeers
  import opened OutboxOps
  import opened OutboxInvariant
  import opened OutboxSteps
  import opened OutboxRunner

  // ----- Composing the parts of the update

  /** Items only change by becoming terminal. */
  ghost predicate Settles(s: State, t: State) {
    && Evolves(s, t, PLAIN)
    && (forall i, k :: 0 <= i < |s.batches| && 0 <= k < |s.batches[i].items| ==>
          t.batches[i].items[k].status == s.batches[i].items[k].status || Terminal(t.batches[i].items[k].status))
  }

  lemma ItemCompose(a: Item, b: Item, c: Item, licence: Licence)
    requires ItemEvolves(a, b, PLAIN) && (b.status == a.status || Terminal(b.status))
    requires ItemEvolves(b, c, licence)
    ensures ItemEvolves(a, c, licence)
  {
  }

  lemma SettleThen(s: State, t: State, u: State, licence: Licence)
    requires Settles(s, t) && Evolves(t, u, licence)
    ensures Evolves(s, u, licence)
  {
    forall i | 0 <= i < |s.batches|
      ensures BatchEvolves(s.batches[i], u.batches[i], licence)
    {
      var a, b, c := s.batches[i], t.batches[i], u.batches[i];
      assert BatchEvolves(a, b, PLAIN) && BatchEvolves(b, c, licence);
      forall k | 0 <= k < |a.items|
        ensures ItemEvolves(a.items[k], c.items[k], licence)
      {
        ItemCompose(a.items[k], b.items[k], c.items[k], licence);
      }
    }
  }

  lemma SettleCompose(s: State, t: State, u: State)
    requires Settles(s, t) && Settles(t, u)
    ensures Settles(s, u)
  {
    SettleThen(s, t, u, PLAIN);
    forall i, k | 0 <= i < |s.batches| && 0 <= k < |s.batches[i].items|
      ensures u.batches[i].items[k].status == s.batches[i].items[k].status || Terminal(u.batches[i].items[k].status)
    {
      assert BatchEvolves(s.batches[i], t.batches[i], PLAIN);
      assert BatchEvolves(t.batches[i], u.batches[i], PLAIN);
      assert ItemEvolves(t.batches[i].items[k], u.batches[i].items[k], PLAIN);
    }
  }

  lemma RetireSettles(s: State, why: Retirement, height: U64, endpoint: string, date: Date)
    requires Valid(s)
    ensures Valid(Retire(s, why, height, endpoint, date)) && Settles(s, Retire(s, why, height, endpoint, date))
  {
    RetireKeeps(s, why, height, endpoint, date);
    var t := Retire(s, why, height, endpoint, date);
    forall i, k | 0 <= i < |s.batches| && 0 <= k < |s.batches[i].items|
      ensures t.batches[i].items[k].status == s.batches[i].items[k].status || Terminal(t.batches[i].items[k].status)
    {
      assert t.batches[i] == RetiredBatch(why, s.batches[i], height, endpoint);
    }
  }

  lemma MarkProofReadySettles(s: State, height: U64, endpoint: string, date: Date)
    requires Valid(s)
    ensures var t := MarkProofReady(s, height, endpoint, date).0;
            && Valid(t) && Settles(s, t)
            && (forall i :: 0 <= i < |s.batches| ==>
                  && t.batches[i].items == s.batches[i].items && t.batches[i].armedAt == s.batches[i].armedAt
                  && t.batches[i].url == s.batches[i].url)
  {
    MarkProofReadyKeeps(s, height, endpoint, date);
  }

  // ----- One expiry window

  lemma CanonicalWindow(height: U64)
    requires CanonicalExpiry(height).Some?
    ensures EXPIRY_MODULUS < CanonicalExpiry(height).value - height <= 2 * EXPIRY_MODULUS
  {
  }

  /** Every due item of a batch that is still armed was signed for the current window. */
  predicate OneWindow(b: Batch, height: U64, canonical: U64) {
    forall k :: 0 <= k < |b.items| && b.items[k].status == Armed && b.items[k].scheduledHeight <= height ==>
      b.items[k].expiryHeight == canonical
  }

  lemma PrepareSettles(s: State, endpoint: string, height: U64, verifyProofs: bool, now: Date)
    requires Valid(s)
    ensures var t := Prepare(s, endpoint, height, verifyProofs, now); Valid(t) && Settles(s, t)
  {
    hide Valid, Settles;
    var s1 := ExpireItems(s, height, endpoint, now);
    RetireSettles(s, PastExpiry, height, endpoint, now);
    var s2 := MarkNeedingResign(s1, height, endpoint, now);
    if CanonicalExpiry(height).Some? {
      RetireSettles(s1, OtherWindow(CanonicalExpiry(height).value), height, endpoint, now);
      SettleCompose(s, s1, s2);
    }
    if !verifyProofs {
      MarkProofReadySettles(s2, height, endpoint, now);
      SettleCompose(s, s2, MarkProofReady(s2, height, endpoint, now).0);
    }
  }

  /** Marking leaves a selectable batch with one expiry among its due items. */
  lemma PrepareLeavesOneWindow(s: State, endpoint: string, height: U64, verifyProofs: bool, now: Date, i: nat)
    requires Valid(s) && CanonicalExpiry(height).Some?
    requires i < |s.batches|
    ensures var t := Prepare(s, endpoint, height, verifyProofs, now);
            && |t.batches| == |s.batches|
            && (t.batches[i].url == endpoint && t.batches[i].armedAt.Some? ==>
                  OneWindow(t.batches[i], height, CanonicalExpiry(height).value))
  {
    var canonical := CanonicalExpiry(height).value;
    var s1 := ExpireItems(s, height, endpoint, now);
    RetireSettles(s, PastExpiry, height, endpoint, now);
    var s2 := MarkNeedingResign(s1, height, endpoint, now);
    RetireSettles(s1, OtherWindow(canonical), height, endpoint, now);
    assert s2.batches[i] == RetiredBatch(OtherWindow(canonical), s1.batches[i], height, endpoint);
    MarkProofReadySettles(s2, height, endpoint, now);
  }

  // ----- The selecting update

  /** The parts of a committed selection. */
  lemma SelectUpdateParts(s: State, endpoint: string, height: U64, verifyProofs: bool, attemptId: string, now: Date)
    returns (t: State, at: Location)
    requires Valid(s)
    requires SelectUpdate(s, endpoint, height, verifyProofs, attemptId, now).Ok?
    requires SelectUpdate(s, endpoint, height, verifyProofs, attemptId, now).value.selection.Some?
    ensures var p := Prepare(s, endpoint, height, verifyProofs, now);
            var r := SelectUpdate(s, endpoint, height, verifyProofs, attemptId, now).value;
            && Valid(t) && t.batches == p.batches
            && ChosenAt(p, height, Some(endpoint), now, r.selection.value, at)
            && ValidateRescheduling(t, r.selection.value.item.itemId, height).Ok?
            && Locate(t.batches, r.selection.value.item.itemId) == Some(at)
            && BeginSubmission(t, r.selection.value.item.itemId, attemptId, now) == Ok(r.state)
            && Settles(s, t)
  {
    var p := Prepare(s, endpoint, height, verifyProofs, now);
    PrepareSettles(s, endpoint, height, verifyProofs, now);
    at := SelectDueChooses(p, height, Some(endpoint), now);
    t := SelectDue(p, height, Some(endpoint), now).0;
    CursorKeeps(p, t.lastScope, t.lastEndpoint);
    var id := SelectDue(p, height, Some(endpoint), now).1.value.item.itemId;
    LocateUnique(t.batches, id, at);
  }

  /** With unique ids, the located item is the one that was meant. */
  lemma LocateUnique(batches: seq<Batch>, itemId: string, at: Location)
    requires UniqueItems(batches) && At(batches, at) && ItemAt(batches, at).itemId == itemId
    ensures Locate(batches, itemId) == Some(at)
  {
    assert ItemAt(batches, at) == batches[at.batch].items[at.item];
  }

  lemma SelectUpdateKeeps(s: State, endpoint: string, height: U64, verifyProofs: bool, attemptId: string, now: Date)
    requires Valid(s) && SelectUpdate(s, endpoint, height, verifyProofs, attemptId, now).Ok?
    ensures var r := SelectUpdate(s, endpoint, height, verifyProofs, attemptId, now).value;
            && Valid(r.state)
            && Evolves(s, r.state,
                       if r.selection.None? then PLAIN else Licence({r.selection.value.item.itemId}, {}, {}))
  {
    hide Valid, Settles, Evolves;
    var r := SelectUpdate(s, endpoint, height, verifyProofs, attemptId, now).value;
    if r.selection.None? {
      var p := Prepare(s, endpoint, height, verifyProofs, now);
      PrepareSettles(s, endpoint, height, verifyProofs, now);
      assert r.state == p;
      SettlesEvolves(s, p);
    } else {
      var t, at := SelectUpdateParts(s, endpoint, height, verifyProofs, attemptId, now);
      BeginSubmissionKeeps(t, r.selection.value.item.itemId, attemptId, now);
      SettleThen(s, t, r.state, Licence({r.selection.value.item.itemId}, {}, {}));
    }
  }

  lemma SettlesEvolves(s: State, t: State)
    requires Settles(s, t)
    ensures Evolves(s, t, PLAIN)
  {
  }

  /** A submission that may be broadcast at `height` through `endpoint`. */
  ghost predicate LegalSubmission(s: State, selection: Selection, endpoint: string, height: U64, now: Date) {
    exists at :: SubmissionAt(s, selection, endpoint, height, now, at)
  }

  ghost predicate SubmissionAt(s: State, selection: Selection, endpoint: string, height: U64, now: Date, at: Location) {
    && At(s.batches, at)
    && s.batches[at.batch].batchId == selection.batchId
    && s.batches[at.batch].url == endpoint == selection.url
    && s.batches[at.batch].armedAt.Some?
    && SamePayload(ItemAt(s.batches, at), selection.item)
    && ItemAt(s.batches, at).status == Submitting
    && selection.item.scheduledHeight <= height < selection.item.expiryHeight
    && (selection.item.nextAttemptAt.None? || selection.item.nextAttemptAt.value <= now)
    && (CanonicalExpiry(height).Some? ==>
          && selection.item.expiryHeight == CanonicalExpiry(height).value
          && EXPIRY_MODULUS < selection.item.expiryHeight - height <= 2 * EXPIRY_MODULUS)
  }

  lemma BegunSubmission(t: State, at: Location, selection: Selection, endpoint: string, height: U64, attemptId: string,
                        now: Date, s': State)
    requires ChosenAt(t, height, Some(endpoint), now, selection, at)
    requires Locate(t.batches, selection.item.itemId) == Some(at)
    requires BeginSubmission(t, selection.item.itemId, attemptId, now) == Ok(s')
    requires CanonicalExpiry(height).Some? ==> OneWindow(t.batches[at.batch], height, CanonicalExpiry(height).value)
    ensures SubmissionAt(s', selection, endpoint, height, now, at)
  {
    if CanonicalExpiry(height).Some? {
      CanonicalWindow(height);
    }
  }

  /** Every committed selection is a legal submission. */
  lemma SelectedSubmissionIsLegal(s: State, endpoint: string, height: U64, verifyProofs: bool, attemptId: string,
                                  now: Date)
    requires Valid(s) && SelectUpdate(s, endpoint, height, verifyProofs, attemptId, now).Ok?
    requires SelectUpdate(s, endpoint, height, verifyProofs, attemptId, now).value.selection.Some?
    ensures var r := SelectUpdate(s, endpoint, height, verifyProofs, attemptId, now).value;
            LegalSubmission(r.state, r.selection.value, endpoint, height, now)
  {
    hide Valid, Settles, SubmissionAt;
    var r := SelectUpdate(s, endpoint, height, verifyProofs, attemptId, now).value;
    var t, at := SelectUpdateParts(s, endpoint, height, verifyProofs, attemptId, now);
    var p := Prepare(s, endpoint, height, verifyProofs, now);
    PrepareSettles(s, endpoint, height, verifyProofs, now);
    if CanonicalExpiry(height).Some? {
      SettlesSize(s, p);
      PrepareLeavesOneWindow(s, endpoint, height, verifyProofs, now, at.batch);
    }
    BegunSubmission(t, at, r.selection.value, endpoint, height, attemptId, now, r.state);
  }

  lemma SettlesSize(s: State, t: State)
    requires Settles(s, t)
    ensures |s.batches| == |t.batches|
  {
  }

  /** ... and the only one in flight, when recovery left none before. */
  lemma SelectedSubmissionIsAlone(s: State, endpoint: string, height: U64, verifyProofs: bool, attemptId: string,
                                  now: Date,
                                  a: Location, b: Location)
    requires Valid(s) && NoSubmission(s)
    requires SelectUpdate(s, endpoint, height, verifyProofs, attemptId, now).Ok?
    requires var s' := SelectUpdate(s, endpoint, height, verifyProofs, attemptId, now).value.state;
             && At(s'.batches, a) && At(s'.batches, b)
             && ItemAt(s'.batches, a).status == Submitting && ItemAt(s'.batches, b).status == Submitting
    ensures a == b
  {
    hide Valid, SelectUpdate, Evolves;
    var r := SelectUpdate(s, endpoint, height, verifyProofs, attemptId, now).value;
    SelectUpdateKeeps(s, endpoint, height, verifyProofs, attemptId, now);
    var licence := if r.selection.None? then PLAIN else Licence({r.selection.value.item.itemId}, {}, {});
    OnlyBegunSubmits(s, r.state, licence, a);
    OnlyBegunSubmits(s, r.state, licence, b);
    SameIdSamePlace(r.state, a, b);
  }

  lemma SameIdSamePlace(s: State, a: Location, b: Location)
    requires Valid(s) && At(s.batches, a) && At(s.batches, b)
    requires ItemAt(s.batches, a).itemId == ItemAt(s.batches, b).itemId
    ensures a == b
  {
  }

  lemma OnlyBegunSubmits(s: State, s': State, licence: Licence, at: Location)
    requires NoSubmission(s) && Evolves(s, s', licence)
    requires At(s'.batches, at) && ItemAt(s'.batches, at).status == Submitting
    ensures ItemAt(s'.batches, at).itemId in licence.begins
  {
    assert BatchEvolves(s.batches[at.batch], s'.batches[at.batch], licence);
    assert ItemEvolves(s.batches[at.batch].items[at.item], s'.batches[at.batch].items[at.item], licence);
    assert !s.batches[at.batch].HasStatus(Submitting);
  }

  // ----- The check before broadcasting

  /** Peers are the other items, so the submitted item's own status does not matter. */
  lemma PeerExpiriesUnchanged(items: seq<Item>, k: nat, item: Item, height: U64)
    requires k < |items| && item.itemId == items[k].itemId && item.expiryHeight == items[k].expiryHeight
    ensures PeerExpiries(items[k := item], item.itemId, height) == PeerExpiries(items, item.itemId, height)
  {
    OverdueUnchanged(items, k, item, height, 0);
    var peers := OverduePeers(items, item.itemId, height);
    assert Expiries(items[k := item], peers) == Expiries(items, peers);
  }

  lemma {:induction false} SortConstant(hs: seq<U64>, h: U64)
    requires forall i :: 0 <= i < |hs| ==> hs[i] == h
    ensures |SortHeights(hs)| == |hs| && forall i :: 0 <= i < |hs| ==> SortHeights(hs)[i] == h
  {
    if hs != [] {
      SortConstant(hs[1..], h);
      var tail := SortHeights(hs[1..]);
      InsertConstant(hs[0], tail);
    }
  }

  lemma {:induction false} InsertConstant(h: U64, hs: seq<U64>)
    requires forall i :: 0 <= i < |hs| ==> hs[i] == h
    ensures |InsertHeight(h, hs)| == |hs| + 1 && forall i :: 0 <= i < |hs| + 1 ==> InsertHeight(h, hs)[i] == h
  {
    if hs != [] {
      InsertConstant(h, hs[1..]);
    }
  }

  lemma OneWindowFits(b: Batch, itemId: string, height: U64, canonical: U64)
    requires OneWindow(b, height, canonical)
    requires Preflight(PeerExpiries(b.items, itemId, height), height)
    ensures Fits(PeerExpiries(b.items, itemId, height), height)
  {
    var expiries := Expiries(b.items, OverduePeers(b.items, itemId, height));
    SortConstant(expiries, canonical);
    PreflightExactForCommonExpiry(PeerExpiries(b.items, itemId, height), height);
  }

  /** Recording an acceptance succeeds exactly when the peers fit, under every randomness. */
  lemma RecordAcceptedExact(s: State, itemId: string, at: Location, equivalent: bool, height: U64, code: int,
                            message: string, date: Date, random: Randomness)
    requires Valid(s) && At(s.batches, at)
    requires ItemAt(s.batches, at).itemId == itemId && ItemAt(s.batches, at).status == Submitting
    requires RandomnessFits(s, itemId, height, random)
    ensures RecordAccepted(s, itemId, equivalent, height, code, message, date, random).Ok?
            <==> Fits(PeerExpiries(s.batches[at.batch].items, itemId, height), height)
  {
    LocateUnique(s.batches, itemId, at);
    var b := s.batches[at.batch];
    RescheduleExact(b.items, itemId, height, b.timingMax, random);
  }

  /**
   * Preflight soundness: once the selecting update has committed, and with no
   * other update in between, an acceptance can always be recorded.
   */
  lemma PreflightIsSound(s: State, endpoint: string, height: U64, verifyProofs: bool, attemptId: string, now: Date,
                         equivalent: bool, code: int, message: string, date: Date, random: Randomness)
    requires Valid(s) && CanonicalExpiry(height).Some?
    requires SelectUpdate(s, endpoint, height, verifyProofs, attemptId, now).Ok?
    requires SelectUpdate(s, endpoint, height, verifyProofs, attemptId, now).value.selection.Some?
    requires var r := SelectUpdate(s, endpoint, height, verifyProofs, attemptId, now).value;
             RandomnessFits(r.state, r.selection.value.item.itemId, height, random)
    ensures var r := SelectUpdate(s, endpoint, height, verifyProofs, attemptId, now).value;
            RecordAccepted(r.state, r.selection.value.item.itemId, equivalent, height, code, message, date, random).Ok?
  {
    var r := SelectUpdate(s, endpoint, height, verifyProofs, attemptId, now).value;
    var id := r.selection.value.item.itemId;
    var t, at := SelectUpdateParts(s, endpoint, height, verifyProofs, attemptId, now);
    PrepareLeavesOneWindow(s, endpoint, height, verifyProofs, now, at.batch);
    var b := t.batches[at.batch];
    OneWindowFits(b, id, height, CanonicalExpiry(height).value);
    PeerExpiriesUnchanged(b.items, at.item, ItemAt(r.state.batches, at), height);
    SelectUpdateKeeps(s, endpoint, height, verifyProofs, attemptId, now);
    RecordAcceptedExact(r.state, id, at, equivalent, height, code, message, date, random);
  }
}
