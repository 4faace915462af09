/** Inputs on which the code does less than one might expect, each next to the theorem that bounds it. */
module OutboxFindings {
  import opened Common
  import opened Sequences
  import opened Rotation
  import opened OutboxTypes
  import opened OutboxPeers
  import opened OutboxOps
  import opened OutboxInvariant
  import opened OutboxRunner
  import opened ExecutionGate
  import opened OutboxWorld
  import opened OutboxRuns
  import opened OutboxTheorems
  import opened OutboxAttempts
  import opened OutboxNotices

  function SampleItem(): Item {
    NewItem("x", 0, "x", [1], 0, 0, 0, 69_120)
  }

  function SampleBatch(batchId: string, items: seq<Item>): Batch {
    Batch(batchId, "n", "a", "r", "u", 1, 1, 0, None, None, None, None, None, None, None, None, items)
  }

  // ----- Item ids shared by two batches

  function Item0(status: Status): Item {
    SampleItem().(status := status)
  }

  function Pair(status: Status, armedAt: Option<Date>): seq<Batch> {
    [SampleBatch("b", [Item0(status)]).(armedAt := armedAt), SampleBatch("c", [Item0(status)]).(armedAt := armedAt)]
  }

  function SampleReceipt(batchId: string): Receipt {
    MakeReceipt(SampleBatch(batchId, []), SampleItem(), Expired, 69_120, None, None, [], 0)
  }

  function SharedIdState(): State {
    State(Pair(ExpiredAwaiting, None), [SampleReceipt("b"), SampleReceipt("c")], None, None, [])
  }

  lemma SharedStaged()
    ensures var one := Stage(EMPTY_STATE, SampleBatch("b", [SampleItem()]));
            && one.Ok?
            && Stage(one.value, SampleBatch("c", [SampleItem()])) == Ok(EMPTY_STATE.(batches := Pair(Staged, None)))
  {
    assert Lower("x") == "x";
    var b, c := SampleBatch("b", [SampleItem()]), SampleBatch("c", [SampleItem()]);
    assert Item0(Staged) == SampleItem() && Pair(Staged, None) == [b] + [c];
    assert Stage(EMPTY_STATE, b) == Ok(EMPTY_STATE.(batches := [b])) by {
      assert EMPTY_STATE.batches + [b] == [b];
    }
    assert FindBatch([b], "c") == None;
  }

  lemma SharedArmed(s: State, i: nat, batchId: string)
    requires i < 2 && |s.batches| == 2 && s.batches[i] == SampleBatch(batchId, [SampleItem()])
             && batchId == ["b", "c"][i]
    requires i == 1 ==> s.batches[0].batchId != "c"
    ensures Arm(s, batchId, map["x" := Sha256([1])], 0)
            == Ok(s.(batches := s.batches[i := SampleBatch(batchId, [Item0(Armed)]).(armedAt := Some(0))]))
  {
    var b := s.batches[i];
    assert b.items[0].itemId == "x" && b.items[0].digest == Sha256([1]);
    assert "x" in map["x" := Sha256([1])] && ArmRequestOk(b, map["x" := Sha256([1])]);
    assert FindBatch(s.batches, batchId) == Some(i);
    assert MapItems(b.items, it => ArmItem(it, map["x" := Sha256([1])])) == [Item0(Armed)];
  }

  lemma SharedRetired(batchId: string)
    ensures var b := SampleBatch(batchId, [Item0(Armed)]).(armedAt := Some(0));
            && RetiredBatch(PastExpiry, b, 69_120, "u") == SampleBatch(batchId, [Item0(ExpiredAwaiting)])
            && BatchReceipts(PastExpiry, b, 69_120, 0, 1) == [SampleReceipt(batchId)]
  {
    var b := SampleBatch(batchId, [Item0(Armed)]).(armedAt := Some(0));
    assert Retires(PastExpiry, b.items[0], 69_120);
    assert RetiredBatch(PastExpiry, b, 69_120, "u").items == [Item0(ExpiredAwaiting)];
    assert BatchReceipts(PastExpiry, b, 69_120, 0, 0) == [];
  }

  lemma SharedExpired(s: State)
    requires s == EMPTY_STATE.(batches := Pair(Armed, Some(0)))
    ensures ExpireItems(s, 69_120, "u", 0) == SharedIdState()
  {
    hide RetiredBatch, BatchReceipts;
    SharedRetired("b");
    SharedRetired("c");
    var t := ExpireItems(s, 69_120, "u", 0);
    assert t.batches == SharedIdState().batches;
    assert RetiredReceipts(PastExpiry, s.batches, 69_120, "u", 0, 0) == [];
    assert RetiredReceipts(PastExpiry, s.batches, 69_120, "u", 0, 1) == [SampleReceipt("b")];
    assert RetiredReceipts(PastExpiry, s.batches, 69_120, "u", 0, 2) == [SampleReceipt("b"), SampleReceipt("c")];
  }

  /** Two batches with the same item id, staged, armed and expired one after the other. */
  lemma SharedIdsReached()
    ensures var staged := Stage(Stage(EMPTY_STATE, SampleBatch("b", [SampleItem()])).value,
                                SampleBatch("c", [SampleItem()])).value;
            var one := Arm(staged, "b", map["x" := Sha256([1])], 0);
            && one.Ok?
            && var both := Arm(one.value, "c", map["x" := Sha256([1])], 0);
               both.Ok? && ExpireItems(both.value, 69_120, "u", 0) == SharedIdState()
  {
    hide Stage, Arm, ExpireItems;
    SharedStaged();
    var staged := EMPTY_STATE.(batches := Pair(Staged, None));
    SharedArmed(staged, 0, "b");
    var one := Arm(staged, "b", map["x" := Sha256([1])], 0).value;
    SharedArmed(one, 1, "c");
    var both := Arm(one, "c", map["x" := Sha256([1])], 0).value;
    assert both.batches == Pair(Armed, Some(0));
    SharedExpired(both);
  }

  /**
   * Unique item ids are needed: in the state just reached, acknowledging the
   * receipt of one batch removes the item of the same id from the other, whose own
   * receipt is left without its bytes.
   */
  lemma SharedIdsLoseATransaction()
    ensures var s := SharedIdState();
            && RawTransaction(s, SampleReceipt("c")) == Some([1])
            && SampleReceipt("c") in AcknowledgeReceipts(s, {SampleReceipt("b").Id()}).receipts
            && RawTransaction(AcknowledgeReceipts(s, {SampleReceipt("b").Id()}), SampleReceipt("c")) == None
  {
    hide AcknowledgeReceipts;
    SharedIdsStored();
    SharedReceiptStays(SharedIdState(), {SampleReceipt("b").Id()});
    SharedPruned(SharedIdState(), {SampleReceipt("b").Id()});
  }

  lemma SharedIdsStored()
    ensures RawTransaction(SharedIdState(), SampleReceipt("c")) == Some([1])
  {
  }

  lemma SharedReceiptStays(s: State, ids: set<ReceiptId>)
    requires s == SharedIdState() && ids == {SampleReceipt("b").Id()}
    ensures SampleReceipt("c") in AcknowledgeReceipts(s, ids).receipts
  {
    hide PruneBatches;
    assert s.receipts[1] == SampleReceipt("c");
    FilterMember(s.receipts, Unacknowledged(ids), SampleReceipt("c"));
  }

  lemma SharedPruned(s: State, ids: set<ReceiptId>)
    requires s == SharedIdState() && ids == {SampleReceipt("b").Id()}
    ensures AcknowledgeReceipts(s, ids).batches == []
  {
    var itemIds := AckedItemIds(s.receipts, ids);
    assert "x" in itemIds by {
      assert s.receipts[0] in s.receipts && s.receipts[0].Id() in ids;
    }
    hide AckedItemIds, EndedBatchIds;
    forall i | 0 <= i < |s.batches|
      ensures Finished(s.receipts, ids)(s.batches[i])
    {
      SampleStripped(s.batches[i], itemIds);
    }
    PruneAll(s.batches, itemIds, Finished(s.receipts, ids));
  }

  lemma SampleStripped(b: Batch, itemIds: set<string>)
    requires b.items == [Item0(ExpiredAwaiting)] && "x" in itemIds
    ensures WithoutItems(b, itemIds).items == []
  {
    assert b.items[1..] == [] && !NotIn(itemIds)(b.items[0]);
    assert Filter(b.items, NotIn(itemIds)) == [] + Filter(b.items[1..], NotIn(itemIds));
  }

  lemma {:induction false} PruneAll(batches: seq<Batch>, itemIds: set<string>, drop: Batch -> bool)
    requires forall i :: 0 <= i < |batches| ==> drop(batches[i])
    ensures PruneBatches(batches, itemIds, drop) == []
  {
    if batches != [] {
      PruneAll(batches[1..], itemIds, drop);
    }
  }

  // ----- A record replaced under a running submission

  lemma SingleKey(key: string)
    ensures NextKey([key], None) == key
  {
    assert SortedDistinct([key]) == [key] by {
      assert [key][1..] == [];
    }
  }

  function Stage0(): Call { StageBatch(SampleBatch("b", [SampleItem()])) }

  function ArmedState(): State {
    State([SampleBatch("b", [SampleItem().(status := Armed)]).(armedAt := Some(0))], [], None, None, [])
  }

  lemma ArmedSample()
    ensures Apply(Apply(EMPTY_STATE, Stage0()), ArmBatch("b", map["x" := Sha256([1])], 0)) == ArmedState()
    ensures Assumed(EMPTY_STATE, Stage0())
  {
    StagedSample();
    var s := Apply(EMPTY_STATE, Stage0());
    hide Stage, Lower;
    var b := s.batches[0];
    assert b.items[0].itemId == "x" && b.items[0].digest == Sha256([1]);
    assert "x" in map["x" := Sha256([1])];
    assert ArmRequestOk(b, map["x" := Sha256([1])]);
    var t := Apply(s, ArmBatch("b", map["x" := Sha256([1])], 0));
    assert t.batches[0].items == [SampleItem().(status := Armed)];
    assert t.batches == ArmedState().batches;
  }

  lemma InspectedSample()
    ensures FirstUpdate(ArmedState(), 0) == (ArmedState().(lastEndpoint := Some("u")), Some("u"))
  {
    var s := ArmedState();
    assert RecoverInterrupted(s, 0).batches[0].items == s.batches[0].items;
    assert RecoverInterrupted(s, 0).batches == s.batches;
    assert s.batches[0].items[0].status == Armed;
    assert Endpoints(s.batches) == ["u"];
    SingleKey("u");
  }

  lemma PreparedSample(s: State)
    requires s.batches == ArmedState().batches && s.receipts == []
    ensures Prepare(s, "u", 0, true, 0) == s
  {
    var b := s.batches[0];
    assert !RetiresAny(PastExpiry, b, 0) && !RetiresAny(OtherWindow(69_120), b, 0);
    assert BatchReceipts(PastExpiry, b, 0, 0, 0) == [] && BatchReceipts(PastExpiry, b, 0, 0, 1) == [];
    assert !Retires(OtherWindow(69_120), b.items[0], 0);
    assert BatchReceipts(OtherWindow(69_120), b, 0, 0, 0) == [];
    assert BatchReceipts(OtherWindow(69_120), b, 0, 0, 1) == [];
    assert ExpireItems(s, 0, "u", 0).batches == s.batches;
    assert RetiredReceipts(PastExpiry, s.batches, 0, "u", 0, 1) == [];
    assert CanonicalExpiry(0) == Some(69_120);
    assert MarkNeedingResign(s, 0, "u", 0).batches == s.batches;
    assert RetiredReceipts(OtherWindow(69_120), s.batches, 0, "u", 0, 1) == [];
  }

  lemma SelectedSample(s: State)
    requires s == ArmedState().(lastEndpoint := Some("u"))
    ensures var r := SelectUpdate(s, "u", 0, true, "t", 0);
            r.Ok? && r.value.selection.Some? && r.value.selection.value.item.itemId == "x"
  {
    PreparedSample(s);
    var item := s.batches[0].items[0];
    assert Due(item, 0, 0) && Selectable(s.batches[0], 0, Some("u"), 0);
    SelectDueExact(s, 0, Some("u"), 0);
    var at := SelectDueChooses(s, 0, Some("u"), 0);
    assert at == Location(0, 0);
    var s' := SelectDue(s, 0, Some("u"), 0).0;
    assert Locate(s'.batches, "x") == Some(Location(0, 0));
    var items := s'.batches[0].items;
    assert OverdueFrom(items, "x", 0, 1) == [];
    assert !Overdue(items[0], "x", 0);
    assert OverduePeers(items, "x", 0) == [];
  }

  // ----- Runs, event by event

  /** One more event of a run. */
  lemma Then(start: World, events: seq<Event>, w: World, e: Event) returns (events': seq<Event>, w': World)
    requires Run(start, events) == Some(w) && Step(w, e).Some?
    ensures events' == events + [e] && Step(w, e) == Some(w') && Run(start, events') == Some(w')
    decreases |events|
  {
    events', w' := events + [e], Step(w, e).value;
    if events == [] {
      assert events' == [e] && [e][1..] == [];
    } else {
      var _, _ := Then(Step(start, events[0]).value, events[1..], w, e);
      assert events'[1..] == events[1..] + [e];
    }
  }

  lemma StagedSample()
    ensures Assumed(EMPTY_STATE, Stage0())
    ensures Apply(EMPTY_STATE, Stage0()) == EMPTY_STATE.(batches := [SampleBatch("b", [SampleItem()])])
    ensures Stored(Apply(EMPTY_STATE, Stage0()), "x") && ItemBy(Apply(EMPTY_STATE, Stage0()), "x") == Some(SampleItem())
    ensures DiscardBatch(Apply(EMPTY_STATE, Stage0()), "b") == Ok((EMPTY_STATE, true))
  {
    assert Lower("x") == "x";
    var s := Apply(EMPTY_STATE, Stage0());
    assert s.batches[0].items[0] == SampleItem();
    assert RemoveAt(s.batches, 0) == [];
  }

  const ARM0 := ArmBatch("b", map["x" := Sha256([1])], 0)

  /** One more call of the app. */
  lemma Calls(start: World, events: seq<Event>, w: World, call: Call) returns (events': seq<Event>, w': World)
    requires Run(start, events) == Some(w) && Assumed(w.store, call)
    ensures events' == events + [ChannelCall(call)] && Run(start, events') == Some(w')
    ensures w' == w.(store := Apply(w.store, call), untried := w'.untried)
    ensures forall id :: id in w'.untried <==> Stored(w'.store, id) && (id in w.untried || !Stored(w.store, id))
  {
    hide Apply;
    events', w' := Then(start, events, w, ChannelCall(call));
  }

  /** The opening of a run, up to the tip. */
  lemma Opens(start: World, events: seq<Event>, w: World, height: U64) returns (events': seq<Event>, w': World)
    requires Run(start, events) == Some(w) && Admits(w.gate) && FirstUpdate(w.store, 0).1 == Some("u")
    ensures events' == events + [BeginRun] + [Inspect(0)] + [LearnTip(height)] && Run(start, events') == Some(w')
    ensures w'.store == FirstUpdate(w.store, 0).0 && w'.phase == AtTip("u", height)
    ensures w'.gate == w.gate.(running := true) && w'.sent == w.sent && w'.sends == w.sends
  {
    hide FirstUpdate;
    events', w' := Then(start, events, w, BeginRun);
    events', w' := Then(start, events', w', Inspect(0));
    events', w' := Then(start, events', w', LearnTip(height));
  }

  lemma ArmedRun() returns (events: seq<Event>, w: World)
    ensures events == [ChannelCall(Stage0()), ChannelCall(ARM0)] && Run(INITIAL_WORLD, events) == Some(w)
    ensures w == INITIAL_WORLD.(store := ArmedState(), untried := w.untried)
  {
    hide Apply;
    ArmedSample();
    events, w := Calls(INITIAL_WORLD, [], INITIAL_WORLD, Stage0());
    events, w := Calls(INITIAL_WORLD, events, w, ARM0);
  }

  const CHOOSING: seq<Event> :=
    [ChannelCall(Stage0()), ChannelCall(ARM0), BeginRun, Inspect(0), LearnTip(0), Select(true, "t", 0)]

  /** Stage, arm, begin a run, inspect, learn the tip and select. */
  lemma ChosenRun() returns (w: World)
    ensures Run(INITIAL_WORLD, CHOOSING) == Some(w)
    ensures w.phase.Chose? && w.phase.selection.item.itemId == "x" && w.sent == {} && w.sends == 0
  {
    hide FirstUpdate, SelectUpdate;
    var events;
    events, w := ArmedRun();
    InspectedSample();
    events, w := Opens(INITIAL_WORLD, events, w, 0);
    SelectedSample(w.store);
    events, w := Then(INITIAL_WORLD, events, w, Select(true, "t", 0));
    assert events == CHOOSING;
  }

  /** What both runs end in: the bytes were handed over, the record shows no attempt, and a discard would remove it. */
  ghost predicate Hidden(w: World) {
    && w.sends == 1 && Unreported(w, "x")
    && !Attempted(ItemBy(w.store, "x").value) && DiscardBatch(w.store, "b") == Ok((EMPTY_STATE, true))
  }

  const REPLACING: seq<Event> := CHOOSING + [ChannelCall(RemoveAll), ChannelCall(Stage0()), Send(None)]

  /**
   * An attempt can escape the report: when the record of a selected item is removed
   * and staged again before the transport call, its bytes are sent while the stored
   * record shows no attempt.
   */
  lemma ReplacedRecordHidesAnAttempt() returns (w: World)
    ensures Run(INITIAL_WORLD, REPLACING) == Some(w) && Hidden(w)
  {
    hide Apply, DiscardBatch;
    w := ChosenRun();
    var events := CHOOSING;
    RemovedSample();
    StagedSample();
    events, w := Calls(INITIAL_WORLD, events, w, RemoveAll);
    events, w := Calls(INITIAL_WORLD, events, w, Stage0());
    events, w := Then(INITIAL_WORLD, events, w, Send(None));
    assert events == REPLACING;
  }

  const REMOVING: seq<Event> := CHOOSING + [ChannelCall(RemoveAll), Send(None), ChannelCall(Stage0())]

  /** ... and likewise when it is removed before the transport call and staged again afterwards. */
  lemma RemovedRecordHidesAnAttempt() returns (w: World)
    ensures Run(INITIAL_WORLD, REMOVING) == Some(w) && Hidden(w) && w.phase.Sent?
  {
    hide Apply, DiscardBatch;
    w := ChosenRun();
    var events := CHOOSING;
    RemovedSample();
    StagedSample();
    events, w := Calls(INITIAL_WORLD, events, w, RemoveAll);
    events, w := Then(INITIAL_WORLD, events, w, Send(None));
    events, w := Calls(INITIAL_WORLD, events, w, Stage0());
    assert events == REMOVING;
  }

  lemma RemovedSample()
    ensures forall s :: Apply(s, RemoveAll) == EMPTY_STATE
    ensures forall id :: !Stored(EMPTY_STATE, id)
  {
  }

  // ----- One proof height announced twice

  function ProofBatch(items: seq<Item>): Batch {
    SampleBatch("b", items).(nextProofHeight := Some(5))
  }

  function ArmedProof(): Batch {
    ProofBatch([SampleItem().(status := Armed)]).(armedAt := Some(0))
  }

  /** What expiry makes of a sample batch. */
  function ExpiredBatch(b: Batch): Batch {
    b.(items := [SampleItem().(status := ExpiredAwaiting)], armedAt := None, nextProofHeight := None)
  }

  ghost predicate Only(s: State, b: Batch) {
    s.batches == [b]
  }

  lemma StagesProof(s: State)
    requires s == EMPTY_STATE
    ensures Assumed(s, StageBatch(ProofBatch([SampleItem()])))
    ensures Only(Apply(s, StageBatch(ProofBatch([SampleItem()]))), ProofBatch([SampleItem()]))
  {
    assert Lower("x") == "x";
  }

  lemma ArmsProof(s: State)
    requires Only(s, ProofBatch([SampleItem()]))
    ensures Only(Apply(s, ARM0), ArmedProof())
  {
    var b := s.batches[0];
    assert b.items[0].itemId == "x" && b.items[0].digest == Sha256([1]);
    assert "x" in map["x" := Sha256([1])] && ArmRequestOk(b, map["x" := Sha256([1])]);
    var t := Apply(s, ARM0);
    assert t.batches[0].items == ArmedProof().items;
  }

  const VERIFY0 := VerifiedProof("n", "a", "r", 0)
  const ACK0 := AckProof("b", 0)

  /** Verification and acknowledgement of the only batch. */
  lemma VerifiesProof(s: State, b: Batch)
    requires Only(s, b) && b.batchId == "b" && VerifiedCandidate(b, "n", "a", "r")
    requires b.proofPendingAt.None? && b.proofNotifiedAt.None?
    ensures Only(Apply(s, VERIFY0), b.(proofPendingAt := Some(0)))
    ensures AcknowledgeProofReady(Apply(s, VERIFY0), "b", 0).Ok?
    ensures Only(Apply(Apply(s, VERIFY0), ACK0), b.(proofNotifiedAt := Some(0)))
  {
    assert FirstProof(s.batches[..0], VerifiedFor("n", "a", "r")) == None;
    assert FirstProof(s.batches, VerifiedFor("n", "a", "r")) == Some(0);
    var t := Apply(s, VERIFY0);
    assert FindBatch(t.batches, "b") == Some(0);
  }

  lemma InspectsProof(s: State, b: Batch)
    requires Only(s, b) && b.url == "u" && b.armedAt.Some? && b.items == [SampleItem().(status := Armed)]
    ensures FirstUpdate(s, 0).1 == Some("u") && Only(FirstUpdate(s, 0).0, b)
  {
    assert RecoverInterrupted(s, 0).batches[0].items == b.items;
    assert RecoverInterrupted(s, 0).batches == s.batches;
    assert b.items[0].status == Armed && Inspectable(b);
    assert Endpoints(s.batches[1..]) == [] && Endpoints(s.batches) == ["u"];
    NextOfOne("u", s.lastEndpoint);
  }

  lemma NextOfOne(key: string, last: Option<string>)
    ensures NextKey([key], last) == key
  {
    assert [key][1..] == [] && SortedDistinct([key]) == [key];
  }

  lemma ExpiresProof(s: State, b: Batch)
    requires Only(s, b) && b.url == "u" && b.items == [SampleItem().(status := Armed)]
    ensures var r := SelectUpdate(s, "u", 69_120, true, "t", 0);
            r.Ok? && r.value.selection.None? && Only(r.value.state, ExpiredBatch(b))
  {
    assert Retires(PastExpiry, b.items[0], 69_120) && RetiresAny(PastExpiry, b, 69_120);
    var s1 := ExpireItems(s, 69_120, "u", 0);
    assert s1.batches[0].items == ExpiredBatch(b).items && s1.batches == [ExpiredBatch(b)];
    var s2 := MarkNeedingResign(s1, 69_120, "u", 0);
    assert CanonicalExpiry(69_120) == Some(138_240);
    assert s2.batches == [ExpiredBatch(b)];
    assert DueScopes(s2.batches[1..], 69_120, Some("u"), 0) == [];
    assert DueScopes(s2.batches, 69_120, Some("u"), 0) == [];
  }

  lemma ExpiringRun(start: World, events: seq<Event>, w: World, b: Batch) returns (events': seq<Event>, w': World)
    requires Run(start, events) == Some(w) && Admits(w.gate)
    requires Only(w.store, b) && b.url == "u" && b.armedAt.Some? && b.items == [SampleItem().(status := Armed)]
    ensures events' == events + [BeginRun] + [Inspect(0)] + [LearnTip(69_120)] + [Select(true, "t", 0)] + [FinishRun]
    ensures Run(start, events') == Some(w') && Only(w'.store, ExpiredBatch(b))
  {
    hide FirstUpdate, SelectUpdate;
    InspectsProof(w.store, b);
    events', w' := Opens(start, events, w, 69_120);
    ExpiresProof(w'.store, b);
    events', w' := Then(start, events', w', Select(true, "t", 0));
    events', w' := Then(start, events', w', FinishRun);
  }

  const STAGE_PROOF := StageBatch(ProofBatch([SampleItem()]))

  lemma StagesProofAgain(s: State)
    requires Only(s, ExpiredBatch(ArmedProof().(proofNotifiedAt := Some(0))))
    ensures Assumed(s, STAGE_PROOF)
    ensures Only(Apply(s, STAGE_PROOF), ExpiredBatch(ArmedProof()).(nextProofHeight := Some(5)))
  {
    assert Lower("x") == "x";
    var stored, request := s.batches[0], ProofBatch([SampleItem()]);
    assert FindItem(stored.items, "x") == Some(0) && request.items[1..] == [];
    assert NewItems(stored.items, request.items) == Some([]);
    assert stored.items + [] == stored.items;
    assert !stored.HasStatus(Submitting);
  }

  lemma ArmsExpired(s: State, b: Batch)
    requires Only(s, b) && b.batchId == "b" && b.items == [SampleItem().(status := ExpiredAwaiting)] && b.armedAt.None?
    ensures Only(Apply(s, ARM0), b.(armedAt := Some(0)))
  {
    assert b.items[0].itemId == "x" && b.items[0].digest == Sha256([1]);
    assert "x" in map["x" := Sha256([1])] && ArmRequestOk(b, map["x" := Sha256([1])]);
    assert Apply(s, ARM0).batches[0].items == b.items;
  }

  const VERIFYING: seq<Event> := [ChannelCall(STAGE_PROOF), ChannelCall(ARM0), ChannelCall(VERIFY0)]

  /** Stage with a proof height, arm and verify: the notice is owed. */
  lemma VerifiedRun() returns (w: World)
    ensures Run(INITIAL_WORLD, VERIFYING) == Some(w) && w.gate == OPEN_GATE
    ensures Only(w.store, ArmedProof().(proofPendingAt := Some(0)))
    ensures AcknowledgeProofReady(w.store, "b", 0).Ok?
    ensures Only(Apply(w.store, ACK0), ArmedProof().(proofNotifiedAt := Some(0)))
  {
    hide Apply, AcknowledgeProofReady;
    var events;
    StagesProof(EMPTY_STATE);
    events, w := Calls(INITIAL_WORLD, [], INITIAL_WORLD, STAGE_PROOF);
    ArmsProof(w.store);
    events, w := Calls(INITIAL_WORLD, events, w, ARM0);
    VerifiesProof(w.store, ArmedProof());
    events, w := Calls(INITIAL_WORLD, events, w, VERIFY0);
    assert events == VERIFYING;
  }

  const ANNOUNCING_AGAIN: seq<Event> :=
    [ChannelCall(ACK0), BeginRun, Inspect(0), LearnTip(69_120), Select(true, "t", 0), FinishRun] + VERIFYING

  /** The record of the sample batch watches height five. */
  ghost predicate WatchesFive(w: World) {
    |w.store.batches| == 1 && w.store.batches[0].batchId == "b" && w.store.batches[0].nextProofHeight == Some(5)
  }

  /**
   * One proof height can be announced twice: expiry makes the record forget the
   * height but not that it was announced, so staging the same height again counts
   * as another one. The record is stored all the time.
   */
  lemma SameHeightAnnouncedTwice() returns (w1: World, w2: World)
    ensures Run(INITIAL_WORLD, VERIFYING) == Some(w1) && Run(w1, ANNOUNCING_AGAIN) == Some(w2)
    ensures WatchesFive(w1) && AcksNotice(w1, ChannelCall(ACK0), "b", VerifiedNotice)
    ensures WatchesFive(w2) && AcksNotice(w2, ChannelCall(ACK0), "b", VerifiedNotice)
  {
    hide Apply, AcknowledgeProofReady;
    w1 := VerifiedRun();
    var events;
    events, w2 := Calls(w1, [], w1, ACK0);
    events, w2 := ExpiringRun(w1, events, w2, ArmedProof().(proofNotifiedAt := Some(0)));
    StagesProofAgain(w2.store);
    events, w2 := Calls(w1, events, w2, STAGE_PROOF);
    var b := ExpiredBatch(ArmedProof()).(nextProofHeight := Some(5));
    ArmsExpired(w2.store, b);
    events, w2 := Calls(w1, events, w2, ARM0);
    VerifiesProof(w2.store, b.(armedAt := Some(0)));
    events, w2 := Calls(w1, events, w2, VERIFY0);
    assert events == ANNOUNCING_AGAIN;
  }

  const LOSING_SIGHT: seq<Event> :=
    VERIFYING + [BeginRun, Inspect(0), LearnTip(69_120), Select(true, "t", 0), FinishRun, ChannelCall(ARM0)]

  /** An owed notice can be out of sight: the record is armed again after expiry, but watches nothing. */
  lemma OwedNoticeOutOfSight() returns (w: World)
    ensures Run(INITIAL_WORLD, LOSING_SIGHT) == Some(w)
    ensures |w.store.batches| == 1 && w.store.batches[0].armedAt.Some? && Owed(w.store.batches[0], VerifiedNotice)
    ensures !Inspectable(w.store.batches[0]) && Endpoints(w.store.batches) == [] && PendingProofReady(w.store) == None
  {
    hide Apply, AcknowledgeProofReady;
    w := VerifiedRun();
    var events := VERIFYING;
    var b := ArmedProof().(proofPendingAt := Some(0));
    events, w := ExpiringRun(INITIAL_WORLD, events, w, b);
    ArmsExpired(w.store, ExpiredBatch(b));
    events, w := Calls(INITIAL_WORLD, events, w, ARM0);
    assert events == LOSING_SIGHT;
    assert !w.store.batches[0].HasStatus(Armed);
    assert Endpoints(w.store.batches[1..]) == [];
    assert FirstProof(w.store.batches[..0], b => PendingProof(b)) == None;
  }

  // ----- A nudge in place of the mark

  const NUDGING: seq<Event> :=
    [ChannelCall(StageBatch(ProofBatch([]))), ChannelCall(ArmBatch("b", map[], 0)), ChannelCall(HeightNotice("b", 0))]

  function NudgedBatch(): Batch {
    ProofBatch([]).(armedAt := Some(0), heightPendingAt := Some(0))
  }

  lemma NudgedRun() returns (w: World)
    ensures Run(INITIAL_WORLD, NUDGING) == Some(w) && Only(w.store, NudgedBatch())
  {
    hide Apply;
    var events;
    StagesEmpty(EMPTY_STATE);
    events, w := Calls(INITIAL_WORLD, [], INITIAL_WORLD, StageBatch(ProofBatch([])));
    ArmsEmpty(w.store);
    events, w := Calls(INITIAL_WORLD, events, w, ArmBatch("b", map[], 0));
    NudgesEmpty(w.store);
    events, w := Calls(INITIAL_WORLD, events, w, HeightNotice("b", 0));
    assert events == NUDGING;
  }

  lemma StagesEmpty(s: State)
    requires s == EMPTY_STATE
    ensures Assumed(s, StageBatch(ProofBatch([]))) && Only(Apply(s, StageBatch(ProofBatch([]))), ProofBatch([]))
  {
  }

  lemma ArmsEmpty(s: State)
    requires Only(s, ProofBatch([]))
    ensures Only(Apply(s, ArmBatch("b", map[], 0)), ProofBatch([]).(armedAt := Some(0)))
  {
    assert ArmRequestOk(s.batches[0], map[]);
    assert Apply(s, ArmBatch("b", map[], 0)).batches[0].items == [];
  }

  lemma NudgesEmpty(s: State)
    requires Only(s, ProofBatch([]).(armedAt := Some(0)))
    ensures Only(Apply(s, HeightNotice("b", 0)), NudgedBatch())
  {
  }

  /**
   * Acknowledging the nudge can cost the mark of the height-only path: before it
   * the runner would mark the batch at height nine, after it the runner marks
   * nothing and no longer inspects the endpoint.
   */
  lemma NudgeCanReplaceTheMark() returns (w: World)
    ensures Run(INITIAL_WORLD, NUDGING) == Some(w) && NextToBeMarked(w.store, "b", 9, "u")
    ensures MarkProofReady(w.store, 9, "u", 3).1 == Some("b")
    ensures var acked := AcknowledgeHeightNotice(w.store, "b", 2);
            acked.Ok? && MarkProofReady(acked.value, 9, "u", 3) == (acked.value, None)
                && Endpoints(acked.value.batches) == []
  {
    w := NudgedRun();
    var test := ReadyAt(9, "u");
    assert w.store.batches[..0] == [] && FirstProof([], test) == None;
    assert FirstProof(w.store.batches, test) == Some(0);
    var t := AcknowledgeHeightNotice(w.store, "b", 2).value;
    assert t.batches[..0] == [] && FirstProof(t.batches, test) == None;
    assert !t.batches[0].HasStatus(Armed);
    assert Endpoints(t.batches[1..]) == [];
  }
}
