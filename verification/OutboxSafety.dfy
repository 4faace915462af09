/** Safety of the outbox over whole runs: no attempt is lost, drains hold, records stay consistent. */
module OutboxSafety {
  import opened Common
  import opened OutboxTypes
  import opened OutboxOps
  import opened OutboxInvariant
  import opened OutboxSteps
  import opened OutboxRunner
  import opened OutboxSubmission
  import opened OutboxWorld
  import opened OutboxRuns
  import opened ExecutionGate

  // ----- The invariant of the world

  /**
   * The record of an id counts as attempted exactly when it is not untried: some
   * selection of it was sent, or may have been, and was not taken back.
   */
  ghost predicate Told(w: World) {
    forall id :: Stored(w.store, id) ==> (Attempted(ItemBy(w.store, id).value) <==> id !in w.untried)
  }

  /** Between selection and transport, a record still in submission remembers whether it was untried before. */
  ghost predicate ChoiceOk(w: World) {
    w.phase.Chose? ==>
      var id := w.phase.selection.item.itemId;
      Stored(w.store, id) && ItemBy(w.store, id).value.status == Submitting ==>
        (w.phase.untried <==> ItemBy(w.store, id).value.attemptCount == 0)
  }

  ghost predicate Quiet(w: World) {
    w.phase.Inspected? || w.phase.AtTip? ==> NoSubmission(w.store)
  }

  ghost predicate GateOk(w: World) {
    && (w.gate.running <==> !w.phase.Idle?)
    && w.drained <= w.gate.leases
    && (w.drained != {} ==> w.phase.Idle?)
    && w.sends == w.outcomes + (if w.phase.Sent? then 1 else 0)
  }

  ghost predicate WorldOk(w: World) {
    && Valid(w.store)
    && GateOk(w)
    && Told(w)
    && ChoiceOk(w)
    && Quiet(w)
  }

  // ----- Committed updates

  predicate Calm(licence: Licence) {
    licence.begins == {} && licence.forgets == {}
  }

  /** A committed update tells the truth about every record it neither selects nor takes back. */
  lemma CommitTells(w: World, s: State, licence: Licence, id: string)
    requires Told(w) && Stepped(w.store, s, licence) && Stored(s, id)
    requires id !in licence.begins && id !in licence.forgets
    ensures Attempted(ItemBy(s, id).value) <==> id !in Commit(w, s).untried
  {
    assert ItemStepped(w.store, s, licence, id);
  }

  lemma ToldKept(w: World, s: State, licence: Licence)
    requires Told(w) && Stepped(w.store, s, licence) && Calm(licence)
    ensures Told(Commit(w, s))
  {
    hide Stepped;
    forall id | Stored(s, id)
      ensures Attempted(ItemBy(s, id).value) <==> id !in Commit(w, s).untried
    {
      CommitTells(w, s, licence, id);
    }
  }

  lemma ChoiceKept(w: World, s: State, licence: Licence)
    requires ChoiceOk(w) && Stepped(w.store, s, licence) && Calm(licence)
    ensures ChoiceOk(Commit(w, s))
  {
    if w.phase.Chose? {
      var id := w.phase.selection.item.itemId;
      assert ItemStepped(w.store, s, licence, id);
    }
  }

  lemma QuietKept(s: State, s': State, licence: Licence)
    requires Valid(s) && NoSubmission(s) && Stepped(s, s', licence) && Calm(licence)
    ensures NoSubmission(s')
  {
    forall i, k | 0 <= i < |s'.batches| && 0 <= k < |s'.batches[i].items|
      ensures s'.batches[i].items[k].status != Submitting
    {
      var at := Location(i, k);
      var id := ItemAt(s'.batches, at).itemId;
      LocateUnique(s'.batches, id, at);
      assert ItemStepped(s, s', licence, id);
      if Stored(s, id) {
        var from := Locate(s.batches, id).value;
        assert !s.batches[from.batch].HasStatus(Submitting);
        assert ItemAt(s.batches, from).status != Submitting;
      }
    }
  }

  /** An update that begins nothing and forgets nothing keeps the world consistent. */
  lemma CommitKeeps(w: World, s: State, licence: Licence)
    requires WorldOk(w) && Stepped(w.store, s, licence) && Calm(licence)
    ensures WorldOk(Commit(w, s))
  {
    hide Valid, Lifecycle;
    ToldKept(w, s, licence);
    ChoiceKept(w, s, licence);
    if w.phase.Inspected? || w.phase.AtTip? {
      QuietKept(w.store, s, licence);
    }
  }

  // ----- The runner's steps

  lemma InspectKeeps(w: World, now: Date)
    requires WorldOk(w) && w.phase.Admitted?
    ensures WorldOk(Step(w, Inspect(now)).value)
  {
    hide Valid, Lifecycle, FirstUpdate;
    var s := FirstUpdate(w.store, now).0;
    FirstUpdateStep(w.store, now);
    CommitKeeps(w, s, PLAIN);
  }

  lemma SelectedRecord(s: State, endpoint: string, height: U64, verifyProofs: bool, attemptId: string, now: Date)
    requires Valid(s) && SelectUpdate(s, endpoint, height, verifyProofs, attemptId, now).Ok?
    requires SelectUpdate(s, endpoint, height, verifyProofs, attemptId, now).value.selection.Some?
    ensures var r := SelectUpdate(s, endpoint, height, verifyProofs, attemptId, now).value;
            var id := r.selection.value.item.itemId;
            && Stored(s, id) && ItemBy(s, id).value.status == Armed
            && Stored(r.state, id) && ItemBy(r.state, id).value.status == Submitting
            && ItemBy(r.state, id).value.attemptCount == ItemBy(s, id).value.attemptCount
  {
    hide Valid, Settles, SelectUpdate, Prepare;
    var r := SelectUpdate(s, endpoint, height, verifyProofs, attemptId, now).value;
    var id := r.selection.value.item.itemId;
    var t, at := SelectUpdateParts(s, endpoint, height, verifyProofs, attemptId, now);
    SettledRecord(s, t, at);
    PreparedAttempts(s, endpoint, height, verifyProofs, now, at);
    SelectUpdateKeeps(s, endpoint, height, verifyProofs, attemptId, now);
    BegunRecord(t, id, attemptId, now, at, r.state);
  }

  lemma SettledRecord(s: State, t: State, at: Location)
    requires Valid(s) && Settles(s, t) && At(t.batches, at) && ItemAt(t.batches, at).status == Armed
    ensures At(s.batches, at) && ItemBy(s, ItemAt(t.batches, at).itemId) == Some(ItemAt(s.batches, at))
    ensures ItemAt(s.batches, at).status == Armed
  {
    assert BatchEvolves(s.batches[at.batch], t.batches[at.batch], PLAIN);
    assert ItemEvolves(s.batches[at.batch].items[at.item], t.batches[at.batch].items[at.item], PLAIN);
    LocateUnique(s.batches, ItemAt(t.batches, at).itemId, at);
  }

  lemma BegunRecord(t: State, id: string, attemptId: string, now: Date, at: Location, s': State)
    requires At(t.batches, at) && Locate(t.batches, id) == Some(at) && Valid(s')
    requires BeginSubmission(t, id, attemptId, now) == Ok(s')
    ensures ItemBy(s', id).Some? && ItemBy(s', id).value.status == Submitting
    ensures ItemBy(s', id).value.attemptCount == ItemAt(t.batches, at).attemptCount
  {
    LocateUnique(s'.batches, id, at);
  }

  lemma PreparedAttempts(s: State, endpoint: string, height: U64, verifyProofs: bool, now: Date, at: Location)
    requires At(s.batches, at)
    ensures var t := Prepare(s, endpoint, height, verifyProofs, now);
            At(t.batches, at) && ItemAt(t.batches, at).attemptCount == ItemAt(s.batches, at).attemptCount
  {
    hide Retire, MarkProofReady;
    var s1 := ExpireItems(s, height, endpoint, now);
    RetireAttempts(s, PastExpiry, height, endpoint, now, at);
    var s2 := MarkNeedingResign(s1, height, endpoint, now);
    if CanonicalExpiry(height).Some? {
      RetireAttempts(s1, OtherWindow(CanonicalExpiry(height).value), height, endpoint, now, at);
    }
    MarkedAttempts(s2, height, endpoint, now, at);
  }

  lemma RetireAttempts(s: State, why: Retirement, height: U64, endpoint: string, now: Date, at: Location)
    requires At(s.batches, at)
    ensures var t := Retire(s, why, height, endpoint, now);
            At(t.batches, at) && ItemAt(t.batches, at).attemptCount == ItemAt(s.batches, at).attemptCount
  {
    RetiredAttempts(why, s.batches[at.batch], height, endpoint, at.item);
    hide RetiredBatch;
  }

  lemma MarkedAttempts(s: State, height: U64, endpoint: string, now: Date, at: Location)
    requires At(s.batches, at)
    ensures var t := MarkProofReady(s, height, endpoint, now).0;
            At(t.batches, at) && ItemAt(t.batches, at) == ItemAt(s.batches, at)
  {
  }

  lemma RetiredAttempts(why: Retirement, b: Batch, height: U64, endpoint: string, k: nat)
    requires k < |b.items|
    ensures var b' := RetiredBatch(why, b, height, endpoint);
            |b'.items| == |b.items| && b'.items[k].attemptCount == b.items[k].attemptCount
  {
  }

  lemma SelectKeeps(w: World, verifyProofs: bool, attemptId: string, now: Date)
    requires WorldOk(w) && w.phase.AtTip?
    ensures WorldOk(Step(w, Select(verifyProofs, attemptId, now)).value)
  {
    hide Valid, SelectUpdate, Stepped, Told, ChoiceOk, NoSubmission;
    var r := SelectUpdate(w.store, w.phase.endpoint, w.phase.height, verifyProofs, attemptId, now);
    if r.Err? {
      ToldSame(w, w.(phase := Ending));
      NoChoice(w.(phase := Ending));
    } else {
      SelectStep(w.store, w.phase.endpoint, w.phase.height, verifyProofs, attemptId, now);
      SteppedValid(w.store, r.value.state, SelectLicence(r));
      if r.value.selection.Some? {
        SelectedRecord(w.store, w.phase.endpoint, w.phase.height, verifyProofs, attemptId, now);
        ChosenOk(w, r);
      } else {
        NothingChosenOk(w, r.value.state);
      }
    }
  }

  lemma ChosenOk(w: World, r: Result<Selected, OutboxError>)
    requires WorldOk(w) && w.phase.AtTip? && r.Ok? && r.value.selection.Some?
    requires Stepped(w.store, r.value.state, SelectLicence(r)) && Valid(r.value.state)
    requires var id := r.value.selection.value.item.itemId;
             && Stored(w.store, id) && ItemBy(w.store, id).value.status == Armed
             && Stored(r.value.state, id) && ItemBy(r.value.state, id).value.status == Submitting
             && ItemBy(r.value.state, id).value.attemptCount == ItemBy(w.store, id).value.attemptCount
    ensures WorldOk(Chosen(w, r.value))
  {
    hide Valid, Stepped, Told, ChoiceOk, NoSubmission;
    SelectTells(w, r);
    SelectChooses(w, r);
  }

  lemma NothingChosenOk(w: World, s: State)
    requires WorldOk(w) && Stepped(w.store, s, PLAIN) && Valid(s)
    requires w.phase.AtTip?
    ensures WorldOk(Commit(w, s).(phase := Ending))
  {
    hide Valid, Stepped, Told, ChoiceOk, NoSubmission;
    ToldKept(w, s, PLAIN);
    ToldSame(Commit(w, s), Commit(w, s).(phase := Ending));
    NoChoice(Commit(w, s).(phase := Ending));
  }

  lemma NoChoice(w: World)
    requires !w.phase.Chose?
    ensures ChoiceOk(w)
  {
  }

  /** The world after a committed selection. */
  function Chosen(w: World, selected: Selected): World
    requires w.phase.AtTip? && selected.selection.Some?
  {
    var id := selected.selection.value.item.itemId;
    Commit(w, selected.state).(phase := Chose(selected.selection.value, w.phase.height, id in w.untried),
                               untried := Commit(w, selected.state).untried - {id})
  }

  /** The selection remembers rightly whether the record was untried. */
  lemma SelectChooses(w: World, r: Result<Selected, OutboxError>)
    requires Told(w) && w.phase.AtTip? && r.Ok? && r.value.selection.Some?
    requires var id := r.value.selection.value.item.itemId;
             && Stored(w.store, id) && ItemBy(w.store, id).value.status == Armed
             && Stored(r.value.state, id)
             && ItemBy(r.value.state, id).value.attemptCount == ItemBy(w.store, id).value.attemptCount
    ensures ChoiceOk(Chosen(w, r.value))
  {
  }

  lemma SteppedValid(s: State, s': State, licence: Licence)
    requires Stepped(s, s', licence)
    ensures Valid(s')
  {
  }

  /** The selected record is no longer untried; every other record is told as before. */
  lemma SelectTells(w: World, r: Result<Selected, OutboxError>)
    requires Told(w) && w.phase.AtTip? && r.Ok? && r.value.selection.Some?
    requires Stepped(w.store, r.value.state, SelectLicence(r))
    requires var id := r.value.selection.value.item.itemId;
             Stored(r.value.state, id) && ItemBy(r.value.state, id).value.status == Submitting
    ensures Told(Chosen(w, r.value))
  {
    hide Stepped, Told;
    var chosen, s := r.value.selection.value.item.itemId, r.value.state;
    forall id | Stored(s, id)
      ensures Attempted(ItemBy(s, id).value) <==> id !in Commit(w, s).untried - {chosen}
    {
      if id != chosen {
        CommitTells(w, s, SelectLicence(r), id);
      }
    }
    Tells(Chosen(w, r.value), s, Commit(w, s).untried - {chosen});
  }

  lemma Tells(w: World, s: State, untried: set<string>)
    requires w.store == s && w.untried == untried
    requires forall id :: Stored(s, id) ==> (Attempted(ItemBy(s, id).value) <==> id !in untried)
    ensures Told(w)
  {
  }

  /** Taking a selection back leaves the record armed, with as many attempts as before. */
  lemma CancelledRecord(s: State, id: string, message: string)
    requires Valid(s) && RecordCancelled(s, id, message).Ok?
    ensures Stored(s, id) && ItemBy(s, id).value.status == Submitting
    ensures var s' := RecordCancelled(s, id, message).value;
            && Stored(s', id) && ItemBy(s', id).value.status == Armed
            && ItemBy(s', id).value.attemptCount == ItemBy(s, id).value.attemptCount
  {
    var s' := RecordCancelled(s, id, message).value;
    RecordCancelledKeeps(s, id, message);
    LocateUnique(s'.batches, id, Locate(s.batches, id).value);
  }

  lemma CancelTells(w: World, message: string)
    requires WorldOk(w) && w.phase.Chose? && RecordCancelled(w.store, w.phase.selection.item.itemId, message).Ok?
    ensures Told(Step(w, CancelBeforeSend(true, message)).value)
  {
    hide Valid, RecordCancelled, Stepped, Told;
    var chosen := w.phase.selection.item.itemId;
    var s := RecordCancelled(w.store, chosen, message).value;
    var untried := Step(w, CancelBeforeSend(true, message)).value.untried;
    CancelStep(w.store, chosen, message);
    CancelledTells(w, message);
    forall id | Stored(s, id)
      ensures Attempted(ItemBy(s, id).value) <==> id !in untried
    {
      if id != chosen {
        CommitTells(w, s, Licence({}, {chosen}, {}), id);
      }
    }
    Tells(Step(w, CancelBeforeSend(true, message)).value, s, untried);
  }

  /** The record taken back is untried again exactly when it was before. */
  lemma CancelledTells(w: World, message: string)
    requires WorldOk(w) && w.phase.Chose? && RecordCancelled(w.store, w.phase.selection.item.itemId, message).Ok?
    ensures var chosen := w.phase.selection.item.itemId;
            var s := RecordCancelled(w.store, chosen, message).value;
            && Stored(w.store, chosen) && chosen !in w.untried && Stored(s, chosen)
            && (Attempted(ItemBy(s, chosen).value) <==> !w.phase.untried)
  {
    hide Valid, RecordCancelled;
    CancelledRecord(w.store, w.phase.selection.item.itemId, message);
  }

  lemma CancelKeeps(w: World, stored: bool, message: string)
    requires WorldOk(w) && w.phase.Chose?
    ensures WorldOk(Step(w, CancelBeforeSend(stored, message)).value)
  {
    hide Valid, RecordCancelled, Told, Stepped;
    var id := w.phase.selection.item.itemId;
    if stored && RecordCancelled(w.store, id, message).Ok? {
      CancelTells(w, message);
      CancelStep(w.store, id, message);
      SteppedValid(w.store, RecordCancelled(w.store, id, message).value, Licence({}, {id}, {}));
    } else {
      ToldSame(w, w.(phase := Ending));
    }
  }

  lemma ToldSame(w: World, w': World)
    requires Told(w) && w'.store == w.store && w'.untried == w.untried
    ensures Told(w')
  {
  }

  lemma SendKeeps(w: World, response: Option<SendResponse>)
    requires WorldOk(w) && w.phase.Chose?
    ensures WorldOk(Step(w, Send(response)).value)
  {
    hide Valid;
  }

  lemma OutcomeKeeps(w: World, stored: bool, message: string, now: Date, random: Randomness)
    requires WorldOk(w) && Step(w, RecordOutcome(stored, message, now, random)).Some?
    ensures WorldOk(Step(w, RecordOutcome(stored, message, now, random)).value)
  {
    hide Valid, Lifecycle, OutcomeUpdate;
    var s := if stored then
               Written(w.store, OutcomeUpdate(w.store, w.phase.selection, w.phase.height, w.phase.response, message,
                                              now, random))
             else w.store;
    if stored {
      OutcomeStep(w.store, w.phase.selection, w.phase.height, w.phase.response, message, now, random);
    } else {
      SameStep(w.store, PLAIN);
    }
    CommitKeeps(w, s, PLAIN);
  }

  lemma CallKeeps(w: World, call: Call)
    requires WorldOk(w) && Assumed(w.store, call)
    ensures WorldOk(Step(w, ChannelCall(call)).value)
  {
    hide Valid, Lifecycle, Apply;
    CallStep(w.store, call);
    CommitKeeps(w, Apply(w.store, call), CallLicence(w.store, call));
  }

  lemma GateKeeps(w: World, e: Event)
    requires WorldOk(w) && Step(w, e).Some?
    requires e.BeginRun? || e.GiveUp? || e.LearnTip? || e.FinishRun? || e.ProcessDies?
             || e.PauseGate? || e.DrainReturns? || e.ResumeGate? || e.DiscardStops?
    ensures WorldOk(Step(w, e).value)
  {
    hide Valid, Told, ChoiceOk, NoSubmission;
    var w' := Step(w, e).value;
    ToldSame(w, w');
    if w'.phase.Chose? {
      ChoiceSame(w, w');
    } else {
      NoChoice(w');
    }
  }

  lemma ChoiceSame(w: World, w': World)
    requires ChoiceOk(w) && w'.phase == w.phase && w'.store == w.store
    ensures ChoiceOk(w')
  {
  }

  /** Every event keeps the world consistent. */
  lemma StepKeeps(w: World, e: Event)
    requires WorldOk(w) && Step(w, e).Some?
    ensures WorldOk(Step(w, e).value)
  {
    match e
    case Inspect(now) => InspectKeeps(w, now);
    case Select(verifyProofs, attemptId, now) => SelectKeeps(w, verifyProofs, attemptId, now);
    case CancelBeforeSend(stored, message) => CancelKeeps(w, stored, message);
    case Send(response) => SendKeeps(w, response);
    case RecordOutcome(stored, message, now, random) => OutcomeKeeps(w, stored, message, now, random);
    case ChannelCall(call) => CallKeeps(w, call);
    case _ => GateKeeps(w, e);
  }

  lemma InitialOk()
    ensures WorldOk(INITIAL_WORLD)
  {
  }

  lemma {:induction false} RunKeeps(w: World, events: seq<Event>)
    requires WorldOk(w) && Run(w, events).Some?
    ensures WorldOk(Run(w, events).value)
    decreases |events|
  {
    hide WorldOk;
    if events != [] {
      StepKeeps(w, events[0]);
      RunKeeps(Step(w, events[0]).value, events[1..]);
    }
  }

  /** A world that some run of events leads to. */
  ghost predicate Reachable(w: World) {
    exists events :: Run(INITIAL_WORLD, events) == Some(w)
  }

  lemma ReachableOk(w: World)
    requires Reachable(w)
    ensures WorldOk(w)
  {
    var events :| Run(INITIAL_WORLD, events) == Some(w);
    InitialOk();
    RunKeeps(INITIAL_WORLD, events);
  }
}
