/**
 * One whole run of the outbox runner, with whatever the network, the store,
 * cancellation and the app do meanwhile, proved to be a possible run of the world.
 */
module OutboxRunOnce {
  import opened Common
  import opened OutboxTypes
  import opened OutboxOps
  import opened OutboxInvariant
  import opened OutboxRunner
  import opened OutboxSubmission
  import opened ExecutionGate
  import opened OutboxWorld
  import opened OutboxSafety
  import opened OutboxStore

  /** What a run reports about the transport. */
  datatype Transport =
    | TemporarilyUnavailable
    | Cancelled
    | NoWork
    | Waiting(nextHeight: U64, observedHeight: U64)
    | NeedsUserAction
    | AcceptedByNetwork(next: Option<U64>, observedHeight: U64)

  /**
   * Everything a run meets: cancellation, store failures, what the network
   * answers, and the app's calls between the run's updates.
   */
  datatype Surroundings = Surroundings(
    now: Date,
    verifyProofs: bool,
    attemptId: string,
    cancelledAtStart: bool,
    inspectStored: bool,
    duringTip: seq<Call>,
    tip: Result<U64, Transport>,
    cancelledAtTip: bool,
    selectStored: bool,
    beforeSend: seq<Call>,
    cancelledBeforeSend: bool,
    cancelStored: bool,
    response: Result<SendResponse, Transport>,
    duringSend: seq<Call>,
    failure: string,
    outcomeStored: bool,
    random: RandomSource)

  const EXPIRED_BEFORE_SUBMISSION := "Background execution expired before submission."

  /** What a run without a selection reports: something was retired at this height, or when to look again. */
  function Unselected(s: State, endpoint: string, height: U64): Transport {
    if RetiredAt(s.receipts, height) then NeedsUserAction
    else
      match NextActionHeight(s.batches, endpoint)
      case None => NoWork
      case Some(next) => Waiting(next, height)
  }

  /** Waiting is for the least height at which the endpoint has something to do; no work means that there is none. */
  lemma UnselectedExactly(s: State, endpoint: string, height: U64)
    requires !RetiredAt(s.receipts, height)
    ensures Unselected(s, endpoint, height).NoWork?
            <==> forall i, h :: 0 <= i < |s.batches| && s.batches[i].url == endpoint ==> !Acts(s.batches[i], h)
    ensures Unselected(s, endpoint, height).Waiting? ==>
              var next := Unselected(s, endpoint, height).nextHeight;
              && (exists i :: 0 <= i < |s.batches| && s.batches[i].url == endpoint && Acts(s.batches[i], next))
              && (forall i, h :: 0 <= i < |s.batches| && s.batches[i].url == endpoint && Acts(s.batches[i], h) ==>
                  next <= h)
  {
  }

  // ----- Parts of a run

  lemma {:induction false} RunConcat(w: World, a: seq<Event>, b: seq<Event>)
    requires Run(w, a).Some?
    ensures Run(w, a + b) == Run(Run(w, a).value, b)
    decreases |a|
  {
    if a == [] {
      assert a + b == b;
    } else {
      RunConcat(Step(w, a[0]).value, a[1..], b);
      assert (a + b)[1..] == a[1..] + b;
    }
  }

  lemma RunOne(w: World, e: Event)
    ensures Run(w, [e]) == Step(w, e)
  {
    assert [e][1..] == [];
  }

  /** From one position of a run to another: a possible run of the world that leaves the gate alone. */
  ghost predicate Leads(w: World, trace: seq<Event>, w': World) {
    Run(w, trace) == Some(w') && w'.gate == w.gate
  }

  lemma Follows(w: World, a: seq<Event>, w1: World, b: seq<Event>, w2: World)
    requires Leads(w, a, w1) && Leads(w1, b, w2)
    ensures Leads(w, a + b, w2)
  {
    RunConcat(w, a, b);
  }

  lemma StepLeads(w: World, e: Event)
    requires Step(w, e).Some? && Step(w, e).value.gate == w.gate
    ensures Leads(w, [e], Step(w, e).value)
  {
    RunOne(w, e);
  }

  /** How many sends and how many outcome updates lie between. */
  ghost predicate Balanced(w: World, w': World, sends: nat) {
    w'.sends == w.sends + sends && w'.outcomes == w.outcomes + sends
  }

  lemma GivesUp(w: World) returns (trace: seq<Event>, w': World)
    requires w.phase.Admitted? || w.phase.Inspected? || w.phase.AtTip?
    ensures Leads(w, trace, w') && w' == w.(phase := Ending)
  {
    trace, w' := [GiveUp], w.(phase := Ending);
    StepLeads(w, GiveUp);
  }

  // ----- From the selection on

  /** What becomes of the answer to a sent transaction. */
  ghost predicate Recorded(env: Surroundings, s: State, selection: Selection, height: U64, transport: Transport) {
    transport.AcceptedByNetwork? <==>
      && Accepting(env)
      && RandomnessFits(s, selection.item.itemId, height, Drawn(env.random, s, selection.item.itemId, height))
      && OutboxWorld.OutcomeUpdate(s, selection, height, Some(env.response.value), env.failure, env.now,
                                   Drawn(env.random, s, selection.item.itemId, height)).Ok?
  }

  /** The network took the transaction and the store is there to record it. */
  ghost predicate Accepting(env: Surroundings) {
    env.response.Ok? && AcceptsResponse(env.response.value) && env.outcomeStored
  }

  /** The outcome update after the transport call, and what the run then reports. */
  method RunSent(store: Store, env: Surroundings, endpoint: string, selection: Selection, height: U64, ghost w: World)
    returns (transport: Transport, ghost trace: seq<Event>, ghost w': World)
    requires Fair(env.random)
    requires w.store == store.file && w.phase == Sent(selection, height, Answer(env))
    modifies store
    ensures Leads(w, trace, w') && w'.phase.Ending? && w'.store == store.file
    ensures w'.sends == w.sends && w'.outcomes == w.outcomes + 1
    ensures Recorded(env, old(store.file), selection, height, transport)
    ensures transport.AcceptedByNetwork? ==> transport.next == NextActionHeight(store.file.batches, endpoint)
  {
    hide Fair, RandomnessFits, NextActionHeight;
    var id := selection.item.itemId;
    var random := Drawn(env.random, store.file, id, height);
    DrawnFits(env.random, store.file, id, height);
    ghost var outcome := RecordOutcome(env.outcomeStored, env.failure, env.now, random);
    var committed := false;
    if env.outcomeStored {
      committed := store.OutcomeUpdate(selection, height, Answer(env), env.failure, env.now, random);
    }
    trace, w' := [outcome], Step(w, outcome).value;
    StepLeads(w, outcome);
    if env.response.Err? {
      transport := if env.response.error == Cancelled then Cancelled else TemporarilyUnavailable;
    } else if !env.outcomeStored {
      transport := TemporarilyUnavailable;
    } else if committed && AcceptsResponse(env.response.value) {
      transport := AcceptedByNetwork(NextActionHeight(store.file.batches, endpoint), height);
    } else {
      transport := NeedsUserAction;
    }
  }

  function Answer(env: Surroundings): Option<SendResponse> {
    if env.response.Ok? then Some(env.response.value) else None
  }

  /** The selection is taken back, if the store takes it. */
  method RunCancelled(store: Store, env: Surroundings, selection: Selection, ghost w: World)
    returns (ghost trace: seq<Event>, ghost w': World)
    requires w.store == store.file && w.phase.Chose? && w.phase.selection == selection
    modifies store
    ensures Leads(w, trace, w') && w'.phase.Ending? && w'.store == store.file && Balanced(w, w', 0)
  {
    hide RecordCancelled;
    store.CancelUpdate(selection.item.itemId, EXPIRED_BEFORE_SUBMISSION, env.cancelStored);
    ghost var cancel := CancelBeforeSend(env.cancelStored, EXPIRED_BEFORE_SUBMISSION);
    trace, w' := [cancel], Step(w, cancel).value;
    StepLeads(w, cancel);
  }

  /** The transport call and the outcome update, with the app's calls while it lasts. */
  method RunSending(store: Store, env: Surroundings, endpoint: string, selection: Selection, height: U64,
                    ghost w: World)
    returns (transport: Transport, ghost trace: seq<Event>, ghost w': World)
    requires Fair(env.random)
    requires w.store == store.file && w.phase.Chose? && w.phase.selection == selection && w.phase.height == height
    modifies store
    ensures Leads(w, trace, w') && w'.phase.Ending? && w'.store == store.file && Balanced(w, w', 1)
    ensures env.duringSend == [] ==> Recorded(env, old(store.file), selection, height, transport)
  {
    hide Fair, Recorded;
    ghost var send := Send(Answer(env));
    ghost var w2 := Step(w, send).value;
    StepLeads(w, send);
    ghost var during, w3 := HandleCalls(store, env.duringSend, w2);
    Follows(w, [send], w2, during, w3);
    transport, trace, w' := RunSent(store, env, endpoint, selection, height, w3);
    Follows(w, [send] + during, w3, trace, w');
    trace := [send] + during + trace;
  }

  method RunChosen(store: Store, env: Surroundings, endpoint: string, selection: Selection, height: U64, ghost w: World)
    returns (transport: Transport, ghost trace: seq<Event>, ghost w': World)
    requires Fair(env.random)
    requires w.store == store.file && w.phase.Chose? && w.phase.selection == selection && w.phase.height == height
    modifies store
    ensures Leads(w, trace, w') && w'.phase.Ending? && w'.store == store.file
    ensures Balanced(w, w', if env.cancelledBeforeSend then 0 else 1)
    ensures env.cancelledBeforeSend ==> transport == Cancelled
    ensures !env.cancelledBeforeSend && env.beforeSend == [] && env.duringSend == [] ==>
              Recorded(env, old(store.file), selection, height, transport)
  {
    hide Fair, Recorded;
    ghost var before, w1 := HandleCalls(store, env.beforeSend, w);
    if env.cancelledBeforeSend {
      transport := Cancelled;
      trace, w' := RunCancelled(store, env, selection, w1);
    } else {
      transport, trace, w' := RunSending(store, env, endpoint, selection, height, w1);
    }
    Follows(w, before, w1, trace, w');
    trace := before + trace;
  }

  // ----- From the tip on

  method RunAtTip(store: Store, env: Surroundings, endpoint: string, height: U64, ghost w: World)
    returns (transport: Transport, ghost trace: seq<Event>, ghost w': World)
    requires Fair(env.random)
    requires w.store == store.file && w.phase == AtTip(endpoint, height)
    modifies store
    ensures Leads(w, trace, w') && w'.phase.Ending? && w'.store == store.file
    ensures Balanced(w, w', 0) || Balanced(w, w', 1)
    ensures transport.AcceptedByNetwork? ==> Balanced(w, w', 1)
    ensures Valid(w.store) && CanonicalExpiry(height).Some? && Balanced(w, w', 1) && Undisturbed(env) ==>
              transport.AcceptedByNetwork?
    ensures !env.cancelledAtTip && env.selectStored && SelectsNothing(w.store, env, endpoint, height) ==>
              transport == Unselected(store.file, endpoint, height)
  {
    hide Fair, Valid, OutboxRunner.SelectUpdate, Recorded, Accepting, NextActionHeight, RetiredAt;
    if env.cancelledAtTip || !env.selectStored {
      trace, w' := GivesUp(w);
      return if env.cancelledAtTip then Cancelled else TemporarilyUnavailable, trace, w';
    }
    var selected := store.SelectUpdate(endpoint, height, env.verifyProofs, env.attemptId, env.now);
    ghost var select := Select(env.verifyProofs, env.attemptId, env.now);
    ghost var chosen := Step(w, select).value;
    StepLeads(w, select);
    if selected.Err? {
      return NeedsUserAction, [select], chosen;
    }
    if selected.value.None? {
      return Unselected(store.file, endpoint, height), [select], chosen;
    }
    ghost var s := store.file;
    transport, trace, w' := RunChosen(store, env, endpoint, selected.value.value, height, chosen);
    Follows(w, [select], chosen, trace, w');
    if Valid(w.store) && CanonicalExpiry(height).Some? && Balanced(w, w', 1) && Undisturbed(env) {
      AcceptanceCommits(w.store, env, endpoint, height, s, selected.value.value, transport);
    }
    trace := [select] + trace;
  }

  ghost predicate SelectsNothing(s: State, env: Surroundings, endpoint: string, height: U64) {
    var r := OutboxRunner.SelectUpdate(s, endpoint, height, env.verifyProofs, env.attemptId, env.now);
    r.Ok? && r.value.selection.None?
  }

  /** The network accepts, the store is there, and the app makes no call in between. */
  ghost predicate Undisturbed(env: Surroundings) {
    Accepting(env) && env.beforeSend == [] && env.duringSend == []
  }

  lemma AcceptanceCommits(s: State, env: Surroundings, endpoint: string, height: U64, s': State, selection: Selection,
                          transport: Transport)
    requires Valid(s) && CanonicalExpiry(height).Some? && Accepting(env) && Fair(env.random)
    requires OutboxRunner.SelectUpdate(s, endpoint, height, env.verifyProofs, env.attemptId, env.now)
             == Ok(Selected(s', Some(selection)))
    requires Recorded(env, s', selection, height, transport)
    ensures transport.AcceptedByNetwork?
  {
    hide Fair, RandomnessFits, Valid, OutboxRunner.SelectUpdate, RecordAccepted, AcceptsResponse;
    var reply := env.response.value;
    var random := Drawn(env.random, s', selection.item.itemId, height);
    DrawnFits(env.random, s', selection.item.itemId, height);
    PreflightIsSound(s, endpoint, height, env.verifyProofs, env.attemptId, env.now, reply.errorCode != 0,
                     reply.errorCode,
                     reply.errorMessage, env.now, random);
  }

  // ----- The whole run

  method RunAdmitted(store: Store, env: Surroundings, ghost w: World)
    returns (transport: Transport, ghost trace: seq<Event>, ghost w': World)
    requires Fair(env.random)
    requires w.store == store.file && w.phase.Admitted?
    modifies store
    ensures Leads(w, trace, w') && w'.phase.Ending? && w'.store == store.file
    ensures Balanced(w, w', 0) || Balanced(w, w', 1)
    ensures transport.AcceptedByNetwork? ==> Balanced(w, w', 1)
    ensures WorldOk(w) && TipInRange(env) && Balanced(w, w', 1) && Undisturbed(env) ==> transport.AcceptedByNetwork?
  {
    hide Fair, Valid, OutboxRunner.FirstUpdate, Undisturbed, WorldOk, SelectsNothing, Unselected;
    if env.cancelledAtStart {
      trace, w' := GivesUp(w);
      return Cancelled, trace, w';
    }
    var first := store.FirstUpdate(env.now, env.inspectStored);
    if first.None? {
      trace, w' := GivesUp(w);
      return TemporarilyUnavailable, trace, w';
    }
    ghost var inspect := Inspect(env.now);
    ghost var w1 := Step(w, inspect).value;
    StepLeads(w, inspect);
    if first.value.None? {
      return NoWork, [inspect], w1;
    }
    ghost var during, w2 := HandleCalls(store, env.duringTip, w1);
    Follows(w, [inspect], w1, during, w2);
    if env.tip.Err? {
      trace, w' := GivesUp(w2);
      Follows(w, [inspect] + during, w2, trace, w');
      return if env.tip.error == Cancelled then Cancelled else TemporarilyUnavailable, [inspect] + during + trace, w';
    }
    ghost var learn := LearnTip(env.tip.value);
    ghost var w3 := Step(w2, learn).value;
    StepLeads(w2, learn);
    Follows(w, [inspect] + during, w2, [learn], w3);
    transport, trace, w' := RunAtTip(store, env, first.value.value, env.tip.value, w3);
    Follows(w, [inspect] + during + [learn], w3, trace, w');
    trace := [inspect] + during + [learn] + trace;
    if WorldOk(w) {
      StepKeeps(w, inspect);
      OkIsValid(w2);
    }
  }

  ghost predicate TipInRange(env: Surroundings) {
    env.tip.Ok? && CanonicalExpiry(env.tip.value).Some?
  }

  lemma OkIsValid(w: World)
    requires WorldOk(w)
    ensures Valid(w.store)
  {
  }

  /**
   * `runOnce`. Whatever the surroundings do, the run is a possible run of the
   * world that leaves the gate as it was: it sends at most once, attempts the
   * outcome update for what it sent, keeps the world consistent, and reports
   * acceptance whenever the network accepted, the store is there and the app did
   * not intervene, because the check made before sending guarantees that the
   * acceptance can be recorded.
   */
  method RunOnce(store: Store, gate: Gate, env: Surroundings, ghost w: World)
    returns (transport: Transport, ghost trace: seq<Event>, ghost w': World)
    requires Fair(env.random)
    requires w.store == store.file && w.gate == gate.View()
    modifies store, gate
    ensures Leads(w, trace, w') && w'.store == store.file && w'.gate == gate.View()
    ensures !Admits(w.gate) ==> transport == TemporarilyUnavailable && trace == [] && store.file == old(store.file)
    ensures Admits(w.gate) ==> w'.phase.Idle?
    ensures Balanced(w, w', 0) || Balanced(w, w', 1)
    ensures transport.AcceptedByNetwork? ==> Balanced(w, w', 1)
    ensures WorldOk(w) ==> WorldOk(w')
    ensures WorldOk(w) && TipInRange(env) && Balanced(w, w', 1) && Undisturbed(env) ==> transport.AcceptedByNetwork?
  {
    hide Fair, Valid, WorldOk, TipInRange, Undisturbed;
    var admitted := gate.TryBeginRun();
    if !admitted {
      return TemporarilyUnavailable, [], w;
    }
    ghost var begun := Step(w, BeginRun).value;
    RunOne(w, BeginRun);
    if WorldOk(w) {
      StepKeeps(w, BeginRun);
    }
    ghost var inner, ended;
    transport, inner, ended := RunAdmitted(store, env, begun);
    gate.FinishRun();
    RunConcat(w, [BeginRun], inner);
    w' := Step(ended, FinishRun).value;
    RunOne(ended, FinishRun);
    RunConcat(w, [BeginRun] + inner, [FinishRun]);
    trace := [BeginRun] + inner + [FinishRun];
    if WorldOk(w) {
      RunKeeps(w, trace);
    }
  }
}
