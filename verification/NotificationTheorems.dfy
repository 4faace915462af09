/** What the notification coordinator promises its callers, over every interleaving. */
module NotificationTheorems {
  import opened Common
  import opened NotificationCoordinator

  // ----- Every step keeps the accounts

  ghost predicate KeysOk(pending: map<string, Event>) {
    forall k :: k in pending ==> pending[k].Key() == k
  }

  lemma ExecuteKeys(s: State, b: Block, now: Date)
    requires KeysOk(s.pending)
    ensures KeysOk(Execute(s, b, now).state.pending)
  {
    if b.EnqueueBlock? {
      EnqueueEventsKeep(ExpireBatch(s, now), b.events, |b.events|);
      hide EnqueueEvents;
      assert KeysOk(EnqueueEvents(ExpireBatch(s, now), b.events, |b.events|).0.pending);
    }
  }

  lemma OneMore(q: multiset<nat>, w: multiset<nat>, a: multiset<nat>, c: multiset<nat>)
    ensures (q + c) + w + a == (q + w + a) + c && q + w + (a + c) == (q + w + a) + c
  {
  }

  lemma CallConserves(w: World, b: Block)
    requires w.called == Queued(w.queue) + Waiting(w.state.waiters) + Answered(w.answers) && IsCall(b)
    ensures var w' := Step(w, Call(b)).value;
            w'.called == Queued(w'.queue) + Waiting(w'.state.waiters) + Answered(w'.answers)
  {
    hide Queued, Waiting, Answered;
    QueuedAppend(w.queue, b);
    if b.EnqueueBlock? {
      AnsweredAppend(w.answers, [Answer(Caller(b.caller), true)]);
      OneCaller(b.caller);
      OneMore(Queued(w.queue), Waiting(w.state.waiters), Answered(w.answers), multiset{b.caller});
    }
  }

  lemma CallKeeps(w: World, b: Block)
    requires Sound(w) && IsCall(b)
    ensures Sound(Step(w, Call(b)).value)
  {
    hide Outstanding;
    CallConserves(w, b);
    hide Queued, Waiting, Answered;
    StillOutstanding(w, Step(w, Call(b)).value, w.state.generation);
  }

  /** Requests not called back stay so while nothing is taken from the queue or from the requests. */
  lemma StillOutstanding(w: World, w': World, generation: nat)
    requires w'.adds == w.adds && w.queue <= w'.queue
    ensures Outstanding(w, generation) ==> Outstanding(w', generation)
  {
    if Outstanding(w, generation) && !(exists i :: 0 <= i < |w.adds| && w.adds[i].generation == generation) {
      var i :| 0 <= i < |w.queue| && w.queue[i].CallbackBlock? && w.queue[i].sub.generation == generation;
      assert w'.queue[i] == w.queue[i];
    }
  }

  lemma ExecuteOutstanding(w: World, now: Date)
    requires Sound(w) && w.queue != []
    ensures var w' := Step(w, ExecuteNext(now)).value;
            w'.state.waiters != [] ==> Outstanding(w', w'.state.generation)
  {
    var b := w.queue[0];
    var e := Execute(w.state, b, now);
    var w' := Step(w, ExecuteNext(now)).value;
    ExecuteAccounts(w.state, b, now);
    if e.add.Some? {
      assert w'.adds[|w.adds|].generation == e.state.generation;
    } else if e.state.waiters != [] {
      assert !(b.CallbackBlock? && b.sub.generation == w.state.generation);
      hide Execute;
      var g := w.state.generation;
      if exists i :: 0 <= i < |w.adds| && w.adds[i].generation == g {
        assert w'.adds == w.adds;
      } else {
        var i :| 0 <= i < |w.queue| && w.queue[i].CallbackBlock? && w.queue[i].sub.generation == g;
        assert i > 0 && w'.queue[i - 1] == w.queue[i];
      }
    }
  }

  /** The world after a block, with the block's effects by name. */
  function Executed(w: World, e: Effects, now: Date): World
    requires w.queue != []
  {
    w.(state := e.state, queue := w.queue[1..], answers := w.answers + e.answers,
       adds := if e.add.Some? then w.adds + [e.add.value] else w.adds,
       rechecks := if e.recheck then w.rechecks + [now] else w.rechecks)
  }

  lemma ExecuteConserves(w: World, e: Effects, now: Date)
    requires w.queue != [] && Accounts(w.state, w.queue[0], e)
    requires w.called == Queued(w.queue) + Waiting(w.state.waiters) + Answered(w.answers)
    ensures var w' := Executed(w, e, now);
            w'.called == Queued(w'.queue) + Waiting(w'.state.waiters) + Answered(w'.answers)
  {
    AnsweredAppend(w.answers, e.answers);
    var first := if w.queue[0].EnqueueBlock? then multiset{w.queue[0].caller} else multiset{};
    var rest := Queued(w.queue[1..]);
    assert Queued(w.queue) == first + rest;
    assert first + rest + Waiting(w.state.waiters) == rest + (first + Waiting(w.state.waiters));
    assert rest + (Waiting(e.state.waiters) + Answered(e.answers)) + Answered(w.answers)
        == rest + Waiting(e.state.waiters) + (Answered(w.answers) + Answered(e.answers));
  }

  lemma ExecuteKeeps(w: World, now: Date)
    requires Sound(w) && w.queue != []
    ensures Sound(Step(w, ExecuteNext(now)).value)
  {
    hide Execute, Outstanding, Accounts;
    var e := Execute(w.state, w.queue[0], now);
    ExecuteOutstanding(w, now);
    ExecuteAccounts(w.state, w.queue[0], now);
    ExecuteKeys(w.state, w.queue[0], now);
    ExecuteConserves(w, e, now);
    assert Step(w, ExecuteNext(now)).value == Executed(w, e, now);
  }

  lemma ReportOutstanding(w: World, i: nat, ok: bool, g: nat)
    requires i < |w.adds| && Outstanding(w, g)
    ensures Outstanding(Step(w, AddReports(i, ok)).value, g)
  {
    var w' := Step(w, AddReports(i, ok)).value;
    if exists j :: 0 <= j < |w.adds| && w.adds[j].generation == g {
      var j :| 0 <= j < |w.adds| && w.adds[j].generation == g;
      if j == i {
        assert w'.queue[|w.queue|] == CallbackBlock(w.adds[i], ok);
      } else {
        assert w'.adds[if j < i then j else j - 1] == w.adds[j];
      }
    } else {
      var j :| 0 <= j < |w.queue| && w.queue[j].CallbackBlock? && w.queue[j].sub.generation == g;
      assert w'.queue[j] == w.queue[j];
    }
  }

  lemma ReportKeeps(w: World, i: nat, ok: bool)
    requires Sound(w) && i < |w.adds|
    ensures Sound(Step(w, AddReports(i, ok)).value)
  {
    hide Outstanding;
    QueuedAppend(w.queue, CallbackBlock(w.adds[i], ok));
    if w.state.waiters != [] {
      ReportOutstanding(w, i, ok, w.state.generation);
    }
  }

  lemma RecheckOutstanding(w: World, i: nat, shownPending: bool)
    requires i < |w.rechecks| && Outstanding(w, w.state.generation)
    ensures Outstanding(Step(w, RecheckReports(i, shownPending)).value, w.state.generation)
  {
    StillOutstanding(w, Step(w, RecheckReports(i, shownPending)).value, w.state.generation);
  }

  lemma RecheckKeeps(w: World, i: nat, shownPending: bool)
    requires Sound(w) && i < |w.rechecks|
    ensures Sound(Step(w, RecheckReports(i, shownPending)).value)
  {
    hide Outstanding;
    QueuedAppend(w.queue, RecheckBlock(shownPending, w.rechecks[i]));
    if w.state.waiters != [] {
      RecheckOutstanding(w, i, shownPending);
    }
  }

  lemma StepKeeps(w: World, h: Happening)
    requires Sound(w) && Step(w, h).Some?
    ensures Sound(Step(w, h).value)
  {
    hide Sound, Execute;
    match h {
      case Call(b) => CallKeeps(w, b);
      case ExecuteNext(now) => ExecuteKeeps(w, now);
      case AddReports(i, ok) => ReportKeeps(w, i, ok);
      case RecheckReports(i, shownPending) => RecheckKeeps(w, i, shownPending);
    }
  }

  /**
   * In every reachable world, whoever waits waits for an `add` of the current
   * generation that has yet to call back; and every caller is accounted for:
   * still queued, waiting, or answered, each call exactly once.
   */
  lemma {:induction false} RunKeeps(w: World, events: seq<Happening>)
    requires Sound(w) && Run(w, events).Some?
    ensures Sound(Run(w, events).value)
    decreases |events|
  {
    hide Sound, Step;
    if events != [] {
      StepKeeps(w, events[0]);
      RunKeeps(Step(w, events[0]).value, events[1..]);
    }
  }

  lemma InitialSound()
    ensures Sound(INITIAL_WORLD)
  {
  }

  // ----- Every call is answered

  function Weight(b: Block): nat {
    match b
    case EnqueueBlock(_, _) => 3
    case ResolveBlock(_) => 5
    case RetainBlock(_) => 5
    case ClearDeliveredBlock => 3
    case SuppressBlock => 1
    case ClearAllBlock => 1
    case RecheckBlock(_, _) => 3
    case CallbackBlock(_, _) => 1
  }

  function QueueWeight(queue: seq<Block>): nat {
    if queue == [] then 0 else Weight(queue[0]) + QueueWeight(queue[1..])
  }

  /** How many steps can still follow from what has been asked for. */
  function Work(w: World): nat {
    QueueWeight(w.queue) + 2 * |w.adds| + 4 * |w.rechecks|
  }

  lemma {:induction false} QueueWeightAppend(queue: seq<Block>, b: Block)
    ensures QueueWeight(queue + [b]) == QueueWeight(queue) + Weight(b)
  {
    if queue == [] {
      assert queue + [b] == [b];
      assert [b][1..] == [];
    } else {
      QueueWeightAppend(queue[1..], b);
      assert (queue + [b])[1..] == queue[1..] + [b];
    }
  }

  lemma ExecuteWork(s: State, b: Block, now: Date)
    ensures var e := Execute(s, b, now);
            (if e.add.Some? then 2 else 0) + (if e.recheck then 4 else 0) < Weight(b)
  {
    hide EnqueueEvents, AllAccepted;
  }

  lemma InternalStepWorks(w: World, h: Happening)
    requires Step(w, h).Some? && !h.Call?
    ensures Work(Step(w, h).value) < Work(w)
  {
    match h {
      case ExecuteNext(now) =>
        hide Execute;
        ExecuteWork(w.state, w.queue[0], now);
      case AddReports(i, ok) => QueueWeightAppend(w.queue, CallbackBlock(w.adds[i], ok));
      case RecheckReports(i, shownPending) => QueueWeightAppend(w.queue, RecheckBlock(shownPending, w.rechecks[i]));
    }
  }

  ghost predicate NoCalls(events: seq<Happening>) {
    forall i :: 0 <= i < |events| ==> !events[i].Call?
  }

  /** Without new calls, activity dies out: no run is longer than the work asked for. */
  lemma {:induction false} ActivityIsBounded(w: World, events: seq<Happening>)
    requires Run(w, events).Some? && NoCalls(events)
    ensures |events| + Work(Run(w, events).value) <= Work(w)
    decreases |events|
  {
    hide Step, Work;
    if events != [] {
      assert !events[0].Call?;
      InternalStepWorks(w, events[0]);
      assert forall i :: 0 <= i < |events| - 1 ==> events[1..][i] == events[i + 1];
      ActivityIsBounded(Step(w, events[0]).value, events[1..]);
    }
  }

  predicate Settled(w: World) {
    w.queue == [] && w.adds == [] && w.rechecks == []
  }

  /** As long as something is under way, some step can be taken without a new call. */
  lemma UnsettledGoesOn(w: World) returns (h: Happening)
    requires !Settled(w)
    ensures !h.Call? && Step(w, h).Some?
  {
    h := if w.queue != [] then ExecuteNext(0) else if w.adds != [] then AddReports(0, true)
        else RecheckReports(0, true);
  }

  /** Once every request has called back and the queue is empty, every call has been answered exactly once. */
  lemma SettledAnswersEveryone(w: World)
    requires Sound(w) && Settled(w)
    ensures w.state.waiters == [] && Answered(w.answers) == w.called
  {
  }

  lemma EveryCallIsAnsweredOnce(events: seq<Happening>)
    requires Run(INITIAL_WORLD, events).Some?
    ensures var w := Run(INITIAL_WORLD, events).value;
            && (forall caller :: Answered(w.answers)[caller] <= w.called[caller])
            && (Settled(w) ==> Answered(w.answers) == w.called)
  {
    InitialSound();
    RunKeeps(INITIAL_WORLD, events);
    var w := Run(INITIAL_WORLD, events).value;
    if Settled(w) {
      SettledAnswersEveryone(w);
    }
  }

  // ----- What counts as accepted

  /** A superseded callback changes nothing and answers nobody. */
  lemma SupersededCallbackIsIgnored(w: World, now: Date)
    requires w.queue != [] && w.queue[0].CallbackBlock? && w.queue[0].sub.generation != w.state.generation
    ensures Step(w, ExecuteNext(now)) == Some(w.(queue := w.queue[1..]))
  {
    assert w.answers + [] == w.answers;
  }

  /**
   * A fingerprint becomes accepted in two ways only: the current submission that
   * carried the event was registered, or the app came to the front while the
   * event was pending.
   */
  lemma AcceptanceHasACause(s: State, b: Block, now: Date, k: string)
    requires var s' := Execute(s, b, now).state;
             k in s'.accepted && (k !in s.accepted || s.accepted[k] != s'.accepted[k])
    ensures var f := Execute(s, b, now).state.accepted[k];
            || (b.CallbackBlock? && b.ok && b.sub.generation == s.generation && k in b.sub.events
                && b.sub.events[k].fingerprint == f)
            || (b.SuppressBlock? && k in s.pending && s.pending[k].fingerprint == f)
  {
    if b.EnqueueBlock? {
      hide EnqueueEvents, AllAccepted;
      EnqueueEventsKeep(ExpireBatch(s, now), b.events, |b.events|);
    }
  }

  // ----- A resolved scope and what comes after

  ghost predicate ScopeAccepted(s: State, scope: string) {
    exists k :: k in s.accepted && KeyOfScope(k, scope)
  }

  ghost predicate HasKeyOf(events: map<string, Event>, scope: string) {
    exists k :: k in events && KeyOfScope(k, scope)
  }

  /** The block executed now accepts an event of the scope: a current submission's callback, or a suppression. */
  ghost predicate AcceptsScope(w: World, h: Happening, scope: string) {
    && h.ExecuteNext? && w.queue != []
    && match w.queue[0]
       case CallbackBlock(sub, ok) => ok && sub.generation == w.state.generation && HasKeyOf(sub.events, scope)
       case SuppressBlock => HasKeyOf(w.state.pending, scope)
       case _ => false
  }

  /** A scope without accepted fingerprints gets one exactly by such a block. */
  lemma ScopeAcceptedExactly(w: World, h: Happening, scope: string)
    requires Step(w, h).Some? && !ScopeAccepted(w.state, scope)
    ensures ScopeAccepted(Step(w, h).value.state, scope) <==> AcceptsScope(w, h, scope)
  {
    if h.ExecuteNext? {
      BlockAcceptsExactly(w.state, w.queue[0], h.now, scope);
    }
  }

  lemma BlockAcceptsExactly(s: State, b: Block, now: Date, scope: string)
    requires !ScopeAccepted(s, scope)
    ensures ScopeAccepted(Execute(s, b, now).state, scope)
            <==> match b
                 case CallbackBlock(sub, ok) => ok && sub.generation == s.generation && HasKeyOf(sub.events, scope)
                 case SuppressBlock => HasKeyOf(s.pending, scope)
                 case _ => false
  {
    var s' := Execute(s, b, now).state;
    if ScopeAccepted(s', scope) {
      var k :| k in s'.accepted && KeyOfScope(k, scope);
      AcceptanceHasACause(s, b, now, k);
    } else {
      NothingAccepted(s, b, now, scope);
    }
  }

  lemma NothingAccepted(s: State, b: Block, now: Date, scope: string)
    requires !ScopeAccepted(Execute(s, b, now).state, scope)
    ensures b.CallbackBlock? && b.ok && b.sub.generation == s.generation ==> !HasKeyOf(b.sub.events, scope)
    ensures b.SuppressBlock? ==> !HasKeyOf(s.pending, scope)
  {
    var s' := Execute(s, b, now).state;
    if b.CallbackBlock? && b.ok && b.sub.generation == s.generation {
      assert forall k :: k in b.sub.events ==> k in s'.accepted;
    }
    if b.SuppressBlock? {
      assert forall k :: k in s.pending ==> k in s'.accepted;
    }
  }

  /** At no moment of the run is a fingerprint of the scope accepted. */
  ghost predicate Forgotten(w: World, events: seq<Happening>, scope: string)
    decreases |events|
  {
    && !ScopeAccepted(w.state, scope)
    && (events != [] && Step(w, events[0]).Some? ==> Forgotten(Step(w, events[0]).value, events[1..], scope))
  }

  ghost predicate NoneAccepts(w: World, events: seq<Happening>, scope: string)
    decreases |events|
  {
    events == [] ||
    (!AcceptsScope(w, events[0], scope)
     && (Step(w, events[0]).Some? ==> NoneAccepts(Step(w, events[0]).value, events[1..], scope)))
  }

  lemma {:induction false} ForgottenExactly(w: World, events: seq<Happening>, scope: string)
    requires Run(w, events).Some? && !ScopeAccepted(w.state, scope)
    ensures Forgotten(w, events, scope) <==> NoneAccepts(w, events, scope)
    decreases |events|
  {
    hide Step, ScopeAccepted, AcceptsScope;
    if events != [] {
      var w' := Step(w, events[0]).value;
      ScopeAcceptedExactly(w, events[0], scope);
      if !ScopeAccepted(w'.state, scope) {
        ForgottenExactly(w', events[1..], scope);
      }
    }
  }

  /**
   * Resolving a scope forgets its accepted fingerprints. Whatever is executed
   * afterwards, in any order, they stay forgotten exactly as long as no callback
   * of a current submission that carried an event of the scope, and no
   * suppression with one pending, is executed.
   */
  lemma ResolvedScopeStaysForgottenExactly(w: World, now: Date, scope: string, events: seq<Happening>)
    requires w.queue != [] && w.queue[0] == ResolveBlock(scope)
    requires Run(Step(w, ExecuteNext(now)).value, events).Some?
    ensures var w1 := Step(w, ExecuteNext(now)).value;
            Forgotten(w1, events, scope) <==> NoneAccepts(w1, events, scope)
  {
    var w1 := Step(w, ExecuteNext(now)).value;
    assert !ScopeAccepted(w1.state, scope);
    hide Step;
    ForgottenExactly(w1, events, scope);
  }

  // ----- ... which need not be for long

  function EventA(): Event { Event("a", TerminalFailure, "1") }
  function EventB(): Event { Event("b", TerminalFailure, "2") }

  function BothPending(): map<string, Event> {
    map[EventA().Key() := EventA(), EventB().Key() := EventB()]
  }

  lemma KeysDiffer()
    ensures EventA().Key() != EventB().Key()
  {
    assert EventA().Key()[0] != EventB().Key()[0];
  }

  lemma Then(start: World, events: seq<Happening>, w: World, h: Happening) returns (events': seq<Happening>, w': World)
    requires Run(start, events) == Some(w) && Step(w, h).Some?
    ensures events' == events + [h] && Step(w, h) == Some(w') && Run(start, events') == Some(w')
    decreases |events|
  {
    events', w' := events + [h], Step(w, h).value;
    if events == [] {
      assert events' == [h] && [h][1..] == [];
    } else {
      var _, _ := Then(Step(start, events[0]).value, events[1..], w, h);
      assert events'[1..] == events[1..] + [h];
    }
  }

  lemma EnqueuesBoth()
    ensures Enqueue(INITIAL_STATE, 1, [EventA(), EventB()], 0)
            == Effects(State(BothPending(), map[], Some(30), 1, [Caller(1)]), [], Some(Submission(1, BothPending())),
                       false)
  {
    KeysDiffer();
    var events := [EventA(), EventB()];
    assert EnqueueEvents(INITIAL_STATE, events, 0) == (INITIAL_STATE, false);
    assert EnqueueEvents(INITIAL_STATE, events, 1).0.pending == map[EventA().Key() := EventA()];
    assert EnqueueEvents(INITIAL_STATE, events, 2).0.pending == BothPending();
  }

  lemma ResolvesA(s: State)
    requires s == State(BothPending(), map[], Some(30), 1, [Caller(1)])
    ensures var e := Resolve(s, "a", 0);
            && e.recheck && e.add.None? && e.answers == [] && e.state.generation == 1 && e.state.deadline == Some(30)
            && e.state.waiters == [Caller(1)] && EventA().Key() !in e.state.pending
  {
    KeysDiffer();
    assert EventB().Key() in ResolveScope(s, "a").pending;
  }

  lemma SwallowedWhenAccepted(s: State, e: Event)
    requires e.Key() in s.accepted && s.accepted[e.Key()] == e.fingerprint && s.deadline == Some(30)
    ensures Enqueue(s, 7, [e], 0) == Effects(s, [Answer(Caller(7), true)], None, false)
  {
    assert EnqueueEvents(s, [e], 0) == (s, false);
    assert EnqueueEvents(s, [e], 1) == (s, false);
  }

  const RESOLVING: seq<Happening> :=
    [Call(EnqueueBlock(1, [EventA(), EventB()])), ExecuteNext(0), Call(ResolveBlock("a")), ExecuteNext(0)]
  const SILENCING: seq<Happening> :=
    RESOLVING + [AddReports(0, true), ExecuteNext(0), Call(EnqueueBlock(7, [EventA()])), ExecuteNext(0)]

  lemma ResolvedRun() returns (w: World)
    ensures Run(INITIAL_WORLD, RESOLVING) == Some(w)
    ensures w.queue == [] && w.adds == [Submission(1, BothPending())] && w.answers == []
    ensures w.state.generation == 1 && w.state.deadline == Some(30) && w.state.waiters == [Caller(1)]
    ensures EventA().Key() !in w.state.pending
  {
    hide Enqueue, Resolve;
    EnqueuesBoth();
    var events;
    events, w := Then(INITIAL_WORLD, [], INITIAL_WORLD, Call(EnqueueBlock(1, [EventA(), EventB()])));
    events, w := Then(INITIAL_WORLD, events, w, ExecuteNext(0));
    ResolvesA(w.state);
    events, w := Then(INITIAL_WORLD, events, w, Call(ResolveBlock("a")));
    events, w := Then(INITIAL_WORLD, events, w, ExecuteNext(0));
    assert events == RESOLVING;
  }

  lemma CallbackAcceptsA(s: State)
    requires s.generation == 1 && s.waiters == [Caller(1)]
    ensures var e := Callback(s, Submission(1, BothPending()), true);
            && e.answers == [Answer(Caller(1), true)] && e.add.None? && !e.recheck
            && e.state.pending == s.pending && e.state.deadline == s.deadline
            && EventA().Key() in e.state.accepted && e.state.accepted[EventA().Key()] == "1"
  {
    KeysDiffer();
    assert Answers([Caller(1)], true) == [Answer(Caller(1), true)];
  }

  /** The submission is still current when its callback comes, so the resolved event is accepted again. */
  lemma AcceptedAgainRun() returns (w: World)
    ensures Run(INITIAL_WORLD, RESOLVING + [AddReports(0, true), ExecuteNext(0)]) == Some(w)
    ensures w.queue == [] && w.adds == [] && w.answers == [Answer(Caller(1), true)]
            && EventA().Key() !in w.state.pending
    ensures w.state.deadline == Some(30)
    ensures EventA().Key() in w.state.accepted && w.state.accepted[EventA().Key()] == "1"
  {
    hide Enqueue, Resolve, Retain, ClearDelivered, Recheck, Suppress, ClearAll, Callback, BothPending, EventA;
    w := ResolvedRun();
    CallbackAcceptsA(w.state);
    var events := RESOLVING;
    events, w := Then(INITIAL_WORLD, events, w, AddReports(0, true));
    events, w := Then(INITIAL_WORLD, events, w, ExecuteNext(0));
    assert events == RESOLVING + [AddReports(0, true), ExecuteNext(0)];
  }

  /**
   * A callback under way when scope "a" is resolved accepts its event again, and
   * the next equal event is answered as submitted although no submission carries it.
   */
  lemma ResolvedScopeCanBeSilenced() returns (w: World)
    ensures Run(INITIAL_WORLD, SILENCING) == Some(w)
    ensures w.queue == [] && w.adds == [] && EventA().Key() !in w.state.pending
    ensures w.answers == [Answer(Caller(1), true), Answer(Caller(7), true)]
  {
    hide Enqueue, Resolve, Retain, ClearDelivered, Recheck, Suppress, ClearAll, Callback;
    w := AcceptedAgainRun();
    var events := RESOLVING + [AddReports(0, true), ExecuteNext(0)];
    SwallowedWhenAccepted(w.state, EventA());
    events, w := Then(INITIAL_WORLD, events, w, Call(EnqueueBlock(7, [EventA()])));
    events, w := Then(INITIAL_WORLD, events, w, ExecuteNext(0));
    assert events == SILENCING;
  }

  // ----- The aggregation window

  /**
   * Resolving a scope removes its events and no other, never extends a window
   * that is still open, and leaves no past deadline behind that would let the
   * next event expire the scopes still pending.
   */
  lemma ResolveKeepsTheWindow(s: State, scope: string, now: Date)
    ensures var s1 := Resolve(s, scope, now).state;
            && (forall k :: k in s1.pending <==> k in s.pending && s.pending[k].scope != scope)
            && (forall k :: k in s1.pending ==> s1.pending[k] == s.pending[k])
            && ExpireBatch(s1, now) == s1
            && (HasSummary(s1) && s.deadline.Some? && s.deadline.value > now ==> s1.deadline == s.deadline)
  {
  }

  lemma RetainKeepsTheWindow(s: State, scopes: set<string>, now: Date)
    ensures var s1 := Retain(s, scopes, now).state;
            && (forall k :: k in s1.pending <==> k in s.pending && s.pending[k].scope in scopes)
            && (forall k :: k in s1.pending ==> s1.pending[k] == s.pending[k])
            && ExpireBatch(s1, now) == s1
            && (HasSummary(s1) && s.deadline.Some? && s.deadline.value > now ==> s1.deadline == s.deadline)
            && (Retain(s, scopes, now).recheck ==> exists k :: k in s.pending && s.pending[k].scope !in scopes)
  {
    var s1 := Retain(s, scopes, now).state;
    if (forall k :: k in s.pending ==> s.pending[k].scope in scopes) {
      assert s1.pending == s.pending;
    }
  }

  /** What is pending for a key after the first events of a call. */
  lemma {:induction false} EnqueuedEvents(s: State, events: seq<Event>, n: nat, k: string)
    requires n <= |events|
    ensures var r := EnqueueEvents(s, events, n).0;
            && (k in s.pending ==> k in r.pending)
            && (k in r.pending ==> (k in s.pending && r.pending[k] == s.pending[k])
                                   || exists i :: 0 <= i < n && events[i].Key() == k && r.pending[k] == events[i])
  {
    if n > 0 {
      EnqueuedEvents(s, events, n - 1, k);
    }
  }

  /** A call joins the open batch: earlier events stay unless replaced under their key, and the window is not moved. */
  lemma EnqueueJoinsTheBatch(s: State, caller: nat, events: seq<Event>, now: Date, k: string)
    requires s.deadline.Some? && s.deadline.value > now
    ensures var s1 := Enqueue(s, caller, events, now).state;
            && s1.deadline == s.deadline
            && (k in s.pending ==> k in s1.pending)
            && (k in s1.pending ==> (k in s.pending && s1.pending[k] == s.pending[k])
                                    || exists i :: 0 <= i < |events| && events[i].Key() == k
                                        && s1.pending[k] == events[i])
  {
    EnqueuedEvents(s, events, |events|, k);
    EnqueueEventsKeep(s, events, |events|);
    hide EnqueueEvents, AllAccepted;
  }

  /** The first event of a batch opens a window of thirty seconds. */
  lemma EnqueueOpensAWindow(s: State, caller: nat, events: seq<Event>, now: Date)
    requires s.deadline.None? && Enqueue(s, caller, events, now).add.Some?
    ensures Enqueue(s, caller, events, now).state.deadline == Some(now + 30)
  {
    EnqueueEventsKeep(s, events, |events|);
    hide EnqueueEvents, AllAccepted;
  }
}
