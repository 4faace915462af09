/**
 * Which answer a caller of `enqueue` gets, and what it stands for: true for a
 * registered submission that speaks for its events, or where nothing was left to
 * announce; false for a submission that failed or was torn down.
 */
module NotificationAnswers {
  import opened Common
  import opened NotificationCoordinator
  import opened NotificationTheorems

  /** The step gives the caller this answer. */
  ghost predicate AnswersNow(w: World, h: Happening, caller: nat, submitted: bool)
    requires Step(w, h).Some?
  {
    var answers := Step(w, h).value.answers;
    exists i :: |w.answers| <= i < |answers| && answers[i] == Answer(Caller(caller), submitted)
  }

  predicate Executes(w: World, h: Happening) {
    h.ExecuteNext? && w.queue != []
  }

  /** The callback of the current submission is executed, and reports this. */
  predicate CallsBack(w: World, h: Happening, ok: bool) {
    Executes(w, h) && w.queue[0].CallbackBlock? && w.queue[0].ok == ok
        && w.queue[0].sub.generation == w.state.generation
  }

  /** The block executed leaves nothing to announce. */
  predicate LeavesNothing(w: World, h: Happening) {
    && Executes(w, h)
    && match w.queue[0]
       case ResolveBlock(scope) => forall k :: k in w.state.pending ==> w.state.pending[k].scope == scope
       case RetainBlock(scopes) => forall k :: k in w.state.pending ==> w.state.pending[k].scope !in scopes
       case SuppressBlock => true
       case _ => false
  }

  /** The caller's own block is executed, and every event of it is accepted already. */
  predicate AsksNothingNew(w: World, h: Happening, caller: nat) {
    && Executes(w, h) && w.queue[0].EnqueueBlock? && w.queue[0].caller == caller
    && forall i :: 0 <= i < |w.queue[0].events| ==>
         var e := w.queue[0].events[i];
         e.Key() in w.state.accepted && w.state.accepted[e.Key()] == e.fingerprint
  }

  // ----- Answers of one block

  ghost predicate Answering(answers: seq<Answer>, caller: nat, submitted: bool) {
    exists i :: 0 <= i < |answers| && answers[i] == Answer(Caller(caller), submitted)
  }

  lemma FlushAnswers(waiters: seq<Waiter>, given: bool, caller: nat, submitted: bool)
    ensures Answering(Answers(waiters, given), caller, submitted) <==> Caller(caller) in waiters && given == submitted
  {
    if Caller(caller) in waiters && given == submitted {
      var i :| 0 <= i < |waiters| && waiters[i] == Caller(caller);
      assert Answers(waiters, given)[i] == Answer(Caller(caller), submitted);
    }
  }

  /** Some event of the call that was not accepted is under the key. */
  predicate Brings(s: State, events: seq<Event>, n: nat, k: string)
    requires n <= |events|
  {
    exists i :: 0 <= i < n && events[i].Key() == k && !IsAccepted(s, events[i])
  }

  lemma OneEvent(s: State, e: Event)
    ensures var r := EnqueueEvent(s, e);
            && r.0 == s.(pending := r.0.pending)
            && r.0.pending == (if IsAccepted(s, e) then s.pending else s.pending[e.Key() := e])
            && (!r.1 ==> r.0 == s)
            && (r.1 ==> !IsAccepted(s, e))
  {
    if !IsAccepted(s, e) && e.Key() in s.pending && s.pending[e.Key()] == e {
      assert s.pending[e.Key() := e] == s.pending;
    }
  }

  lemma BringsOneMore(s: State, events: seq<Event>, n: nat, k: string)
    requires 0 < n <= |events|
    ensures Brings(s, events, n, k)
            <==> Brings(s, events, n - 1, k) || (events[n - 1].Key() == k && !IsAccepted(s, events[n - 1]))
  {
  }

  lemma SameAccepted(s: State, pending: map<string, Event>, e: Event)
    ensures IsAccepted(s.(pending := pending), e) <==> IsAccepted(s, e)
  {
  }

  /** Under a key there is something pending after a call exactly if there was, or the call brought it. */
  lemma {:induction false} BroughtExactly(s: State, events: seq<Event>, n: nat, k: string)
    requires n <= |events|
    ensures var r := EnqueueEvents(s, events, n);
            && r.0 == s.(pending := r.0.pending)
            && (k in r.0.pending <==> k in s.pending || Brings(s, events, n, k))
  {
    if n > 0 {
      BroughtExactly(s, events, n - 1, k);
      BringsOneMore(s, events, n, k);
      hide EnqueueEvent, IsAccepted, Brings;
      var before := EnqueueEvents(s, events, n - 1).0;
      OneEvent(before, events[n - 1]);
      SameAccepted(s, before.pending, events[n - 1]);
    }
  }

  /** A call changes something only by an event that was not accepted. */
  lemma {:induction false} ChangedEvents(s: State, events: seq<Event>, n: nat)
    requires n <= |events|
    ensures var r := EnqueueEvents(s, events, n);
            if r.1 then exists i :: 0 <= i < n && !IsAccepted(s, events[i]) else r.0 == s
  {
    if n > 0 {
      hide EnqueueEvent, IsAccepted, Brings;
      ChangedEvents(s, events, n - 1);
      BroughtExactly(s, events, n - 1, "");
      var before := EnqueueEvents(s, events, n - 1).0;
      OneEvent(before, events[n - 1]);
      SameAccepted(s, before.pending, events[n - 1]);
    }
  }

  /** A call whose events are not all accepted leaves something to announce; otherwise it changes nothing. */
  lemma CallLeaves(s: State, events: seq<Event>)
    ensures var r := EnqueueEvents(s, events, |events|);
            && r.0 == s.(pending := r.0.pending)
            && (AllAccepted(s, events) ==> !r.1)
            && (!AllAccepted(s, events) ==> HasSummary(r.0))
            && (!r.1 ==> r.0 == s)
  {
    hide EnqueueEvents;
    ChangedEvents(s, events, |events|);
    BroughtExactly(s, events, |events|, "");
    if !AllAccepted(s, events) {
      var i :| 0 <= i < |events| && !IsAccepted(s, events[i]);
      BroughtExactly(s, events, |events|, events[i].Key());
    }
  }

  lemma EnqueueAnswers(s: State, c: nat, events: seq<Event>, now: Date, caller: nat, submitted: bool)
    ensures Answering(Enqueue(s, c, events, now).answers, caller, submitted)
            <==> c == caller && submitted && AllAccepted(s, events)
  {
    hide EnqueueEvents;
    var s0 := ExpireBatch(s, now);
    CallLeaves(s0, events);
    assert AllAccepted(EnqueueEvents(s0, events, |events|).0, events) <==> AllAccepted(s, events);
    var answers := Enqueue(s, c, events, now).answers;
    assert AllAccepted(s, events) ==> answers[0] == Answer(Caller(c), true);
  }

  lemma ResolveAnswers(s: State, scope: string, now: Date, caller: nat, submitted: bool)
    ensures Answering(Resolve(s, scope, now).answers, caller, submitted)
            <==> submitted && Caller(caller) in s.waiters
                 && forall k :: k in s.pending ==> s.pending[k].scope == scope
  {
    FlushAnswers(s.waiters, true, caller, submitted);
    var s1 := ResolveScope(s, scope);
    assert s1.pending == map[] <==> forall k :: k in s.pending ==> k !in s1.pending;
  }

  lemma RetainAnswers(s: State, scopes: set<string>, now: Date, caller: nat, submitted: bool)
    ensures Answering(Retain(s, scopes, now).answers, caller, submitted)
            <==> submitted && Caller(caller) in s.waiters
                 && forall k :: k in s.pending ==> s.pending[k].scope !in scopes
  {
    FlushAnswers(s.waiters, true, caller, submitted);
    var s1 := RetainScopes(s, scopes);
    assert s1.pending == map[] <==> forall k :: k in s.pending ==> k !in s1.pending;
  }

  /** Who is answered what by one block. */
  ghost predicate BlockAnswers(s: State, b: Block, caller: nat, submitted: bool) {
    match b
    case EnqueueBlock(c, events) => c == caller && submitted && AllAccepted(s, events)
    case ResolveBlock(scope) =>
      submitted && Caller(caller) in s.waiters && forall k :: k in s.pending ==> s.pending[k].scope == scope
    case RetainBlock(scopes) =>
      submitted && Caller(caller) in s.waiters && forall k :: k in s.pending ==> s.pending[k].scope !in scopes
    case SuppressBlock => submitted && Caller(caller) in s.waiters
    case ClearAllBlock => !submitted && Caller(caller) in s.waiters
    case CallbackBlock(sub, ok) => submitted == ok && sub.generation == s.generation && Caller(caller) in s.waiters
    case _ => false
  }

  lemma ExecuteAnswers(s: State, b: Block, now: Date, caller: nat, submitted: bool)
    ensures Answering(Execute(s, b, now).answers, caller, submitted) <==> BlockAnswers(s, b, caller, submitted)
  {
    hide Enqueue, Resolve, Retain, Answering, AllAccepted, Answers;
    match b
    case EnqueueBlock(c, events) => EnqueueAnswers(s, c, events, now, caller, submitted);
    case ResolveBlock(scope) => ResolveAnswers(s, scope, now, caller, submitted);
    case RetainBlock(scopes) => RetainAnswers(s, scopes, now, caller, submitted);
    case SuppressBlock => FlushAnswers(s.waiters, true, caller, submitted);
    case ClearAllBlock => FlushAnswers(s.waiters, false, caller, submitted);
    case CallbackBlock(sub, ok) =>
      FlushAnswers(s.waiters, ok, caller, submitted);
      NoAnswers(caller, submitted);
    case ClearDeliveredBlock => NobodyAnswered(s, s.(deadline := None), now, caller, submitted);
    case RecheckBlock(shown, since) => NobodyAnswered(s, s, since, caller, submitted);
  }

  lemma NoAnswers(caller: nat, submitted: bool)
    ensures !Answering([], caller, submitted)
  {
  }

  lemma NobodyAnswered(s: State, s1: State, now: Date, caller: nat, submitted: bool)
    ensures !Answering([], caller, submitted) && !Answering(Schedule(s1, now, Nobody).answers, caller, submitted)
  {
  }

  lemma StepAnswers(w: World, h: Happening, caller: nat, submitted: bool)
    requires Step(w, h).Some?
    ensures AnswersNow(w, h, caller, submitted) <==>
            || (Executes(w, h) && BlockAnswers(w.state, w.queue[0], caller, submitted))
            || (submitted && h == Call(EnqueueBlock(caller, [])))
  {
    hide Execute, BlockAnswers;
    var answers := Step(w, h).value.answers;
    if h.ExecuteNext? {
      var given := Execute(w.state, w.queue[0], h.now).answers;
      ExecuteAnswers(w.state, w.queue[0], h.now, caller, submitted);
      assert answers == w.answers + given;
      if Answering(given, caller, submitted) {
        var i :| 0 <= i < |given| && given[i] == Answer(Caller(caller), submitted);
        assert answers[|w.answers| + i] == given[i];
      }
    } else if h == Call(EnqueueBlock(caller, [])) {
      assert answers[|w.answers|] == Answer(Caller(caller), true);
    }
  }

  // ----- The two answers, exactly

  /**
   * False, exactly: a waiting caller is told false when the current submission
   * fails or everything is cleared, and never otherwise; no fingerprint is accepted
   * by that.
   */
  lemma FalseExactly(w: World, h: Happening, caller: nat)
    requires Step(w, h).Some?
    ensures AnswersNow(w, h, caller, false) <==>
            && Caller(caller) in w.state.waiters
            && (CallsBack(w, h, false) || (Executes(w, h) && w.queue[0].ClearAllBlock?))
    ensures AnswersNow(w, h, caller, false) ==>
              forall k :: k in Step(w, h).value.state.accepted ==>
                k in w.state.accepted && Step(w, h).value.state.accepted[k] == w.state.accepted[k]
  {
    StepAnswers(w, h, caller, false);
  }

  /**
   * True, exactly: a waiting caller is told true when the current submission is
   * registered or when nothing is left to announce, and a caller is told so at once
   * when every event of its call is accepted already.
   */
  lemma TrueExactly(w: World, h: Happening, caller: nat)
    requires Step(w, h).Some?
    ensures AnswersNow(w, h, caller, true) <==>
            || (Caller(caller) in w.state.waiters && (CallsBack(w, h, true) || LeavesNothing(w, h)))
            || AsksNothingNew(w, h, caller)
            || h == Call(EnqueueBlock(caller, []))
  {
    StepAnswers(w, h, caller, true);
  }

  // ----- What the current submission speaks for

  /** The submission speaks for everything pending. */
  ghost predicate Speaks(s: State, sub: Submission) {
    && sub.generation <= s.generation
    && (sub.generation == s.generation ==>
          forall k :: k in s.pending ==> k in sub.events && sub.events[k] == s.pending[k])
  }

  /** Every submission under way does, as long as it is the current one. */
  ghost predicate AllSpeak(w: World) {
    && (forall i :: 0 <= i < |w.adds| ==> Speaks(w.state, w.adds[i]))
    && (forall i :: 0 <= i < |w.queue| && w.queue[i].CallbackBlock? ==> Speaks(w.state, w.queue[i].sub))
  }

  /** A block either starts a new generation, or only removes pending events. */
  ghost predicate Narrows(s: State, e: Effects) {
    && e.state.generation >= s.generation
    && (e.state.generation == s.generation ==>
          e.add.None? && forall k :: k in e.state.pending ==> k in s.pending && e.state.pending[k] == s.pending[k])
    && (e.add.Some? ==> e.add.value == Submission(e.state.generation, e.state.pending))
  }

  lemma ScheduleNarrows(s: State, s1: State, now: Date, waiter: Waiter)
    requires s1.generation == s.generation && HasSummary(s1)
    ensures Narrows(s, Schedule(s1, now, waiter))
  {
  }

  lemma EnqueueNarrows(s: State, caller: nat, events: seq<Event>, now: Date)
    ensures Narrows(s, Enqueue(s, caller, events, now))
  {
    hide EnqueueEvents;
    var s0 := ExpireBatch(s, now);
    CallLeaves(s0, events);
    assert AllAccepted(EnqueueEvents(s0, events, |events|).0, events) <==> AllAccepted(s0, events);
  }

  lemma ExecuteNarrows(s: State, b: Block, now: Date)
    ensures Narrows(s, Execute(s, b, now))
  {
    hide Enqueue;
    if b.EnqueueBlock? {
      EnqueueNarrows(s, b.caller, b.events, now);
    }
  }

  lemma StillSpeaks(s: State, e: Effects, sub: Submission)
    requires Narrows(s, e) && Speaks(s, sub)
    ensures Speaks(e.state, sub)
  {
  }

  lemma AllSpeakKept(w: World, h: Happening)
    requires AllSpeak(w) && Step(w, h).Some?
    ensures AllSpeak(Step(w, h).value)
  {
    if h.ExecuteNext? {
      hide Execute, Narrows, Speaks;
      var e := Execute(w.state, w.queue[0], h.now);
      ExecuteNarrows(w.state, w.queue[0], h.now);
      forall sub | Speaks(w.state, sub)
        ensures Speaks(e.state, sub)
      {
        StillSpeaks(w.state, e, sub);
      }
      if e.add.Some? {
        NewSpeaks(w.state, e);
      }
    }
  }

  lemma NewSpeaks(s: State, e: Effects)
    requires Narrows(s, e) && e.add.Some?
    ensures Speaks(e.state, e.add.value)
  {
  }

  lemma {:induction false} RunSpeaks(w: World, events: seq<Happening>)
    requires AllSpeak(w) && Run(w, events).Some?
    ensures AllSpeak(Run(w, events).value)
    decreases |events|
  {
    if events != [] {
      hide Step, AllSpeak;
      AllSpeakKept(w, events[0]);
      RunSpeaks(Step(w, events[0]).value, events[1..]);
    }
  }

  // ----- How a pending event goes away

  /** The block withdraws what is pending under this key. */
  predicate Withdraws(s: State, b: Block, now: Date, k: string)
    requires k in s.pending
  {
    match b
    case EnqueueBlock(_, events) => s.deadline.Some? && s.deadline.value <= now && !Brings(s, events, |events|, k)
    case ResolveBlock(scope) => s.pending[k].scope == scope
    case RetainBlock(scopes) => s.pending[k].scope !in scopes
    case SuppressBlock => true
    case ClearAllBlock => true
    case _ => false
  }

  /** A pending event goes away exactly when it is resolved, dropped, suppressed, cleared, or its window has passed. */
  lemma WithdrawsExactly(s: State, b: Block, now: Date, k: string)
    requires k in s.pending
    ensures k !in Execute(s, b, now).state.pending <==> Withdraws(s, b, now, k)
  {
    if b.EnqueueBlock? {
      hide EnqueueEvents, AllAccepted;
      BroughtExactly(ExpireBatch(s, now), b.events, |b.events|, k);
    }
  }

  /** Over a run, the key stays pending. */
  ghost predicate NeverWithdrawn(w: World, events: seq<Happening>, k: string)
    decreases |events|
  {
    && k in w.state.pending
    && (events != [] && Step(w, events[0]).Some? ==>
          && (Executes(w, events[0]) ==> !Withdraws(w.state, w.queue[0], events[0].now, k))
          && (k in Step(w, events[0]).value.state.pending ==> NeverWithdrawn(Step(w, events[0]).value, events[1..], k)))
  }

  /** A call executed during the run contains this event. */
  ghost predicate Calls(w: World, events: seq<Happening>, e: Event)
    decreases |events|
  {
    && events != []
    && (|| (Executes(w, events[0]) && w.queue[0].EnqueueBlock? && e in w.queue[0].events)
        || (Step(w, events[0]).Some? && Calls(Step(w, events[0]).value, events[1..], e)))
  }

  /** What is pending under a key was pending before or comes from the block's call. */
  lemma PendingComesFrom(s: State, b: Block, now: Date, k: string)
    requires k in s.pending && k in Execute(s, b, now).state.pending
    ensures var e := Execute(s, b, now).state.pending[k];
            e == s.pending[k] || (b.EnqueueBlock? && e in b.events)
  {
    if b.EnqueueBlock? {
      hide EnqueueEvents, AllAccepted;
      CallLeaves(ExpireBatch(s, now), b.events);
      EnqueuedEvents(ExpireBatch(s, now), b.events, |b.events|, k);
    }
  }

  lemma {:induction false} StaysPending(w: World, events: seq<Happening>, k: string)
    requires Run(w, events).Some? && NeverWithdrawn(w, events, k)
    ensures k in w.state.pending && k in Run(w, events).value.state.pending
    ensures var e := Run(w, events).value.state.pending[k]; e == w.state.pending[k] || Calls(w, events, e)
    decreases |events|
  {
    if events != [] {
      hide Withdraws, Execute;
      if events[0].ExecuteNext? {
        WithdrawsExactly(w.state, w.queue[0], events[0].now, k);
        PendingComesFrom(w.state, w.queue[0], events[0].now, k);
      }
      StaysPending(Step(w, events[0]).value, events[1..], k);
    }
  }

  /** Where the call of event `e` begins, and what follows without a withdrawal of its key. */
  ghost predicate Follows(w: World, now: Date, e: Event, events: seq<Happening>, w2: World) {
    && w.queue != [] && w.queue[0].EnqueueBlock? && e in w.queue[0].events && !IsAccepted(w.state, e)
    && var w1 := Step(w, ExecuteNext(now)).value;
       NeverWithdrawn(w1, events, e.Key()) && Run(w1, events) == Some(w2)
  }

  /**
   * What true stands for: from the call of an event that was not accepted, as long
   * as no block has withdrawn it, the current submission speaks for its key, with
   * an event of that call or of a later one; and when that submission is
   * registered, the fingerprint it spoke for is accepted.
   */
  lemma RegisteredForItsCallers(before: seq<Happening>, w: World, now: Date, e: Event, events: seq<Happening>,
                                w2: World, h: Happening)
    requires Run(INITIAL_WORLD, before) == Some(w) && Follows(w, now, e, events, w2) && CallsBack(w2, h, true)
    ensures var sub := w2.queue[0].sub;
            && e.Key() in sub.events && e.Key() in w2.state.pending && sub.events[e.Key()] == w2.state.pending[e.Key()]
            && (sub.events[e.Key()] in w.queue[0].events
                || Calls(Step(w, ExecuteNext(now)).value, events, sub.events[e.Key()]))
            && e.Key() in Step(w2, h).value.state.accepted
            && Step(w2, h).value.state.accepted[e.Key()] == sub.events[e.Key()].fingerprint
  {
    var k := e.Key();
    var w1 := Step(w, ExecuteNext(now)).value;
    CallIsPending(w.state, w.queue[0], now, e);
    ExecutedState(w, now);
    hide Step, Execute, AllSpeak, NeverWithdrawn, CallsBack;
    InitialSpeaks();
    RunSpeaks(INITIAL_WORLD, before);
    AllSpeakKept(w, ExecuteNext(now));
    StaysPending(w1, events, k);
    RunSpeaks(w1, events);
    CallbackAccepts(w2, h, k);
  }

  lemma ExecutedState(w: World, now: Date)
    requires w.queue != []
    ensures Step(w, ExecuteNext(now)).Some?
    ensures Step(w, ExecuteNext(now)).value.state == Execute(w.state, w.queue[0], now).state
  {
  }

  lemma CallIsPending(s: State, b: Block, now: Date, e: Event)
    requires b.EnqueueBlock? && e in b.events && !IsAccepted(s, e)
    ensures e.Key() in Execute(s, b, now).state.pending && Execute(s, b, now).state.pending[e.Key()] in b.events
  {
    hide EnqueueEvents, AllAccepted;
    var s0 := ExpireBatch(s, now);
    var i :| 0 <= i < |b.events| && b.events[i] == e;
    CallLeaves(s0, b.events);
    BroughtIsOfCall(s0, b.events, |b.events|, e.Key());
  }

  /** What a call brings under a key is one of its events. */
  lemma {:induction false} BroughtIsOfCall(s: State, events: seq<Event>, n: nat, k: string)
    requires n <= |events| && Brings(s, events, n, k)
    ensures var r := EnqueueEvents(s, events, n).0; k in r.pending && r.pending[k] in events
  {
    BroughtExactly(s, events, n, k);
    BroughtExactly(s, events, n - 1, k);
    OneEvent(EnqueueEvents(s, events, n - 1).0, events[n - 1]);
    hide EnqueueEvent;
    if !(events[n - 1].Key() == k && !IsAccepted(s, events[n - 1])) {
      hide IsAccepted;
      BroughtIsOfCall(s, events, n - 1, k);
    }
  }

  lemma CallbackAccepts(w: World, h: Happening, k: string)
    requires AllSpeak(w) && CallsBack(w, h, true) && k in w.state.pending
    ensures Executes(w, h) && w.queue[0].CallbackBlock?
    ensures var sub := w.queue[0].sub;
            && k in sub.events && sub.events[k] == w.state.pending[k]
            && Step(w, h).Some?
            && var accepted := Step(w, h).value.state.accepted;
               k in accepted && accepted[k] == sub.events[k].fingerprint
  {
    assert Speaks(w.state, w.queue[0].sub);
  }

  lemma InitialSpeaks()
    ensures AllSpeak(INITIAL_WORLD)
  {
  }

  // ----- What is submitted, and when

  /** The block has something to submit: a call with news, a summary to replace, or one to show again. */
  predicate HasNews(s: State, b: Block) {
    match b
    case EnqueueBlock(_, events) => !AllAccepted(s, events)
    case RecheckBlock(shownPending, _) => shownPending && s.pending != map[]
    case ClearDeliveredBlock => s.pending != map[]
    case _ => false
  }

  /**
   * What a block submits, exactly: a new generation that speaks for all that is
   * pending then, in an open window, if it has something to submit, and nothing
   * otherwise.
   */
  lemma SubmitsExactly(s: State, b: Block, now: Date)
    ensures var e := Execute(s, b, now);
            && (e.add.Some? <==> HasNews(s, b))
            && (e.add.Some? ==> e.add.value == Submission(s.generation + 1, e.state.pending)
                                && e.state.generation == s.generation + 1 && e.state.deadline.Some?
                                && e.state.pending != map[])
  {
    if b.EnqueueBlock? {
      var s0 := ExpireBatch(s, now);
      CallLeaves(s0, b.events);
      assert AllAccepted(EnqueueEvents(s0, b.events, |b.events|).0, b.events) <==> AllAccepted(s, b.events);
      hide EnqueueEvents, AllAccepted;
    }
  }

  lemma ResolveRechecks(s: State, scope: string, now: Date)
    ensures Resolve(s, scope, now).recheck <==> exists k :: k in s.pending && s.pending[k].scope != scope
  {
    var s1 := ResolveScope(s, scope);
    if k :| k in s.pending && s.pending[k].scope != scope {
      assert k in s1.pending;
    }
    if HasSummary(s1) {
      var k :| k in s1.pending;
      assert k in s.pending && s.pending[k].scope != scope;
    }
  }

  lemma RetainRechecks(s: State, scopes: set<string>, now: Date)
    ensures Retain(s, scopes, now).recheck <==>
            && (exists k :: k in s.pending && s.pending[k].scope in scopes)
            && (exists k :: k in s.pending && s.pending[k].scope !in scopes)
  {
    var s1 := RetainScopes(s, scopes);
    if k :| k in s.pending && s.pending[k].scope in scopes {
      assert k in s1.pending;
    }
    if HasSummary(s1) {
      var k :| k in s1.pending;
      assert k in s.pending && s.pending[k].scope in scopes;
    }
    if forall k :: k in s.pending ==> s.pending[k].scope in scopes {
      assert s1.pending == s.pending;
    }
  }

  /**
   * Resolving or retaining asks whether the summary was shown exactly if events
   * remain and, for retaining, some went.
   */
  lemma RechecksExactly(s: State, b: Block, now: Date)
    ensures Execute(s, b, now).recheck <==>
            match b
            case ResolveBlock(scope) => exists k :: k in s.pending && s.pending[k].scope != scope
            case RetainBlock(scopes) =>
              (exists k :: k in s.pending && s.pending[k].scope in scopes)
              && (exists k :: k in s.pending && s.pending[k].scope !in scopes)
            case _ => false
  {
    hide EnqueueEvents, Resolve, Retain;
    match b
    case ResolveBlock(scope) => ResolveRechecks(s, scope, now);
    case RetainBlock(scopes) => RetainRechecks(s, scopes, now);
    case _ =>
  }
}
