/**
 * The coordinator of migration-preparation alerts: events of several accounts
 * are gathered into one summary, a newer submission supersedes an older one, and
 * whichever submission is current answers every waiting caller. Each block that
 * the serial queue executes is one function of the coordinator's state.
 */
module NotificationCoordinator {
  import opened Common

  type Date = int

  // ----- Events and the batch they form

  datatype Kind = ConfirmedWaveReady | NeedsForegroundRecovery | TerminalFailure

  function RawValue(kind: Kind): string {
    match kind
    case ConfirmedWaveReady => "confirmedWaveReady"
    case NeedsForegroundRecovery => "needsForegroundRecovery"
    case TerminalFailure => "terminalFailure"
  }

  datatype Event = Event(scope: string, kind: Kind, fingerprint: string) {
    function Key(): string {
      scope + "|" + RawValue(kind)
    }
  }

  /** Who waits for a submission: a caller of `enqueue`, or the coordinator itself, which ignores the answer. */
  datatype Waiter = Caller(id: nat) | Nobody

  datatype Answer = Answer(to: Waiter, submitted: bool)

  /** One `add` to the notification centre: its generation and the events its summary speaks for, by key. */
  datatype Submission = Submission(generation: nat, events: map<string, Event>)

  datatype State = State(
    pending: map<string, Event>,
    accepted: map<string, string>,
    deadline: Option<Date>,
    generation: nat,
    waiters: seq<Waiter>)

  const INITIAL_STATE := State(map[], map[], None, 0, [])

  const AGGREGATION_WINDOW := 30

  function EnqueueEvent(s: State, e: Event): (r: (State, bool)) {
    if IsAccepted(s, e) then (s, false)
    else if e.Key() in s.pending && s.pending[e.Key()] == e then (s, false)
    else (s.(pending := s.pending[e.Key() := e]), true)
  }

  /** The state after the first `n` events, and whether any of them changed it. */
  function EnqueueEvents(s: State, events: seq<Event>, n: nat): (r: (State, bool))
    requires n <= |events|
  {
    if n == 0 then (s, false)
    else
      var (s1, changed) := EnqueueEvents(s, events, n - 1);
      var (s2, more) := EnqueueEvent(s1, events[n - 1]);
      (s2, more || changed)
  }

  function MarkAccepted(s: State, events: map<string, Event>): State {
    s.(accepted := s.accepted + map k | k in events :: events[k].fingerprint)
  }

  predicate KeyOfScope(key: string, scope: string) {
    key == scope || scope + "|" <= key
  }

  predicate KeyOfAny(key: string, scopes: set<string>) {
    exists scope :: scope in scopes && KeyOfScope(key, scope)
  }

  predicate IsAccepted(s: State, e: Event) {
    e.Key() in s.accepted && s.accepted[e.Key()] == e.fingerprint
  }

  function ResolveScope(s: State, scope: string): State {
    s.(pending := map k | k in s.pending && s.pending[k].scope != scope :: s.pending[k],
       accepted := map k | k in s.accepted && !KeyOfScope(k, scope) :: s.accepted[k],
       deadline := None)
  }

  function RetainScopes(s: State, scopes: set<string>): State {
    s.(pending := map k | k in s.pending && s.pending[k].scope in scopes :: s.pending[k],
       accepted := map k | k in s.accepted && KeyOfAny(k, scopes) :: s.accepted[k])
  }

  function ExpireBatch(s: State, now: Date): State {
    if s.deadline.Some? && s.deadline.value <= now then s.(pending := map[], deadline := None) else s
  }

  predicate HasSummary(s: State) {
    s.pending != map[]
  }

  // ----- The blocks of the queue

  /** What a block leaves behind: the state, the answers given, and the requests made to the notification centre. */
  datatype Effects = Effects(state: State, answers: seq<Answer>, add: Option<Submission>, recheck: bool)

  function Quietly(s: State): Effects {
    Effects(s, [], None, false)
  }

  function Answers(waiters: seq<Waiter>, submitted: bool): (r: seq<Answer>)
    ensures |r| == |waiters| && forall i :: 0 <= i < |r| ==> r[i] == Answer(waiters[i], submitted)
  {
    seq(|waiters|, i requires 0 <= i < |waiters| => Answer(waiters[i], submitted))
  }

  /** `flushSubmissionCompletions`: every waiting caller is answered and none waits any longer. */
  function Flush(s: State, submitted: bool): Effects {
    Effects(s.(waiters := []), Answers(s.waiters, submitted), None, false)
  }

  /** Withdraws the current submission, if any, and answers its waiters. */
  function Withdraw(s: State, submitted: bool): Effects {
    Flush(s.(generation := s.generation + 1), submitted)
  }

  function Schedule(s: State, now: Date, waiter: Waiter): Effects {
    if !HasSummary(s) then Effects(s, [Answer(waiter, true)], None, false)
    else
      var deadline := if s.deadline.Some? then s.deadline.value else now + AGGREGATION_WINDOW;
      var s' := s.(deadline := Some(deadline), generation := s.generation + 1, waiters := s.waiters + [waiter]);
      Effects(s', [], Some(Submission(s'.generation, s'.pending)), false)
  }

  function Enqueue(s: State, caller: nat, events: seq<Event>, now: Date): Effects {
    var (s1, changed) := EnqueueEvents(ExpireBatch(s, now), events, |events|);
    if changed then
      Schedule(if s1.deadline.None? then s1.(deadline := Some(now + AGGREGATION_WINDOW)) else s1, now, Caller(caller))
    else if AllAccepted(s1, events) then Effects(s1, [Answer(Caller(caller), true)], None, false)
    else Schedule(s1, now, Caller(caller))
  }

  predicate AllAccepted(s: State, events: seq<Event>) {
    forall i :: 0 <= i < |events| ==> IsAccepted(s, events[i])
  }

  function Ahead(deadline: Option<Date>, now: Date): Option<Date> {
    if deadline.Some? && deadline.value > now then deadline else None
  }

  function Resolve(s: State, scope: string, now: Date): Effects {
    var s1 := ResolveScope(s, scope);
    if HasSummary(s1) then Quietly(s1.(deadline := Ahead(s.deadline, now))).(recheck := true)
    else Withdraw(s1, true)
  }

  function Retain(s: State, scopes: set<string>, now: Date): Effects {
    var s1 := RetainScopes(s, scopes);
    if HasSummary(s1) then Quietly(s1.(deadline := Ahead(s.deadline, now))).(recheck := s1.pending != s.pending)
    else Withdraw(s1.(deadline := None), true)
  }

  /** After `resolve` or `retain`: replace a summary that has not been shown yet. */
  function Recheck(s: State, shownPending: bool, now: Date): Effects {
    if !HasSummary(s) then Quietly(s)
    else if !shownPending then Quietly(s.(deadline := None))
    else Schedule(s, now, Nobody)
  }

  function ClearDelivered(s: State, now: Date): Effects {
    if !HasSummary(s) then Quietly(s) else Schedule(s.(deadline := None), now, Nobody)
  }

  function Suppress(s: State): Effects {
    Withdraw(MarkAccepted(s, s.pending).(pending := map[], deadline := None), true)
  }

  function ClearAll(s: State): Effects {
    Withdraw(s.(pending := map[], accepted := map[], deadline := None), false)
  }

  /** The callback of an `add`. */
  function Callback(s: State, sub: Submission, ok: bool): Effects {
    if sub.generation != s.generation then Quietly(s)
    else Flush(if ok then MarkAccepted(s, sub.events) else s, ok)
  }

  // ----- The coordinator among its callers

  datatype Block =
    | EnqueueBlock(caller: nat, events: seq<Event>)
    | ResolveBlock(scope: string)
    | RetainBlock(scopes: set<string>)
    | ClearDeliveredBlock
    | SuppressBlock
    | ClearAllBlock
    | RecheckBlock(shownPending: bool, since: Date)
    | CallbackBlock(sub: Submission, ok: bool)

  /** The app calls; the others are put on the queue by the notification centre. */
  predicate IsCall(b: Block) {
    !b.RecheckBlock? && !b.CallbackBlock?
  }

  function Execute(s: State, b: Block, now: Date): Effects {
    match b
    case EnqueueBlock(caller, events) => Enqueue(s, caller, events, now)
    case ResolveBlock(scope) => Resolve(s, scope, now)
    case RetainBlock(scopes) => Retain(s, scopes, now)
    case ClearDeliveredBlock => ClearDelivered(s, now)
    case SuppressBlock => Suppress(s)
    case ClearAllBlock => ClearAll(s)
    case RecheckBlock(shownPending, since) => Recheck(s, shownPending, since)
    case CallbackBlock(sub, ok) => Callback(s, sub, ok)
  }

  /** `adds` and `rechecks` are the requests that have not called back; `called` and `answers` are history. */
  datatype World = World(
    state: State,
    queue: seq<Block>,
    adds: seq<Submission>,
    rechecks: seq<Date>,
    called: multiset<nat>,
    answers: seq<Answer>)

  const INITIAL_WORLD := World(INITIAL_STATE, [], [], [], multiset{}, [])

  datatype Happening =
    | Call(block: Block)
    | ExecuteNext(now: Date)
    | AddReports(index: nat, ok: bool)
    | RecheckReports(index: nat, shownPending: bool)

  function Without<T>(xs: seq<T>, i: nat): seq<T>
    requires i < |xs|
  {
    xs[..i] + xs[i + 1..]
  }

  function Step(w: World, h: Happening): Option<World> {
    match h
    case Call(b) =>
      if !IsCall(b) then None
      else if b.EnqueueBlock? && b.events == [] then
        Some(w.(called := w.called + multiset{b.caller}, answers := w.answers + [Answer(Caller(b.caller), true)]))
      else
        Some(w.(queue := w.queue + [b], called := if b.EnqueueBlock? then w.called + multiset{b.caller} else w.called))
    case ExecuteNext(now) =>
      if w.queue == [] then None
      else
        var e := Execute(w.state, w.queue[0], now);
        Some(w.(state := e.state, queue := w.queue[1..], answers := w.answers + e.answers,
                adds := if e.add.Some? then w.adds + [e.add.value] else w.adds,
                rechecks := if e.recheck then w.rechecks + [now] else w.rechecks))
    case AddReports(i, ok) =>
      if i >= |w.adds| then None
      else Some(w.(adds := Without(w.adds, i), queue := w.queue + [CallbackBlock(w.adds[i], ok)]))
    case RecheckReports(i, shownPending) =>
      if i >= |w.rechecks| then None
      else Some(w.(rechecks := Without(w.rechecks, i), queue := w.queue + [RecheckBlock(shownPending, w.rechecks[i])]))
  }

  function Run(w: World, events: seq<Happening>): Option<World>
    decreases |events|
  {
    if events == [] then Some(w)
    else
      match Step(w, events[0])
      case None => None
      case Some(w') => Run(w', events[1..])
  }

  // ----- What is known of the callers

  ghost function Waiting(waiters: seq<Waiter>): multiset<nat> {
    if waiters == [] then multiset{}
    else (if waiters[0].Caller? then multiset{waiters[0].id} else multiset{}) + Waiting(waiters[1..])
  }

  ghost function Answered(answers: seq<Answer>): multiset<nat> {
    if answers == [] then multiset{}
    else (if answers[0].to.Caller? then multiset{answers[0].to.id} else multiset{}) + Answered(answers[1..])
  }

  ghost function Queued(queue: seq<Block>): multiset<nat> {
    if queue == [] then multiset{}
    else (if queue[0].EnqueueBlock? then multiset{queue[0].caller} else multiset{}) + Queued(queue[1..])
  }

  /** The `add` of this generation has not called back, or its callback is still queued. */
  ghost predicate Outstanding(w: World, generation: nat) {
    || (exists i :: 0 <= i < |w.adds| && w.adds[i].generation == generation)
    || (exists i :: 0 <= i < |w.queue| && w.queue[i].CallbackBlock? && w.queue[i].sub.generation == generation)
  }

  ghost predicate Sound(w: World) {
    && (w.state.waiters != [] ==> Outstanding(w, w.state.generation))
    && w.called == Queued(w.queue) + Waiting(w.state.waiters) + Answered(w.answers)
    && (forall k :: k in w.state.pending ==> w.state.pending[k].Key() == k)
  }

  lemma {:induction false} WaitingAppend(a: seq<Waiter>, b: seq<Waiter>)
    ensures Waiting(a + b) == Waiting(a) + Waiting(b)
  {
    if a == [] {
      assert a + b == b;
    } else {
      WaitingAppend(a[1..], b);
      assert (a + b)[1..] == a[1..] + b && (a + b)[0] == a[0];
      var first := if a[0].Caller? then multiset{a[0].id} else multiset{};
      Associative(first, Waiting(a[1..]), Waiting(b));
    }
  }

  lemma Associative(a: multiset<nat>, b: multiset<nat>, c: multiset<nat>)
    ensures a + (b + c) == (a + b) + c
  {
  }

  lemma {:induction false} AnsweredAppend(a: seq<Answer>, b: seq<Answer>)
    ensures Answered(a + b) == Answered(a) + Answered(b)
  {
    if a == [] {
      assert a + b == b;
    } else {
      AnsweredAppend(a[1..], b);
      assert (a + b)[1..] == a[1..] + b && (a + b)[0] == a[0];
      var first := if a[0].to.Caller? then multiset{a[0].to.id} else multiset{};
      Associative(first, Answered(a[1..]), Answered(b));
    }
  }

  lemma {:induction false} QueuedAppend(a: seq<Block>, b: Block)
    ensures Queued(a + [b]) == Queued(a) + (if b.EnqueueBlock? then multiset{b.caller} else multiset{})
  {
    if a == [] {
      assert a + [b] == [b];
      assert [b][1..] == [];
    } else {
      QueuedAppend(a[1..], b);
      assert (a + [b])[1..] == a[1..] + [b] && (a + [b])[0] == a[0];
      var first := if a[0].EnqueueBlock? then multiset{a[0].caller} else multiset{};
      Associative(first, Queued(a[1..]), if b.EnqueueBlock? then multiset{b.caller} else multiset{});
    }
  }

  lemma {:induction false} AnswersAnswer(waiters: seq<Waiter>, submitted: bool)
    ensures Answered(Answers(waiters, submitted)) == Waiting(waiters)
  {
    if waiters != [] {
      AnswersAnswer(waiters[1..], submitted);
      assert Answers(waiters, submitted)[1..] == Answers(waiters[1..], submitted);
    }
  }

  /** What a block owes: the callers it took over are waiting or answered, and a new waiter has a new `add`. */
  ghost predicate Accounts(s: State, b: Block, e: Effects) {
    && (if b.EnqueueBlock? then multiset{b.caller} else multiset{}) + Waiting(s.waiters)
       == Waiting(e.state.waiters) + Answered(e.answers)
    && (if e.add.Some? then e.add.value.generation == e.state.generation
        else e.state.waiters == [] || (e.state.waiters == s.waiters && e.state.generation == s.generation))
  }

  lemma FlushAccounts(s: State, submitted: bool)
    ensures Waiting(Flush(s, submitted).state.waiters) + Answered(Flush(s, submitted).answers) == Waiting(s.waiters)
  {
    AnswersAnswer(s.waiters, submitted);
  }

  lemma ScheduleAccounts(s: State, now: Date, waiter: Waiter)
    ensures var e := Schedule(s, now, waiter);
            && Waiting(e.state.waiters) + Answered(e.answers) == Waiting(s.waiters) + Waiting([waiter])
            && (if e.add.Some? then e.add.value.generation == e.state.generation
                && e.state.generation == s.generation + 1
                else e.state == s)
  {
    WaitingAppend(s.waiters, [waiter]);
    assert [waiter][1..] == [] && [Answer(waiter, true)][1..] == [];
  }

  lemma {:induction false} EnqueueEventsKeep(s: State, events: seq<Event>, n: nat)
    requires n <= |events|
    ensures var r := EnqueueEvents(s, events, n).0; r == s.(pending := r.pending)
    ensures (forall k :: k in s.pending ==> s.pending[k].Key() == k) ==>
              var r := EnqueueEvents(s, events, n).0; forall k :: k in r.pending ==> r.pending[k].Key() == k
  {
    if n > 0 {
      EnqueueEventsKeep(s, events, n - 1);
    }
  }

  /** An enqueued caller is answered at once or waits for a new submission. */
  lemma EnqueueForm(s: State, caller: nat, events: seq<Event>, now: Date) returns (s1: State)
    ensures s1.waiters == s.waiters && s1.generation == s.generation
    ensures var e := Enqueue(s, caller, events, now);
            e == Schedule(s1, now, Caller(caller)) || e == Effects(s1, [Answer(Caller(caller), true)], None, false)
  {
    hide EnqueueEvents, AllAccepted, Schedule;
    var r := EnqueueEvents(ExpireBatch(s, now), events, |events|);
    EnqueueEventsKeep(ExpireBatch(s, now), events, |events|);
    s1 := if r.1 && r.0.deadline.None? then r.0.(deadline := Some(now + AGGREGATION_WINDOW)) else r.0;
  }

  lemma EnqueueAccounts(s: State, caller: nat, events: seq<Event>, now: Date)
    ensures Accounts(s, EnqueueBlock(caller, events), Enqueue(s, caller, events, now))
  {
    var s1 := EnqueueForm(s, caller, events, now);
    hide Enqueue, Schedule;
    var who := Caller(caller);
    OneCaller(caller);
    ScheduleAccounts(s1, now, who);
  }

  lemma OneCaller(caller: nat)
    ensures Waiting([Caller(caller)]) == multiset{caller} && Answered([Answer(Caller(caller), true)])
            == multiset{caller}
  {
    assert [Caller(caller)][1..] == [] && [Answer(Caller(caller), true)][1..] == [];
  }

  /** Blocks without a caller keep the callers, whether they leave the waiters, submit again or withdraw. */
  lemma OthersAccount(s: State, s1: State, b: Block, e: Effects, now: Date, submitted: bool)
    requires !b.EnqueueBlock? && s1.waiters == s.waiters && s1.generation == s.generation
    requires e == Quietly(s1).(recheck := e.recheck) || e == Flush(s1, submitted) || e == Withdraw(s1, submitted)
             || e == Schedule(s1, now, Nobody)
    ensures Accounts(s, b, e)
  {
    assert [Nobody][1..] == [];
    FlushAccounts(s1, submitted);
    FlushAccounts(s1.(generation := s1.generation + 1), submitted);
    ScheduleAccounts(s1, now, Nobody);
  }

  lemma ExecuteAccounts(s: State, b: Block, now: Date)
    ensures Accounts(s, b, Execute(s, b, now))
  {
    hide Accounts, Schedule, Flush, Withdraw, Enqueue;
    var e := Execute(s, b, now);
    match b {
      case EnqueueBlock(caller, events) => EnqueueAccounts(s, caller, events, now);
      case ResolveBlock(scope) =>
        var s1 := ResolveScope(s, scope);
        OthersAccount(s, if HasSummary(s1) then s1.(deadline := Ahead(s.deadline, now)) else s1, b, e, now, true);
      case RetainBlock(scopes) =>
        var s1 := RetainScopes(s, scopes);
        OthersAccount(s, s1.(deadline := if HasSummary(s1) then Ahead(s.deadline, now) else None), b, e, now, true);
      case ClearDeliveredBlock =>
        OthersAccount(s, if HasSummary(s) then s.(deadline := None) else s, b, e, now, true);
      case SuppressBlock =>
        OthersAccount(s, MarkAccepted(s, s.pending).(pending := map[], deadline := None), b, e, now, true);
      case ClearAllBlock =>
        OthersAccount(s, s.(pending := map[], accepted := map[], deadline := None), b, e, now, false);
      case RecheckBlock(shownPending, since) =>
        OthersAccount(s, if HasSummary(s) && !shownPending then s.(deadline := None) else s, b, e, since, true);
      case CallbackBlock(sub, ok) =>
        OthersAccount(s, if ok && sub.generation == s.generation then MarkAccepted(s, sub.events) else s, b, e, now,
                      ok);
    }
  }
}
