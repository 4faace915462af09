/**
 * The coordinator's fields and the blocks that its serial queue executes on
 * them, each proved against the function that the run theorems reason about.
 */
module NotificationBlocks {
  import opened Common
  import N = NotificationCoordinator
  import opened NotificationTheorems

  class Coordinator {
    var pendingEvents: map<string, N.Event>
    var acceptedFingerprints: map<string, string>
    var batchDeadline: Option<N.Date>
    var submissionGeneration: nat
    var pendingSubmissionCompletions: seq<N.Waiter>

    ghost function View(): N.State
      reads this
    {
      N.State(pendingEvents, acceptedFingerprints, batchDeadline, submissionGeneration, pendingSubmissionCompletions)
    }

    constructor ()
      ensures View() == N.INITIAL_STATE
    {
      pendingEvents, acceptedFingerprints, batchDeadline := map[], map[], None;
      submissionGeneration, pendingSubmissionCompletions := 0, [];
    }

    method ExpireBatchIfNeeded(now: N.Date)
      modifies this`pendingEvents, this`batchDeadline
      ensures View() == N.ExpireBatch(old(View()), now)
    {
      if batchDeadline.Some? && batchDeadline.value <= now {
        pendingEvents, batchDeadline := map[], None;
      }
    }

    method EnqueueEvent(event: N.Event) returns (changed: bool)
      modifies this`pendingEvents
      ensures (View(), changed) == N.EnqueueEvent(old(View()), event)
    {
      var key := event.Key();
      if key in acceptedFingerprints && acceptedFingerprints[key] == event.fingerprint {
        return false;
      }
      if key in pendingEvents && pendingEvents[key] == event {
        return false;
      }
      pendingEvents := pendingEvents[key := event];
      return true;
    }

    method FlushSubmissionCompletions(submitted: bool) returns (answers: seq<N.Answer>)
      modifies this`pendingSubmissionCompletions
      ensures N.Effects(View(), answers, None, false) == N.Flush(old(View()), submitted)
    {
      var completions := pendingSubmissionCompletions;
      pendingSubmissionCompletions := [];
      answers := [];
      for i := 0 to |completions|
        invariant answers == N.Answers(completions, submitted)[..i]
      {
        answers := answers + [N.Answer(completions[i], submitted)];
      }
    }

    method SchedulePendingSummary(now: N.Date, waiter: N.Waiter)
      returns (answers: seq<N.Answer>, add: Option<N.Submission>)
      modifies this
      ensures N.Effects(View(), answers, add, false) == N.Schedule(old(View()), now, waiter)
    {
      if pendingEvents == map[] {
        return [N.Answer(waiter, true)], None;
      }
      if batchDeadline.None? {
        batchDeadline := Some(now + N.AGGREGATION_WINDOW);
      }
      submissionGeneration := submissionGeneration + 1;
      pendingSubmissionCompletions := pendingSubmissionCompletions + [waiter];
      return [], Some(N.Submission(submissionGeneration, pendingEvents));
    }

    method Enqueue(caller: nat, events: seq<N.Event>, now: N.Date)
      returns (answers: seq<N.Answer>, add: Option<N.Submission>)
      modifies this
      ensures N.Effects(View(), answers, add, false) == N.Enqueue(old(View()), caller, events, now)
    {
      ExpireBatchIfNeeded(now);
      ghost var start := View();
      var changed := false;
      for i := 0 to |events|
        invariant (View(), changed) == N.EnqueueEvents(start, events, i)
      {
        var more := EnqueueEvent(events[i]);
        changed := more || changed;
      }
      if !changed {
        if N.AllAccepted(N.State(pendingEvents, acceptedFingerprints, batchDeadline, submissionGeneration,
                                 pendingSubmissionCompletions), events) {
          return [N.Answer(N.Caller(caller), true)], None;
        }
        answers, add := SchedulePendingSummary(now, N.Caller(caller));
        return;
      }
      if batchDeadline.None? {
        batchDeadline := Some(now + N.AGGREGATION_WINDOW);
      }
      answers, add := SchedulePendingSummary(now, N.Caller(caller));
    }

    /** Nothing is left to announce: a submission under way is superseded and its waiters are answered. */
    method WithdrawSummary(submitted: bool) returns (answers: seq<N.Answer>)
      modifies this
      ensures N.Effects(View(), answers, None, false) == N.Withdraw(old(View()), submitted)
    {
      submissionGeneration := submissionGeneration + 1;
      answers := FlushSubmissionCompletions(submitted);
    }

    method Resolve(scope: string, now: N.Date) returns (answers: seq<N.Answer>, recheck: bool)
      modifies this
      ensures N.Effects(View(), answers, None, recheck) == N.Resolve(old(View()), scope, now)
    {
      var existingDeadline := batchDeadline;
      pendingEvents := map k | k in pendingEvents && pendingEvents[k].scope != scope :: pendingEvents[k];
      acceptedFingerprints := map k | k in acceptedFingerprints && !N.KeyOfScope(k, scope) :: acceptedFingerprints[k];
      batchDeadline := None;
      if pendingEvents != map[] && existingDeadline.Some? && existingDeadline.value > now {
        batchDeadline := existingDeadline;
      }
      if pendingEvents == map[] {
        answers := WithdrawSummary(true);
        return answers, false;
      }
      return [], true;
    }

    method Retain(scopes: set<string>, now: N.Date) returns (answers: seq<N.Answer>, recheck: bool)
      modifies this
      ensures N.Effects(View(), answers, None, recheck) == N.Retain(old(View()), scopes, now)
    {
      var existingDeadline, previous := batchDeadline, pendingEvents;
      pendingEvents := map k | k in pendingEvents && pendingEvents[k].scope in scopes :: pendingEvents[k];
      acceptedFingerprints :=
        map k | k in acceptedFingerprints && N.KeyOfAny(k, scopes) :: acceptedFingerprints[k];
      batchDeadline :=
        if pendingEvents != map[] && existingDeadline.Some? && existingDeadline.value > now then existingDeadline
            else None;
      if pendingEvents == map[] {
        answers := WithdrawSummary(true);
        return answers, false;
      }
      return [], pendingEvents != previous;
    }

    method Recheck(shownPending: bool, now: N.Date) returns (answers: seq<N.Answer>, add: Option<N.Submission>)
      modifies this
      ensures N.Effects(View(), answers, add, false) == N.Recheck(old(View()), shownPending, now)
    {
      if pendingEvents == map[] {
        return [], None;
      }
      if !shownPending {
        batchDeadline := None;
        return [], None;
      }
      answers, add := SchedulePendingSummary(now, N.Nobody);
    }

    method ClearDeliveredSummary(now: N.Date) returns (answers: seq<N.Answer>, add: Option<N.Submission>)
      modifies this
      ensures N.Effects(View(), answers, add, false) == N.ClearDelivered(old(View()), now)
    {
      if pendingEvents == map[] {
        return [], None;
      }
      batchDeadline := None;
      answers, add := SchedulePendingSummary(now, N.Nobody);
    }

    method SuppressCurrentBatch() returns (answers: seq<N.Answer>)
      modifies this
      ensures N.Effects(View(), answers, None, false) == N.Suppress(old(View()))
    {
      acceptedFingerprints := acceptedFingerprints + map k | k in pendingEvents :: pendingEvents[k].fingerprint;
      pendingEvents, batchDeadline := map[], None;
      answers := WithdrawSummary(true);
    }

    method ClearAll() returns (answers: seq<N.Answer>)
      modifies this
      ensures N.Effects(View(), answers, None, false) == N.ClearAll(old(View()))
    {
      pendingEvents, acceptedFingerprints, batchDeadline := map[], map[], None;
      answers := WithdrawSummary(false);
    }

    /** The callback of `center.add`; only the current submission may record acceptance and answer the waiters. */
    method AddCompleted(sub: N.Submission, ok: bool) returns (answers: seq<N.Answer>)
      modifies this
      ensures N.Effects(View(), answers, None, false) == N.Callback(old(View()), sub, ok)
    {
      if sub.generation != submissionGeneration {
        return [];
      }
      if ok {
        acceptedFingerprints := acceptedFingerprints + map k | k in sub.events :: sub.events[k].fingerprint;
      }
      answers := FlushSubmissionCompletions(ok);
    }

    /** The queue executes one block. */
    method Execute(block: N.Block, now: N.Date)
      returns (answers: seq<N.Answer>, add: Option<N.Submission>, recheck: bool)
      modifies this
      ensures N.Effects(View(), answers, add, recheck) == N.Execute(old(View()), block, now)
    {
      hide N.Enqueue, N.Resolve, N.Retain, N.ClearDelivered, N.Suppress, N.ClearAll, N.Recheck, N.Callback;
      answers, add, recheck := [], None, false;
      match block
      case EnqueueBlock(caller, events) => answers, add := Enqueue(caller, events, now);
      case ResolveBlock(scope) => answers, recheck := Resolve(scope, now);
      case RetainBlock(scopes) => answers, recheck := Retain(scopes, now);
      case ClearDeliveredBlock => answers, add := ClearDeliveredSummary(now);
      case SuppressBlock => answers := SuppressCurrentBatch();
      case ClearAllBlock => answers := ClearAll();
      case RecheckBlock(shownPending, since) => answers, add := Recheck(shownPending, since);
      case CallbackBlock(sub, ok) => answers := AddCompleted(sub, ok);
    }
  }

  /**
   * The serial queue around the coordinator and the requests that the notification
   * centre has not answered. `called` and `answers` are history.
   */
  class Dispatcher {
    const coordinator: Coordinator
    var queue: seq<N.Block>
    var adds: seq<N.Submission>
    var rechecks: seq<N.Date>
    ghost var called: multiset<nat>
    ghost var answers: seq<N.Answer>

    ghost function View(): N.World
      reads this, coordinator
    {
      N.World(coordinator.View(), queue, adds, rechecks, called, answers)
    }

    constructor ()
      ensures View() == N.INITIAL_WORLD && fresh(coordinator)
    {
      coordinator := new Coordinator();
      queue, adds, rechecks, called, answers := [], [], [], multiset{}, [];
    }

    /** The app calls; an empty `enqueue` is answered on the spot. */
    method Submit(block: N.Block)
      requires N.IsCall(block)
      modifies this
      ensures N.Step(old(View()), N.Call(block)) == Some(View())
    {
      if block.EnqueueBlock? {
        called := called + multiset{block.caller};
        if block.events == [] {
          answers := answers + [N.Answer(N.Caller(block.caller), true)];
          return;
        }
      }
      queue := queue + [block];
    }

    method ExecuteNext(now: N.Date)
      requires queue != []
      modifies this, coordinator
      ensures N.Step(old(View()), N.ExecuteNext(now)) == Some(View())
    {
      hide N.Execute;
      var block := queue[0];
      queue := queue[1..];
      var given, add, recheck := coordinator.Execute(block, now);
      answers := answers + given;
      if add.Some? {
        adds := adds + [add.value];
      }
      if recheck {
        rechecks := rechecks + [now];
      }
    }

    /** An `add` calls back: its block joins the queue. */
    method AddReports(i: nat, ok: bool)
      requires i < |adds|
      modifies this
      ensures N.Step(old(View()), N.AddReports(i, ok)) == Some(View())
    {
      queue := queue + [N.CallbackBlock(adds[i], ok)];
      adds := adds[..i] + adds[i + 1..];
    }

    method RecheckReports(i: nat, shownPending: bool)
      requires i < |rechecks|
      modifies this
      ensures N.Step(old(View()), N.RecheckReports(i, shownPending)) == Some(View())
    {
      queue := queue + [N.RecheckBlock(shownPending, rechecks[i])];
      rechecks := rechecks[..i] + rechecks[i + 1..];
    }

    /**
     * Executes blocks and lets the notification centre call back, in whatever way
     * it does, until nothing is left to do. That ends, it is a run of the world,
     * and afterwards every call has been answered exactly once.
     */
    method Settle(now: N.Date, reports: nat -> bool) returns (ghost trace: seq<N.Happening>)
      modifies this, coordinator
      ensures N.Run(old(View()), trace) == Some(View()) && NoCalls(trace)
      ensures queue == [] && adds == [] && rechecks == []
      ensures N.Sound(old(View())) ==>
                N.Sound(View()) && coordinator.pendingSubmissionCompletions == [] && N.Answered(answers) == called
    {
      hide N.Step, N.Sound, Work, N.Answered;
      trace := [];
      ghost var start := View();
      var n := 0;
      while queue != [] || adds != [] || rechecks != []
        invariant N.Run(start, trace) == Some(View()) && NoCalls(trace)
        decreases Work(View())
      {
        ghost var before := View();
        ghost var h: N.Happening;
        if queue != [] {
          h := N.ExecuteNext(now);
          ExecuteNext(now);
        } else if adds != [] {
          h := N.AddReports(0, reports(n));
          AddReports(0, reports(n));
        } else {
          h := N.RecheckReports(0, reports(n));
          RecheckReports(0, reports(n));
        }
        InternalStepWorks(before, h);
        RunThen(start, trace, h);
        trace, n := trace + [h], n + 1;
      }
      if N.Sound(start) {
        RunKeeps(start, trace);
        SettledAnswersEveryone(View());
      }
    }
  }

  lemma {:induction false} RunThen(w: N.World, events: seq<N.Happening>, h: N.Happening)
    requires N.Run(w, events).Some?
    ensures N.Run(w, events + [h]) == N.Step(N.Run(w, events).value, h)
    decreases |events|
  {
    if events == [] {
      assert events + [h] == [h];
      assert [h][1..] == [];
    } else {
      RunThen(N.Step(w, events[0]).value, events[1..], h);
      assert (events + [h])[1..] == events[1..] + [h];
    }
  }
}
