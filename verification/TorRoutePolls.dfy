/**
 * What one call of the route policy comes to: a poll in any interleaving makes
 * its inner poll exactly when the route was direct and its lease current, and a
 * call that nobody disturbs ends where it should.
 */
module TorRoutePolls {
  import opened Common
  import opened TorRoute
  import opened TorRouteTheorems
  import opened TorRouteWakes

  // ----- What a thread's poll read and did

  /** This event is a step of thread `t`, taken at its next atomic operation. */
  predicate Takes(s: Sys, e: Event, t: Thread) {
    e.Advance? && e.t == t && t in s.threads
  }

  /** The step makes the inner poll of a lease whose waker is registered. */
  predicate PollsInner(s: Sys, e: Event, t: Thread) {
    Takes(s, e, t) && Step(s, e).Some? && Step(s, e).value.inner != s.inner
  }

  /** How many inner polls thread `t` makes. */
  ghost function InnerPollsOf(s: Sys, events: seq<Event>, t: Thread): nat
    requires Run(s, events).Some?
    decreases |events|
  {
    if events == [] then 0
    else (if PollsInner(s, events[0], t) then 1 else 0) + InnerPollsOf(Step(s, events[0]).value, events[1..], t)
  }

  /** Every inner poll of `t` is one of this lease, whose waker was registered before and still is. */
  ghost predicate RegistersFirst(s: Sys, events: seq<Event>, t: Thread, id: LeaseId)
    requires Run(s, events).Some?
    decreases |events|
  {
    events != [] ==>
      && (PollsInner(s, events[0], t) ==>
            id in s.registered && id in s.wakers && Step(s, events[0]).value.inner == s.inner + [id])
      && RegistersFirst(Step(s, events[0]).value, events[1..], t, id)
  }

  /** Thread `t` reads the flag, and Tor is not desired then. */
  ghost predicate SawDirect(s: Sys, events: seq<Event>, t: Thread)
    requires Run(s, events).Some?
    decreases |events|
  {
    events != [] &&
    (|| (Takes(s, events[0], t) && s.threads[t].PollDesired? && !s.desired)
     || SawDirect(Step(s, events[0]).value, events[1..], t))
  }

  /** Thread `t` reads the epoch. */
  ghost predicate ReadEpoch(s: Sys, events: seq<Event>, t: Thread)
    requires Run(s, events).Some?
    decreases |events|
  {
    events != [] &&
    (|| (Takes(s, events[0], t) && s.threads[t].PollEpoch?)
     || ReadEpoch(Step(s, events[0]).value, events[1..], t))
  }

  /** Thread `t` reads the epoch, and it is that of the lease. */
  ghost predicate SawCurrent(s: Sys, events: seq<Event>, t: Thread, id: LeaseId)
    requires Run(s, events).Some?
    decreases |events|
  {
    events != [] &&
    (|| (Takes(s, events[0], t) && s.threads[t].PollEpoch? && id in s.leases && s.leases[id] == s.epoch)
     || SawCurrent(Step(s, events[0]).value, events[1..], t, id))
  }

  // ----- A poll in any interleaving

  /** Where a poll of the lease can be. */
  ghost predicate Under(s: Sys, t: Thread, id: LeaseId) {
    && t in s.threads && (Polling(s.threads[t]) == Some(id) || s.threads[t].Finished?)
    && (s.threads[t].PollInner? ==> id in s.registered && id in s.wakers)
    && (HoldsWakers(s.threads[t]) ==> s.wakersLock == Some(t))
  }

  /** What is still to come from here, if the poll runs to its end. */
  ghost predicate Comes(s: Sys, events: seq<Event>, t: Thread, id: LeaseId)
    requires Run(s, events).Some? && t in s.threads
  {
    var polls := InnerPollsOf(s, events, t);
    && RegistersFirst(s, events, t, id)
    && match s.threads[t]
       case PollEpoch(_) =>
         ReadEpoch(s, events, t) && !SawDirect(s, events, t)
         && polls == (if SawCurrent(s, events, t, id) then 1 else 0)
       case PollInsert(_) => Past(s, events, t, id) && polls == 1
       case PollInner(_) => Past(s, events, t, id) && polls == 1
       case Finished => Past(s, events, t, id) && polls == 0
       case _ =>
         && (ReadEpoch(s, events, t) <==> SawDirect(s, events, t))
         && (SawCurrent(s, events, t, id) ==> ReadEpoch(s, events, t))
         && polls == (if SawDirect(s, events, t) && SawCurrent(s, events, t, id) then 1 else 0)
  }

  ghost predicate Past(s: Sys, events: seq<Event>, t: Thread, id: LeaseId)
    requires Run(s, events).Some?
  {
    !SawDirect(s, events, t) && !ReadEpoch(s, events, t) && !SawCurrent(s, events, t, id)
  }

  /** What the poll's next step does, by where it is. */
  ghost predicate PollGoes(s: Sys, s': Sys, t: Thread, id: LeaseId)
    requires t in s.threads && t in s'.threads
  {
    var pc := s.threads[t];
    && (pc.PollLock? ==> s'.threads[t] == PollDesired(id))
    && (pc.PollDesired? && s.desired ==> s'.threads[t].Finished?)
    && (pc.PollDesired? && !s.desired ==> s'.threads[t] == PollEpoch(id))
    && (pc.PollEpoch? && id in s.leases && s.leases[id] == s.epoch ==> s'.threads[t] == PollInsert(id))
    && (pc.PollEpoch? && !(id in s.leases && s.leases[id] == s.epoch) ==> s'.threads[t].Finished?)
    && (pc.PollInsert? ==> s'.threads[t] == PollInner(id) && id in s'.registered && id in s'.wakers)
    && (pc.PollInner? ==> s'.threads[t].Finished? && s'.inner == s.inner + [id])
  }

  lemma PollEffect(s: Sys, s': Sys, t: Thread, id: LeaseId)
    requires t in s.threads && Polling(s.threads[t]) == Some(id) && PollStep(s, t, s.threads[t]) == Some(s')
    ensures t in s'.threads && PollGoes(s, s', t, id)
    ensures s'.inner != s.inner <==> s.threads[t].PollInner?
  {
    if s.threads[t].PollInner? {
      assert |s.inner + [id]| != |s.inner|;
    }
  }

  lemma PollKeepsLock(s: Sys, s': Sys, t: Thread, id: LeaseId)
    requires Sound(s) && t in s.threads && Polling(s.threads[t]) == Some(id)
    requires PollStep(s, t, s.threads[t]) == Some(s')
    ensures t in s'.threads && (HoldsWakers(s'.threads[t]) ==> s'.wakersLock == Some(t))
  {
    AtHolds(s, t);
    hide Sound, At, PollsMove, CountsMove, WakersMove, StatusMove, PollStep;
    PollMoves(s, t, s.threads[t]);
  }

  lemma OwnStep(s: Sys, e: Event, t: Thread, id: LeaseId)
    requires Sound(s) && Under(s, t, id) && Takes(s, e, t) && !s.threads[t].Finished? && Step(s, e).Some?
    ensures Under(Step(s, e).value, t, id) && PollGoes(s, Step(s, e).value, t, id)
    ensures PollsInner(s, e, t) <==> s.threads[t].PollInner?
  {
    hide Sound, PollStep, BeginStep, DisableStep, FailStep, BootStep, InstallStep, LeaseStep, ReadStep;
    PollKeepsLock(s, Step(s, e).value, t, id);
    PollEffect(s, Step(s, e).value, t, id);
  }

  /** Other threads leave a poll where it is, and its waker registered. */
  lemma OthersStep(s: Sys, e: Event, t: Thread, id: LeaseId)
    requires Sound(s) && Under(s, t, id) && Step(s, e).Some? && e.t != t
    ensures Under(Step(s, e).value, t, id) && Step(s, e).value.threads[t] == s.threads[t]
  {
    if HoldsWakers(s.threads[t]) {
      OthersWait(s, e, t);
    }
    hide Sound;
    StepFacts(s, e);
  }

  lemma {:induction false} PollComes(s: Sys, events: seq<Event>, t: Thread, id: LeaseId)
    requires Sound(s) && Under(s, t, id) && Run(s, events).Some?
    requires t in Run(s, events).value.threads && Run(s, events).value.threads[t].Finished?
    ensures t in s.threads && Comes(s, events, t, id)
    decreases |events|
  {
    UnderIn(s, t, id);
    if events != [] {
      var s' := Step(s, events[0]).value;
      hide Sound, Step, Under, Comes, PollsInner, PollGoes;
      StepKeeps(s, events[0]);
      if events[0].t == t {
        SpawnedOnce(s, events[0], t, id);
        OwnStep(s, events[0], t, id);
        PollComes(s', events[1..], t, id);
        OwnComes(s, events, t, id);
      } else {
        OthersStep(s, events[0], t, id);
        PollComes(s', events[1..], t, id);
        OthersComes(s, events, t, id);
      }
    }
  }

  lemma OthersComes(s: Sys, events: seq<Event>, t: Thread, id: LeaseId)
    requires events != [] && Run(s, events).Some? && events[0].t != t && t in s.threads
    requires var s' := Step(s, events[0]).value;
             t in s'.threads && s'.threads[t] == s.threads[t] && Comes(s', events[1..], t, id)
    ensures Comes(s, events, t, id)
  {
    hide Step;
  }

  lemma OwnComes(s: Sys, events: seq<Event>, t: Thread, id: LeaseId)
    requires events != [] && Run(s, events).Some? && Under(s, t, id) && Takes(s, events[0], t)
    requires !s.threads[t].Finished?
    requires PollsInner(s, events[0], t) <==> s.threads[t].PollInner?
    requires var s' := Step(s, events[0]).value;
             t in s'.threads && PollGoes(s, s', t, id) && Comes(s', events[1..], t, id)
    ensures Comes(s, events, t, id)
  {
    hide Step, PollsInner;
  }

  lemma UnderIn(s: Sys, t: Thread, id: LeaseId)
    requires Under(s, t, id)
    ensures t in s.threads && (Polling(s.threads[t]) == Some(id) || s.threads[t].Finished?)
    ensures s.threads[t].PollInner? ==> id in s.registered && id in s.wakers
  {
  }

  /** A thread that is there is not spawned again, and a finished one takes no step. */
  lemma SpawnedOnce(s: Sys, e: Event, t: Thread, id: LeaseId)
    requires Under(s, t, id) && Step(s, e).Some? && e.t == t
    ensures Takes(s, e, t) && !s.threads[t].Finished?
  {
  }

  /**
   * A poll in full: from its call to its end, in any interleaving, it reads the
   * epoch exactly if Tor was not desired when it read the flag, and makes one
   * inner poll if that epoch was its lease's and none otherwise; its waker is
   * registered before.
   */
  lemma PollPollsExactly(s: Sys, t: Thread, id: LeaseId, events: seq<Event>)
    requires Reachable(s) && Step(s, Spawn(t, PollLease(id))).Some?
    requires var s1 := Step(s, Spawn(t, PollLease(id))).value;
             Run(s1, events).Some? && t in Run(s1, events).value.threads && Run(s1, events).value.threads[t].Finished?
    ensures var s1 := Step(s, Spawn(t, PollLease(id))).value;
            && (ReadEpoch(s1, events, t) <==> SawDirect(s1, events, t))
            && InnerPollsOf(s1, events, t) <= 1
            && (InnerPollsOf(s1, events, t) == 1 <==> SawDirect(s1, events, t) && SawCurrent(s1, events, t, id))
            && RegistersFirst(s1, events, t, id)
  {
    var s1 := Step(s, Spawn(t, PollLease(id))).value;
    assert s1.threads[t] == PollLock(id);
    assert Under(s1, t, id);
    hide Sound, Step, Under;
    ReachableSound(s);
    StepKeeps(s, Spawn(t, PollLease(id)));
    PollComes(s1, events, t, id);
  }

  // ----- Undisturbed calls

  predicate OnlyOf(events: seq<Event>, t: Thread) {
    forall i :: 0 <= i < |events| ==> events[i].t == t
  }

  /** Thread `t`, and nobody else, leads from one state to the other. */
  ghost predicate Alone(s: Sys, t: Thread, s': Sys) {
    exists events :: OnlyOf(events, t) && Run(s, events) == Some(s')
  }

  lemma Goes(start: Sys, s: Sys, t: Thread, e: Event, s': Sys)
    requires Alone(start, t, s) && e.t == t && Step(s, e) == Some(s')
    ensures Alone(start, t, s')
  {
    hide Step;
    var events :| OnlyOf(events, t) && Run(start, events) == Some(s);
    RunAppend(start, events, e);
    assert OnlyOf(events + [e], t);
  }

  lemma Calls(s: Sys, t: Thread, call: Call) returns (s': Sys)
    requires t !in s.threads && Allowed(s, call) && !call.DropLease?
    ensures Alone(s, t, s') && s' == To(s, t, Entry(call))
  {
    var events := [Spawn(t, call)];
    s' := To(s, t, Entry(call));
    assert events[1..] == [];
    assert OnlyOf(events, t) && Run(s, events) == Some(s');
  }

  /** The state of leases and wakers, with thread `t` at this place of its poll. */
  ghost predicate PollAt(s: Sys, t: Thread, pc: Pc, wakers: set<LeaseId>, inner: seq<LeaseId>, s': Sys) {
    && t in s'.threads && s'.threads[t] == pc
    && s'.wakersLock == (if HoldsWakers(pc) then Some(t) else None)
    && s'.desired == s.desired && s'.epoch == s.epoch && s'.leases == s.leases
    && s'.wakers == wakers && s'.inner == inner
  }

  /** Where the poll goes next, and what it does to wakers and inner polls. */
  lemma PollStepAlone(s: Sys, t: Thread, pc: Pc, wakers: set<LeaseId>, inner: seq<LeaseId>, s1: Sys) returns (s2: Sys)
    requires Alone(s, t, s1) && PollAt(s, t, pc, wakers, inner, s1) && Polling(pc).Some?
    ensures Alone(s, t, s2)
    ensures pc.PollLock? ==> PollAt(s, t, PollDesired(pc.id), wakers, inner, s2)
    ensures pc.PollDesired? ==> PollAt(s, t, if s.desired then Finished else PollEpoch(pc.id), wakers, inner, s2)
    ensures pc.PollEpoch? && pc.id in s.leases && s.leases[pc.id] == s.epoch ==>
              PollAt(s, t, PollInsert(pc.id), wakers, inner, s2)
    ensures pc.PollEpoch? && !(pc.id in s.leases && s.leases[pc.id] == s.epoch) ==>
              PollAt(s, t, Finished, wakers, inner, s2)
    ensures pc.PollInsert? ==> PollAt(s, t, PollInner(pc.id), wakers + {pc.id}, inner, s2)
    ensures pc.PollInner? ==> PollAt(s, t, Finished, wakers, inner + [pc.id], s2)
  {
    hide Alone, Run, BeginStep, DisableStep, FailStep, BootStep, InstallStep, LeaseStep, ReadStep;
    s2 := Step(s1, Advance(t, false, 0)).value;
    Goes(s, s1, t, Advance(t, false, 0), s2);
  }

  lemma CallsPoll(s: Sys, t: Thread, id: LeaseId) returns (s': Sys)
    requires id in s.leases && t !in s.threads && s.wakersLock.None?
    ensures Alone(s, t, s') && PollAt(s, t, PollLock(id), s.wakers, s.inner, s')
  {
    s' := Calls(s, t, PollLease(id));
  }

  lemma PollAtEnd(s: Sys, t: Thread, wakers: set<LeaseId>, inner: seq<LeaseId>, s': Sys)
    requires PollAt(s, t, Finished, wakers, inner, s')
    ensures t in s'.threads && s'.threads[t].Finished? && s'.wakersLock.None?
    ensures s'.inner == inner && s'.wakers == wakers
  {
  }

  /**
   * A poll that nobody disturbs ends, and reaches its connection exactly if Tor is
   * not desired and its lease is current.
   */
  lemma LonePoll(s: Sys, t: Thread, id: LeaseId) returns (s': Sys)
    requires id in s.leases && t !in s.threads && s.wakersLock.None?
    ensures Alone(s, t, s') && t in s'.threads && s'.threads[t].Finished? && s'.wakersLock.None?
    ensures if !s.desired && s.leases[id] == s.epoch
            then s'.inner == s.inner + [id] && s'.wakers == s.wakers + {id}
            else s'.inner == s.inner && s'.wakers == s.wakers
  {
    hide Alone, PollAt;
    s' := CallsPoll(s, t, id);
    s' := PollStepAlone(s, t, PollLock(id), s.wakers, s.inner, s');
    s' := PollStepAlone(s, t, PollDesired(id), s.wakers, s.inner, s');
    if !s.desired {
      s' := PollStepAlone(s, t, PollEpoch(id), s.wakers, s.inner, s');
      if s.leases[id] == s.epoch {
        s' := PollStepAlone(s, t, PollInsert(id), s.wakers, s.inner, s');
        s' := PollStepAlone(s, t, PollInner(id), s.wakers + {id}, s.inner, s');
        PollAtEnd(s, t, s.wakers + {id}, s.inner + [id], s');
        return;
      }
    }
    PollAtEnd(s, t, s.wakers, s.inner, s');
  }

  /** The route state, with thread `t` at this place of its call. */
  ghost predicate RouteAt(s: Sys, t: Thread, pc: Pc, desired: bool, status: RouteStatus, slot: bool) {
    && t in s.threads && s.threads[t] == pc
    && s.slotLock == (if HoldsSlot(pc) then Some(t) else None)
    && s.desired == desired && s.status == status && s.slot == slot
  }

  lemma CallsRoute(s: Sys, t: Thread, call: Call) returns (s': Sys)
    requires t !in s.threads && s.slotLock.None?
    requires call.EnableTor? || call.FailTorEnable? || call.DisableTor? || call.ResolveRoute?
    ensures Alone(s, t, s') && RouteAt(s', t, Entry(call), s.desired, s.status, s.slot)
  {
    s' := Calls(s, t, call);
  }

  lemma DesiresAlone(s: Sys, s1: Sys, t: Thread, pc: Pc, desired: bool, status: RouteStatus, slot: bool)
    returns (s2: Sys)
    requires Alone(s, t, s1) && RouteAt(s1, t, pc, desired, status, slot)
    requires pc.EnableDesire? || pc.BootDesired?
    ensures Alone(s, t, s2)
    ensures pc.EnableDesire? ==> RouteAt(s2, t, BootDesired, true, status, slot)
    ensures pc.BootDesired? && desired ==> RouteAt(s2, t, BootStatus, desired, status, slot)
  {
    hide Alone, Run, BeginStep, DisableStep, FailStep, InstallStep, LeaseStep, PollStep, ReadStep;
    s2 := Step(s1, Advance(t, false, 0)).value;
    Goes(s, s1, t, Advance(t, false, 0), s2);
  }

  lemma LooksAlone(s: Sys, s1: Sys, t: Thread, pc: Pc, desired: bool, status: RouteStatus, slot: bool)
    returns (s2: Sys)
    requires Alone(s, t, s1) && RouteAt(s1, t, pc, desired, status, slot)
    requires pc.BootStatus?
    ensures Alone(s, t, s2)
    ensures status == Ready ==> RouteAt(s2, t, BootSlot, desired, status, slot)
    ensures status != Ready ==> RouteAt(s2, t, BootMark, desired, status, slot)
  {
    hide Alone, Run, BeginStep, DisableStep, FailStep, InstallStep, LeaseStep, PollStep, ReadStep;
    s2 := Step(s1, Advance(t, false, 0)).value;
    Goes(s, s1, t, Advance(t, false, 0), s2);
  }

  lemma BootSlotAlone(s: Sys, s1: Sys, t: Thread, desired: bool, status: RouteStatus, slot: bool)
    returns (s2: Sys)
    requires Alone(s, t, s1) && RouteAt(s1, t, BootSlot, desired, status, slot)
    ensures Alone(s, t, s2)
    ensures !slot ==> RouteAt(s2, t, BootMark, desired, status, slot)
  {
    hide Alone, Run, BeginStep, DisableStep, FailStep, InstallStep, LeaseStep, PollStep, ReadStep;
    s2 := Step(s1, Advance(t, false, 0)).value;
    Goes(s, s1, t, Advance(t, false, 0), s2);
  }

  lemma BootMarkAlone(s: Sys, s1: Sys, t: Thread, desired: bool, status: RouteStatus, slot: bool)
    returns (s2: Sys)
    requires Alone(s, t, s1) && RouteAt(s1, t, BootMark, desired, status, slot)
    ensures Alone(s, t, s2)
    ensures RouteAt(s2, t, BootWait, desired, Bootstrapping, slot)
  {
    hide Alone, Run, BeginStep, DisableStep, FailStep, InstallStep, LeaseStep, PollStep, ReadStep;
    s2 := Step(s1, Advance(t, false, 0)).value;
    Goes(s, s1, t, Advance(t, false, 0), s2);
  }

  lemma BootWaitAlone(s: Sys, s1: Sys, t: Thread, desired: bool, status: RouteStatus, slot: bool, succeeds: bool)
    returns (s2: Sys)
    requires Alone(s, t, s1) && RouteAt(s1, t, BootWait, desired, status, slot)
    ensures Alone(s, t, s2)
    ensures succeeds ==> RouteAt(s2, t, InstallLock, desired, status, slot)
    ensures !succeeds ==> RouteAt(s2, t, FailLock, desired, status, slot)
  {
    hide Alone, Run, BeginStep, DisableStep, FailStep, InstallStep, LeaseStep, PollStep, ReadStep;
    s2 := Step(s1, Advance(t, succeeds, 0)).value;
    Goes(s, s1, t, Advance(t, succeeds, 0), s2);
  }

  lemma InstallStepAlone(s: Sys, s1: Sys, t: Thread, pc: Pc, desired: bool, status: RouteStatus, slot: bool)
    returns (s2: Sys)
    requires Alone(s, t, s1) && RouteAt(s1, t, pc, desired, status, slot) && GroupOf(pc) == OfInstall
    ensures Alone(s, t, s2)
    ensures pc.InstallLock? ==> RouteAt(s2, t, InstallRead, desired, status, slot)
    ensures pc.InstallRead? && desired ==> RouteAt(s2, t, InstallPut, desired, status, slot)
    ensures pc.InstallPut? ==> RouteAt(s2, t, InstallReady, desired, status, true)
    ensures pc.InstallReady? ==> RouteAt(s2, t, Finished, desired, Ready, slot)
  {
    hide Alone, Run, BeginStep, DisableStep, FailStep, BootStep, LeaseStep, PollStep, ReadStep;
    s2 := Step(s1, Advance(t, false, 0)).value;
    Goes(s, s1, t, Advance(t, false, 0), s2);
  }

  lemma FailStepAlone(s: Sys, s1: Sys, t: Thread, pc: Pc, desired: bool, status: RouteStatus, slot: bool)
    returns (s2: Sys)
    requires Alone(s, t, s1) && RouteAt(s1, t, pc, desired, status, slot) && GroupOf(pc) == OfFail
    ensures Alone(s, t, s2)
    ensures pc.FailLock? ==> RouteAt(s2, t, FailClear, desired, status, slot)
    ensures pc.FailClear? ==> RouteAt(s2, t, FailRead, desired, status, false)
    ensures pc.FailRead? && desired ==> RouteAt(s2, t, FailStore, desired, status, slot)
    ensures pc.FailRead? && !desired ==> RouteAt(s2, t, Finished, desired, status, slot)
    ensures pc.FailStore? ==> RouteAt(s2, t, Finished, desired, FailedRoute, slot)
  {
    hide Alone, Run, BeginStep, DisableStep, BootStep, InstallStep, LeaseStep, PollStep, ReadStep;
    s2 := Step(s1, Advance(t, false, 0)).value;
    Goes(s, s1, t, Advance(t, false, 0), s2);
  }

  lemma DisableStepAlone(s: Sys, s1: Sys, t: Thread, pc: Pc, desired: bool, status: RouteStatus, slot: bool)
    returns (s2: Sys)
    requires Alone(s, t, s1) && RouteAt(s1, t, pc, desired, status, slot) && GroupOf(pc) == OfDisable
    ensures Alone(s, t, s2)
    ensures pc.DisableLock? ==> RouteAt(s2, t, DisableDesire, desired, status, slot)
    ensures pc.DisableDesire? ==> RouteAt(s2, t, DisableStatus, false, status, slot)
    ensures pc.DisableStatus? ==> RouteAt(s2, t, DisableClear, desired, DirectRoute, slot)
    ensures pc.DisableClear? ==> RouteAt(s2, t, Finished, desired, status, false)
  {
    hide Alone, Run, BeginStep, FailStep, BootStep, InstallStep, LeaseStep, PollStep, ReadStep;
    s2 := Step(s1, Advance(t, false, 0)).value;
    Goes(s, s1, t, Advance(t, false, 0), s2);
  }

  /** While a bootstrap that nobody disturbs is under way, Tor is desired and the status says so. */
  lemma LoneBootstrap(s: Sys, t: Thread) returns (s': Sys)
    requires t !in s.threads && s.slotLock.None? && !(s.status == Ready && s.slot)
    ensures Alone(s, t, s') && RouteAt(s', t, BootWait, true, Bootstrapping, s.slot)
  {
    hide Alone, RouteAt;
    s' := CallsRoute(s, t, EnableTor);
    s' := DesiresAlone(s, s', t, EnableDesire, s.desired, s.status, s.slot);
    s' := DesiresAlone(s, s', t, BootDesired, true, s.status, s.slot);
    s' := LooksAlone(s, s', t, BootStatus, true, s.status, s.slot);
    if s.status == Ready {
      s' := BootSlotAlone(s, s', t, true, s.status, s.slot);
    }
    s' := BootMarkAlone(s, s', t, true, s.status, s.slot);
  }

  /** Undisturbed, it ends with a client published, or failed and still desired: never direct. */
  lemma LoneEnable(s: Sys, t: Thread, succeeds: bool) returns (s': Sys)
    requires t !in s.threads && s.slotLock.None? && !(s.status == Ready && s.slot)
    ensures Alone(s, t, s') && RouteAt(s', t, Finished, true, if succeeds then Ready else FailedRoute, succeeds)
  {
    hide Alone, RouteAt;
    s' := LoneBootstrap(s, t);
    s' := BootWaitAlone(s, s', t, true, Bootstrapping, s.slot, succeeds);
    if succeeds {
      s' := InstallStepAlone(s, s', t, InstallLock, true, Bootstrapping, s.slot);
      s' := InstallStepAlone(s, s', t, InstallRead, true, Bootstrapping, s.slot);
      s' := InstallStepAlone(s, s', t, InstallPut, true, Bootstrapping, s.slot);
      s' := InstallStepAlone(s, s', t, InstallReady, true, Bootstrapping, true);
    } else {
      s' := FailStepAlone(s, s', t, FailLock, true, Bootstrapping, s.slot);
      s' := FailStepAlone(s, s', t, FailClear, true, Bootstrapping, s.slot);
      s' := FailStepAlone(s, s', t, FailRead, true, Bootstrapping, false);
      s' := FailStepAlone(s, s', t, FailStore, true, Bootstrapping, false);
    }
  }

  /** Giving up an enable fails the route while Tor is desired, and otherwise leaves its status. */
  lemma LoneFail(s: Sys, t: Thread) returns (s': Sys)
    requires t !in s.threads && s.slotLock.None?
    ensures Alone(s, t, s')
    ensures RouteAt(s', t, Finished, s.desired, if s.desired then FailedRoute else s.status, false)
  {
    hide Alone, RouteAt;
    s' := CallsRoute(s, t, FailTorEnable);
    s' := FailStepAlone(s, s', t, FailLock, s.desired, s.status, s.slot);
    s' := FailStepAlone(s, s', t, FailClear, s.desired, s.status, s.slot);
    s' := FailStepAlone(s, s', t, FailRead, s.desired, s.status, false);
    if s.desired {
      s' := FailStepAlone(s, s', t, FailStore, s.desired, s.status, false);
    }
  }

  lemma LoneDisable(s: Sys, t: Thread) returns (s': Sys)
    requires t !in s.threads && s.slotLock.None?
    ensures Alone(s, t, s') && RouteAt(s', t, Finished, false, DirectRoute, false)
  {
    hide Alone, RouteAt;
    s' := CallsRoute(s, t, DisableTor);
    s' := DisableStepAlone(s, s', t, DisableLock, s.desired, s.status, s.slot);
    s' := DisableStepAlone(s, s', t, DisableDesire, s.desired, s.status, s.slot);
    s' := DisableStepAlone(s, s', t, DisableStatus, false, s.status, s.slot);
    s' := DisableStepAlone(s, s', t, DisableClear, false, DirectRoute, s.slot);
  }

  // ----- Leases

  /** The leases and what counts them, with thread `t` at this place of its call. */
  ghost predicate LeasesAt(s: Sys, t: Thread, pc: Pc, leases: map<LeaseId, nat>, nextId: nat, active: int,
                           wakers: set<LeaseId>, s': Sys) {
    && t in s'.threads && s'.threads[t] == pc && s'.wakersLock == s.wakersLock && s'.epoch == s.epoch
    && s'.leases == leases && s'.nextId == nextId && s'.active == active && s'.wakers == wakers
  }

  lemma NewStepAlone(s: Sys, t: Thread, pc: Pc, nextId: nat, active: int, s1: Sys) returns (s2: Sys)
    requires Alone(s, t, s1) && LeasesAt(s, t, pc, s.leases, nextId, active, s.wakers, s1)
    requires pc.LeaseCount? || pc.LeaseNumber? || pc.LeaseEpoch?
    ensures Alone(s, t, s2)
    ensures pc.LeaseCount? ==> LeasesAt(s, t, LeaseNumber, s.leases, nextId, active + 1, s.wakers, s2)
    ensures pc.LeaseNumber? ==> LeasesAt(s, t, LeaseEpoch(nextId), s.leases, nextId + 1, active, s.wakers, s2)
    ensures pc.LeaseEpoch? ==> LeasesAt(s, t, Finished, s.leases[pc.id := s.epoch], nextId, active, s.wakers, s2)
  {
    hide Alone, Run, BeginStep, DisableStep, FailStep, BootStep, InstallStep, PollStep, ReadStep;
    s2 := Step(s1, Advance(t, false, 0)).value;
    Goes(s, s1, t, Advance(t, false, 0), s2);
  }

  lemma DropStepAlone(s: Sys, t: Thread, pc: Pc, leases: map<LeaseId, nat>, wakers: set<LeaseId>, s1: Sys)
    returns (s2: Sys)
    requires Alone(s, t, s1) && LeasesAt(s, t, pc, leases, s.nextId, s.active, wakers, s1) && s.wakersLock.None?
    requires pc.DropRemove? || pc.DropCount?
    ensures Alone(s, t, s2)
    ensures pc.DropRemove? ==> LeasesAt(s, t, DropCount(pc.id), leases, s.nextId, s.active, wakers - {pc.id}, s2)
    ensures pc.DropCount? ==> LeasesAt(s, t, Finished, leases, s.nextId, s.active - 1, wakers, s2)
  {
    hide Alone, Run, BeginStep, DisableStep, FailStep, BootStep, InstallStep, PollStep, ReadStep;
    s2 := Step(s1, Advance(t, false, 0)).value;
    Goes(s, s1, t, Advance(t, false, 0), s2);
  }

  /** An undisturbed creation adds one live lease, with an id of its own and the current epoch, and counts it. */
  lemma LoneLease(s: Sys, t: Thread) returns (s': Sys)
    requires t !in s.threads
    ensures Alone(s, t, s')
    ensures LeasesAt(s, t, Finished, s.leases[s.nextId := s.epoch], s.nextId + 1, s.active + 1, s.wakers, s')
  {
    s' := Calls(s, t, NewLease);
    hide Alone, LeasesAt;
    s' := NewStepAlone(s, t, LeaseCount, s.nextId, s.active, s');
    s' := NewStepAlone(s, t, LeaseNumber, s.nextId, s.active + 1, s');
    s' := NewStepAlone(s, t, LeaseEpoch(s.nextId), s.nextId + 1, s.active + 1, s');
  }

  /** An undisturbed drop removes the lease and its waker, and counts it off. */
  lemma LoneDrop(s: Sys, t: Thread, id: LeaseId) returns (s': Sys)
    requires t !in s.threads && Allowed(s, DropLease(id)) && s.wakersLock.None?
    ensures Alone(s, t, s')
    ensures LeasesAt(s, t, Finished, s.leases - {id}, s.nextId, s.active - 1, s.wakers - {id}, s')
  {
    s' := CallsDrop(s, t, id);
    hide Alone, LeasesAt;
    s' := DropStepAlone(s, t, DropRemove(id), s.leases - {id}, s.wakers, s');
    s' := DropStepAlone(s, t, DropCount(id), s.leases - {id}, s.wakers - {id}, s');
  }

  lemma CallsDrop(s: Sys, t: Thread, id: LeaseId) returns (s': Sys)
    requires t !in s.threads && Allowed(s, DropLease(id))
    ensures Alone(s, t, s') && LeasesAt(s, t, DropRemove(id), s.leases - {id}, s.nextId, s.active, s.wakers, s')
  {
    var events := [Spawn(t, DropLease(id))];
    s' := Step(s, events[0]).value;
    assert events[1..] == [] && OnlyOf(events, t) && Run(s, events) == Some(s');
  }

  // ----- Requesting Tor

  /** The section of `begin_tor_enable`, and what it leaves, with thread `t` at this place of it. */
  ghost predicate BegunAt(s: Sys, t: Thread, pc: Pc, desired: bool, status: RouteStatus, epoch: nat, s': Sys) {
    && t in s'.threads && s'.threads[t] == pc
    && s'.wakersLock == (if HoldsWakers(pc) then Some(t) else None) && s'.slotLock == s.slotLock
    && s'.desired == desired && s'.status == status && s'.epoch == epoch && s'.leases == s.leases
    && s'.wakers == if pc.BeginWake? then {} else s.wakers
  }

  lemma SectionStepAlone(s: Sys, t: Thread, pc: Pc, desired: bool, status: RouteStatus, epoch: nat, s1: Sys)
    returns (s2: Sys)
    requires Alone(s, t, s1) && BegunAt(s, t, pc, desired, status, epoch, s1)
    requires pc.BeginLock? || pc.BeginDesire? || pc.BeginStatus? || pc.BeginEpoch? || pc.BeginDrain?
    ensures Alone(s, t, s2) && s2.woken == s1.woken
    ensures pc.BeginLock? ==> BegunAt(s, t, BeginDesire, desired, status, epoch, s2)
    ensures pc.BeginDesire? ==> BegunAt(s, t, BeginStatus, true, status, epoch, s2)
    ensures pc.BeginStatus? ==> BegunAt(s, t, BeginEpoch, desired, Bootstrapping, epoch, s2)
    ensures pc.BeginEpoch? ==> BegunAt(s, t, BeginDrain, desired, status, epoch + 1, s2)
    ensures pc.BeginDrain? ==> BegunAt(s, t, BeginWake(s.wakers), desired, status, epoch, s2)
  {
    hide Alone, Run, DisableStep, FailStep, BootStep, InstallStep, LeaseStep, PollStep, ReadStep;
    s2 := Step(s1, Advance(t, false, 0)).value;
    Goes(s, s1, t, Advance(t, false, 0), s2);
  }

  lemma WakeStepAlone(s: Sys, t: Thread, pending: set<LeaseId>, epoch: nat, s1: Sys, pick: LeaseId)
    returns (s2: Sys)
    requires Alone(s, t, s1) && BegunAt(s, t, BeginWake(pending), true, Bootstrapping, epoch, s1) && pick in pending
    ensures Alone(s, t, s2) && BegunAt(s, t, BeginWake(pending - {pick}), true, Bootstrapping, epoch, s2)
    ensures s2.woken == s1.woken + {pick}
  {
    hide Alone, Run, DisableStep, FailStep, BootStep, InstallStep, LeaseStep, PollStep, ReadStep;
    s2 := Step(s1, Advance(t, false, pick)).value;
    Goes(s, s1, t, Advance(t, false, pick), s2);
  }

  lemma ClearStepAlone(s: Sys, t: Thread, epoch: nat, s1: Sys) returns (s2: Sys)
    requires s.slotLock.None?
    requires Alone(s, t, s1) && BegunAt(s, t, BeginWake({}), true, Bootstrapping, epoch, s1)
    ensures Alone(s, t, s2) && RouteAt(s2, t, Finished, true, Bootstrapping, false)
    ensures s2.epoch == epoch && s2.wakers == {} && s2.woken == s1.woken
  {
    hide Alone, Run, DisableStep, FailStep, BootStep, InstallStep, LeaseStep, PollStep, ReadStep;
    s2 := Step(s1, Advance(t, false, 0)).value;
    Goes(s, s1, t, Advance(t, false, 0), s2);
  }

  /** Each waker taken over is woken, whatever the order, and then the slot is cleared. */
  lemma {:induction false} WakesAlone(s: Sys, t: Thread, pending: set<LeaseId>, epoch: nat, s1: Sys)
    returns (s2: Sys)
    requires s.slotLock.None?
    requires Alone(s, t, s1) && BegunAt(s, t, BeginWake(pending), true, Bootstrapping, epoch, s1)
    ensures Alone(s, t, s2) && RouteAt(s2, t, Finished, true, Bootstrapping, false)
    ensures s2.epoch == epoch && s2.wakers == {} && s2.woken == s1.woken + pending
    decreases |pending|
  {
    hide Alone, BegunAt, RouteAt;
    if pending == {} {
      s2 := ClearStepAlone(s, t, epoch, s1);
    } else {
      var pick :| pick in pending;
      var next := WakeStepAlone(s, t, pending, epoch, s1, pick);
      s2 := WakesAlone(s, t, pending - {pick}, epoch, next);
      assert {pick} + (pending - {pick}) == pending;
    }
  }

  /**
   * Requesting Tor undisturbed: it is desired and bootstrapping, no client is left,
   * every lease so far is behind the epoch, and every registered waker was woken.
   */
  lemma LoneBegin(s: Sys, t: Thread) returns (s': Sys)
    requires Reachable(s) && t !in s.threads && s.slotLock.None? && s.wakersLock.None?
    ensures Alone(s, t, s') && RouteAt(s', t, Finished, true, Bootstrapping, false)
    ensures forall id :: id in s.leases ==> s.leases[id] < s'.epoch
    ensures s'.wakers == {} && s'.woken == s.woken + s.wakers
  {
    hide Sound, Alone, BegunAt, RouteAt;
    ReachableSound(s);
    LeasesBehind(s);
    s' := CallsBegin(s, t);
    s' := SectionStepAlone(s, t, BeginLock, s.desired, s.status, s.epoch, s');
    s' := SectionStepAlone(s, t, BeginDesire, s.desired, s.status, s.epoch, s');
    s' := SectionStepAlone(s, t, BeginStatus, true, s.status, s.epoch, s');
    s' := SectionStepAlone(s, t, BeginEpoch, true, Bootstrapping, s.epoch, s');
    s' := SectionStepAlone(s, t, BeginDrain, true, Bootstrapping, s.epoch + 1, s');
    s' := WakesAlone(s, t, s.wakers, s.epoch + 1, s');
  }

  lemma LeasesBehind(s: Sys)
    requires Sound(s)
    ensures forall id :: id in s.leases ==> s.leases[id] <= s.epoch
  {
  }

  lemma CallsBegin(s: Sys, t: Thread) returns (s': Sys)
    requires t !in s.threads && s.wakersLock.None?
    ensures Alone(s, t, s') && BegunAt(s, t, BeginLock, s.desired, s.status, s.epoch, s') && s'.woken == s.woken
  {
    s' := Calls(s, t, BeginTorEnable);
  }

  // ----- What a request is given

  /** Which refusal, which client, or none: one of six, for every state of the route. */
  predicate Given(desired: bool, status: RouteStatus, client: bool, isolated: bool, route: Route) {
    && (route == NoClient <==> !desired)
    && (route == Refused(BlockedBootstrapping) <==> desired && status == Bootstrapping)
    && (route == Refused(BlockedFailed) <==> desired && status == FailedRoute)
    && (route == Refused(BlockedUnavailable) <==>
        desired && (status == DirectRoute || (status == Ready && !client)))
    && (route == SharedClient <==> desired && status == Ready && client && !isolated)
    && (route == IsolatedClient <==> desired && status == Ready && client && isolated)
  }

  lemma ReadSlotAlone(s: Sys, s1: Sys, t: Thread, isolated: bool) returns (s2: Sys)
    requires Alone(s, t, s1) && RouteAt(s1, t, ResolveSlot(isolated), s.desired, s.status, s.slot)
    ensures Alone(s, t, s2) && RouteAt(s2, t, ResolveDesired(isolated, s.slot), s.desired, s.status, s.slot)
  {
    hide Alone, Run, BeginStep, DisableStep, FailStep, BootStep, InstallStep, LeaseStep, PollStep;
    s2 := Step(s1, Advance(t, false, 0)).value;
    Goes(s, s1, t, Advance(t, false, 0), s2);
  }

  lemma ReadDesiredAlone(s: Sys, s1: Sys, t: Thread, isolated: bool) returns (s2: Sys)
    requires Alone(s, t, s1) && RouteAt(s1, t, ResolveDesired(isolated, s.slot), s.desired, s.status, s.slot)
    ensures Alone(s, t, s2) && RouteAt(s2, t, ResolveStatus(isolated, s.slot, s.desired), s.desired, s.status, s.slot)
  {
    hide Alone, Run, BeginStep, DisableStep, FailStep, BootStep, InstallStep, LeaseStep, PollStep;
    s2 := Step(s1, Advance(t, false, 0)).value;
    Goes(s, s1, t, Advance(t, false, 0), s2);
  }

  lemma ResolveAlone(s: Sys, s1: Sys, t: Thread, isolated: bool) returns (s2: Sys)
    requires Alone(s, t, s1)
    requires RouteAt(s1, t, ResolveStatus(isolated, s.slot, s.desired), s.desired, s.status, s.slot)
    ensures Alone(s, t, s2) && t in s2.threads && s2.threads[t].Resolved?
    ensures Given(s.desired, s.status, s.slot, isolated, s2.threads[t].route)
  {
    hide Alone, Run, BeginStep, DisableStep, FailStep, BootStep, InstallStep, LeaseStep, PollStep;
    s2 := Step(s1, Advance(t, false, 0)).value;
    Goes(s, s1, t, Advance(t, false, 0), s2);
  }

  /** A request that nobody disturbs is given what the state of the route calls for. */
  lemma LoneResolve(s: Sys, t: Thread, isolated: bool) returns (s': Sys)
    requires t !in s.threads && s.slotLock.None?
    ensures Alone(s, t, s') && t in s'.threads && s'.threads[t].Resolved?
    ensures Given(s.desired, s.status, s.slot, isolated, s'.threads[t].route)
  {
    hide Alone, Given, RouteAt;
    s' := CallsRoute(s, t, ResolveRoute(isolated));
    s' := ReadSlotAlone(s, s', t, isolated);
    s' := ReadDesiredAlone(s, s', t, isolated);
    s' := ResolveAlone(s, s', t, isolated);
  }
}
