/** Waking: what `begin_tor_enable` does for the leases that wait on their connections. */
module TorRouteWakes {
  import opened Common
  import opened TorRoute
  import opened TorRouteTheorems

  // ----- A lease that is woken, or about to be, is behind the epoch

  ghost predicate Called(s: Sys, id: LeaseId) {
    id in s.woken || ToBeWoken(s, id)
  }

  ghost predicate WokenOk(s: Sys) {
    && (forall id :: Called(s, id) ==> id in s.registered)
    && (forall id :: Called(s, id) && id in s.leases ==> s.leases[id] < s.epoch)
    && (Draining(s) ==> forall id :: id in s.wakers && id in s.leases ==> s.leases[id] < s.epoch)
  }

  lemma StartWokenOk()
    ensures WokenOk(START)
  {
  }

  /** A step of a thread that is not waking adds no request to wake. */
  lemma NoNewRequest(s: Sys, s': Sys, t: Thread)
    requires t in s'.threads && s'.threads == s.threads[t := s'.threads[t]] && !s'.threads[t].BeginWake?
    ensures forall id :: ToBeWoken(s', id) ==> ToBeWoken(s, id)
  {
    forall id | ToBeWoken(s', id)
      ensures ToBeWoken(s, id)
    {
      var u :| u in s'.threads && s'.threads[u].BeginWake? && id in s'.threads[u].pending;
      assert u != t && s.threads[u] == s'.threads[u];
    }
  }

  lemma WokenKeep(s: Sys, s': Sys, t: Thread, pc: Pc)
    requires WokenOk(s) && LocksMove(s, s', t, pc) && WakersMove(s, s', t, pc)
    ensures WokenOk(s')
  {
    NoNewRequest(s, s', t);
    assert Draining(s') ==> Draining(s);
  }

  lemma EpochWoken(s: Sys, t: Thread)
    requires Sound(s) && WokenOk(s) && At(s, t, BeginEpoch)
    ensures WokenOk(BeginStep(s, t, BeginEpoch, 0).value)
  {
    hide LocksOk, PollsOk, CountsOk, StatusOk;
    var s' := BeginStep(s, t, BeginEpoch, 0).value;
    NoNewRequest(s, s', t);
    assert !Draining(s);
  }

  lemma DrainWoken(s: Sys, t: Thread)
    requires Sound(s) && WokenOk(s) && At(s, t, BeginDrain)
    ensures WokenOk(BeginStep(s, t, BeginDrain, 0).value)
  {
    hide LocksOk, PollsOk, CountsOk, StatusOk;
    var s' := BeginStep(s, t, BeginDrain, 0).value;
    assert Draining(s);
    forall id | ToBeWoken(s', id)
      ensures ToBeWoken(s, id) || id in s.wakers
    {
      var u :| u in s'.threads && s'.threads[u].BeginWake? && id in s'.threads[u].pending;
      assert u != t ==> s.threads[u] == s'.threads[u];
    }
  }

  lemma WakeWoken(s: Sys, t: Thread, pending: set<LeaseId>, pick: LeaseId)
    requires Sound(s) && WokenOk(s) && At(s, t, BeginWake(pending)) && BeginStep(s, t, BeginWake(pending), pick).Some?
    ensures WokenOk(BeginStep(s, t, BeginWake(pending), pick).value)
  {
    hide LocksOk, PollsOk, CountsOk, StatusOk, WakersOk;
    var s' := BeginStep(s, t, BeginWake(pending), pick).value;
    assert forall id :: id in pending ==> s.threads[t].BeginWake? && id in s.threads[t].pending;
    forall id | Called(s', id)
      ensures Called(s, id)
    {
      if ToBeWoken(s', id) {
        var u :| u in s'.threads && s'.threads[u].BeginWake? && id in s'.threads[u].pending;
        assert u != t ==> s.threads[u] == s'.threads[u];
        assert u in s.threads && s.threads[u].BeginWake? && id in s.threads[u].pending;
      } else if id !in s.woken {
        assert id == pick && id in pending;
      }
    }
    assert Draining(s') ==> Draining(s);
  }

  lemma InsertWoken(s: Sys, t: Thread, id: LeaseId)
    requires Sound(s) && WokenOk(s) && At(s, t, PollInsert(id))
    ensures WokenOk(PollStep(s, t, PollInsert(id)).value)
  {
    hide LocksOk, PollsOk, CountsOk, StatusOk, WakersOk;
    var s' := PollStep(s, t, PollInsert(id)).value;
    NoNewRequest(s, s', t);
    assert !Draining(s');
  }

  lemma LeaseWoken(s: Sys, t: Thread, pc: Pc)
    requires Sound(s) && WokenOk(s) && At(s, t, pc) && LeaseStep(s, t, pc).Some?
    ensures WokenOk(LeaseStep(s, t, pc).value)
  {
    hide LocksOk, PollsOk, CountsOk, StatusOk;
    var s' := LeaseStep(s, t, pc).value;
    NoNewRequest(s, s', t);
    assert Draining(s') ==> Draining(s);
    CountsAt(s, t);
  }

  lemma SpawnWoken(s: Sys, t: Thread, call: Call)
    requires WokenOk(s) && SpawnStep(s, t, call).Some?
    ensures WokenOk(SpawnStep(s, t, call).value)
  {
    hide Allowed;
    var s' := SpawnStep(s, t, call).value;
    NoNewRequest(s, s', t);
    assert Draining(s') ==> Draining(s);
  }

  lemma BeginWoken(s: Sys, t: Thread, pick: LeaseId)
    requires Sound(s) && WokenOk(s) && t in s.threads && BeginStep(s, t, s.threads[t], pick).Some?
    ensures WokenOk(BeginStep(s, t, s.threads[t], pick).value)
  {
    var pc := s.threads[t];
    var s' := BeginStep(s, t, pc, pick).value;
    AtHolds(s, t);
    hide Sound, WokenOk, At, LocksMove, WakersMove;
    if pc.BeginEpoch? {
      EpochWoken(s, t);
    } else if pc.BeginDrain? {
      DrainWoken(s, t);
    } else if pc.BeginWake? {
      WakeWoken(s, t, pc.pending, pick);
    } else {
      BeginMoves(s, t, pc, pick);
      WokenKeep(s, s', t, s'.threads[t]);
    }
  }

  lemma PollWoken(s: Sys, t: Thread)
    requires Sound(s) && WokenOk(s) && t in s.threads && PollStep(s, t, s.threads[t]).Some?
    ensures WokenOk(PollStep(s, t, s.threads[t]).value)
  {
    var pc := s.threads[t];
    var s' := PollStep(s, t, pc).value;
    AtHolds(s, t);
    hide Sound, WokenOk, At, LocksMove, WakersMove;
    if pc.PollInsert? {
      InsertWoken(s, t, pc.id);
    } else {
      PollMoves(s, t, pc);
      WokenKeep(s, s', t, s'.threads[t]);
    }
  }

  lemma WokenKept(s: Sys, e: Event)
    requires Sound(s) && WokenOk(s) && Step(s, e).Some?
    ensures WokenOk(Step(s, e).value)
  {
    hide Sound, WokenOk, At, LocksMove, WakersMove, BeginStep, DisableStep, FailStep, BootStep, InstallStep, LeaseStep,
      PollStep, ReadStep, SpawnStep;
    match e {
      case Spawn(t, call) => SpawnWoken(s, t, call);
      case Advance(t, succeeds, pick) =>
        var pc := s.threads[t];
        var s' := Step(s, e).value;
        AtHolds(s, t);
        match GroupOf(pc) {
          case OfBegin => BeginWoken(s, t, pick);
          case OfPoll => PollWoken(s, t);
          case OfLease => LeaseWoken(s, t, pc);
          case OfDisable =>
            DisableMoves(s, t, pc);
            WokenKeep(s, s', t, s'.threads[t]);
          case OfFail =>
            FailMoves(s, t, pc);
            WokenKeep(s, s', t, s'.threads[t]);
          case OfBoot =>
            BootMoves(s, t, pc, succeeds);
            WokenKeep(s, s', t, s'.threads[t]);
          case OfInstall =>
            InstallMoves(s, t, pc);
            WokenKeep(s, s', t, s'.threads[t]);
          case OfRead =>
            ReadMoves(s, t, pc);
            WokenKeep(s, s', t, s'.threads[t]);
        }
    }
  }

  lemma {:induction false} RunKeepsWoken(s: Sys, events: seq<Event>)
    requires Sound(s) && WokenOk(s) && Run(s, events).Some?
    ensures WokenOk(Run(s, events).value)
    decreases |events|
  {
    hide Sound, WokenOk, Step;
    if events != [] {
      StepKeeps(s, events[0]);
      WokenKept(s, events[0]);
      RunKeepsWoken(Step(s, events[0]).value, events[1..]);
    }
  }

  lemma ReachableWoken(s: Sys)
    requires Reachable(s)
    ensures WokenOk(s)
  {
    hide WokenOk;
    var events :| Run(START, events) == Some(s);
    StartSound();
    StartWokenOk();
    RunKeepsWoken(START, events);
  }

  // ----- From the section to the return

  /** Thread `t` is in its section with the epoch about to move or just moved, and the waker is registered. */
  ghost predicate InSection(s: Sys, t: Thread, id: LeaseId) {
    && t in s.threads && (s.threads[t].BeginEpoch? || s.threads[t].BeginDrain?)
    && s.wakersLock == Some(t) && id in s.wakers
  }

  /** Until it drains them, nobody else touches the wakers; then they are in its own request. */
  lemma SectionKept(s: Sys, e: Event, t: Thread, id: LeaseId)
    requires Sound(s) && InSection(s, t, id) && Step(s, e).Some?
    ensures InSection(Step(s, e).value, t, id) || Handed(Step(s, e).value, t, id)
  {
    var s' := Step(s, e).value;
    if e.Advance? && e.t == t {
      hide Sound;
    } else {
      OthersWait(s, e, t);
    }
  }

  lemma OthersWait(s: Sys, e: Event, t: Thread)
    requires Sound(s) && t in s.threads && s.wakersLock == Some(t) && Step(s, e).Some? && e.t != t
    ensures var s' := Step(s, e).value;
            t in s'.threads && s'.threads[t] == s.threads[t] && s'.wakers == s.wakers && s'.wakersLock == Some(t)
  {
    StepFacts(s, e);
    StepLocks(s, e);
    var u := e.t;
    assert u in s.threads ==> !HoldsWakers(s.threads[u]);
  }

  lemma StepLocks(s: Sys, e: Event)
    requires Sound(s) && Step(s, e).Some?
    ensures var s' := Step(s, e).value; e.t in s'.threads && LocksMove(s, s', e.t, s'.threads[e.t])
  {
    if e.Spawn? {
      assert s.wakersLock != Some(e.t) && s.slotLock != Some(e.t) && (s.sealed ==> s.desired);
      hide Sound, LocksMove, StatusMove, PollsMove, CountsMove, WakersMove;
      SpawnMoves(s, e.t, e.call);
    } else {
      var pc := s.threads[e.t];
      AtHolds(s, e.t);
      hide Sound, At, LocksMove, StatusMove, PollsMove, CountsMove, WakersMove, BeginStep, DisableStep, FailStep,
        BootStep, InstallStep, LeaseStep, PollStep, ReadStep;
      match GroupOf(pc) {
        case OfBegin => BeginMoves(s, e.t, pc, e.pick);
        case OfPoll => PollMoves(s, e.t, pc);
        case OfLease => LeaseMoves(s, e.t, pc);
        case OfDisable => DisableMoves(s, e.t, pc);
        case OfFail => FailMoves(s, e.t, pc);
        case OfBoot => BootMoves(s, e.t, pc, e.succeeds);
        case OfInstall => InstallMoves(s, e.t, pc);
        case OfRead => ReadMoves(s, e.t, pc);
      }
    }
  }

  lemma {:induction false} SectionWakes(s: Sys, t: Thread, events: seq<Event>, id: LeaseId)
    requires Sound(s) && (InSection(s, t, id) || Handed(s, t, id)) && Run(s, events).Some?
    ensures var s' := Run(s, events).value; t in s'.threads && s'.threads[t].Finished? ==> id in s'.woken
    decreases |events|
  {
    if events != [] {
      hide Sound, Step, InSection, Handed;
      StepKeeps(s, events[0]);
      if InSection(s, t, id) {
        SectionKept(s, events[0], t, id);
      } else {
        HandedKept(s, events[0], t, id);
      }
      SectionWakes(Step(s, events[0]).value, t, events[1..], id);
    }
  }

  /**
   * Every polled lease is woken: when `begin_tor_enable` returns, each lease that
   * was live, current and had polled when the epoch was about to move has been
   * woken, in every interleaving, even if it is being dropped meanwhile.
   */
  lemma BeginWakesEveryPolledLease(s: Sys, t: Thread, events: seq<Event>, id: LeaseId)
    requires Reachable(s) && t in s.threads && s.threads[t].BeginEpoch?
    requires id in s.leases && s.leases[id] == s.epoch && id in s.registered
    requires Run(s, events).Some?
    ensures var s' := Run(s, events).value; t in s'.threads && s'.threads[t].Finished? ==> id in s'.woken
  {
    ReachableSound(s);
    ReachableWoken(s);
    CurrentIsRegistered(s, t, id);
    hide Sound;
    SectionWakes(s, t, events, id);
  }

  lemma CurrentIsRegistered(s: Sys, t: Thread, id: LeaseId)
    requires Sound(s) && WokenOk(s) && t in s.threads && s.threads[t].BeginEpoch?
    requires id in s.leases && s.leases[id] == s.epoch && id in s.registered
    ensures InSection(s, t, id)
  {
    hide PollsOk, CountsOk, StatusOk;
    assert !Called(s, id);
  }
}
