/** What the route policy promises over whole runs of the concurrent system. */
module TorRouteTheorems {
  import opened Common
  import opened TorRoute

  // ----- What every step leaves in place

  /** Facts about one step of thread `t`, without a look at the other threads. */
  ghost predicate Facts(s: Sys, s': Sys, t: Thread) {
    && t in s'.threads && s'.threads == s.threads[t := s'.threads[t]]
    && s'.nextId >= s.nextId && s'.epoch >= s.epoch && s'.restored >= s.restored
    && (s'.threads[t].LeaseEpoch? ==> s'.threads[t].id >= s.nextId)
    && (s.sealed && s'.restored == s.restored ==> s'.sealed)
    && s.woken <= s'.woken && s.registered <= s'.registered
    && (s'.wakers != s.wakers ==>
          t in s.threads && (s.threads[t].BeginDrain? || s.threads[t].PollInsert? || s.wakersLock.None?))
  }

  /** What becomes of the values a thread carries. */
  ghost predicate Carries(s: Sys, s': Sys, pc: Pc, pc': Pc) {
    && (pc.LeaseEpoch? ==> s'.leases == s.leases[pc.id := s.epoch])
    && (!pc.LeaseEpoch? ==> s'.leases == s.leases)
    && (s'.inner != s.inner ==> pc.PollInner?)
    && (pc.BeginWake? && pc.pending != {} ==> pc'.BeginWake? && pc.pending <= pc'.pending + s'.woken)
    && (pc.ResolveSlot? ==> pc'.ResolveDesired?)
    && (pc.ResolveDesired? ==> pc'.ResolveStatus? && pc'.desired == s.desired)
    && (pc.ResolveStatus? ==> pc' == Resolved(RouteOf(pc.desired, s.status, pc.client, pc.isolated)))
    && !pc.Resolved?
  }

  lemma BeginFacts(s: Sys, t: Thread, pc: Pc, pick: LeaseId)
    requires t in s.threads && s.threads[t] == pc && BeginStep(s, t, pc, pick).Some?
    ensures var s' := BeginStep(s, t, pc, pick).value; Facts(s, s', t) && Carries(s, s', pc, s'.threads[t])
  {
  }

  lemma DisableFacts(s: Sys, t: Thread, pc: Pc)
    requires t in s.threads && s.threads[t] == pc && DisableStep(s, t, pc).Some?
    ensures var s' := DisableStep(s, t, pc).value; Facts(s, s', t) && Carries(s, s', pc, s'.threads[t])
  {
  }

  lemma FailFacts(s: Sys, t: Thread, pc: Pc)
    requires t in s.threads && s.threads[t] == pc && FailStep(s, t, pc).Some?
    ensures var s' := FailStep(s, t, pc).value; Facts(s, s', t) && Carries(s, s', pc, s'.threads[t])
  {
  }

  lemma BootFacts(s: Sys, t: Thread, pc: Pc, succeeds: bool)
    requires t in s.threads && s.threads[t] == pc && BootStep(s, t, pc, succeeds).Some?
    ensures var s' := BootStep(s, t, pc, succeeds).value; Facts(s, s', t) && Carries(s, s', pc, s'.threads[t])
  {
  }

  lemma InstallFacts(s: Sys, t: Thread, pc: Pc)
    requires t in s.threads && s.threads[t] == pc && InstallStep(s, t, pc).Some?
    ensures var s' := InstallStep(s, t, pc).value; Facts(s, s', t) && Carries(s, s', pc, s'.threads[t])
  {
  }

  lemma LeaseFacts(s: Sys, t: Thread, pc: Pc)
    requires t in s.threads && s.threads[t] == pc && LeaseStep(s, t, pc).Some?
    ensures var s' := LeaseStep(s, t, pc).value; Facts(s, s', t) && Carries(s, s', pc, s'.threads[t])
  {
  }

  lemma PollFacts(s: Sys, t: Thread, pc: Pc)
    requires t in s.threads && s.threads[t] == pc && PollStep(s, t, pc).Some?
    ensures var s' := PollStep(s, t, pc).value; Facts(s, s', t) && Carries(s, s', pc, s'.threads[t])
  {
  }

  lemma ReadFacts(s: Sys, t: Thread, pc: Pc)
    requires t in s.threads && s.threads[t] == pc && ReadStep(s, t, pc).Some?
    ensures var s' := ReadStep(s, t, pc).value; Facts(s, s', t) && Carries(s, s', pc, s'.threads[t])
  {
    hide RouteOf;
  }

  lemma SpawnFacts(s: Sys, t: Thread, call: Call)
    requires SpawnStep(s, t, call).Some?
    ensures var s' := SpawnStep(s, t, call).value;
            && t !in s.threads && Facts(s, s', t) && s'.inner == s.inner
            && forall id :: id in s'.leases ==> id in s.leases && s'.leases[id] == s.leases[id]
  {
    hide Allowed;
  }

  lemma StepFacts(s: Sys, e: Event)
    requires Step(s, e).Some?
    ensures Facts(s, Step(s, e).value, e.t)
    ensures e.Advance? ==> e.t in s.threads && Carries(s, Step(s, e).value, s.threads[e.t],
                                                       Step(s, e).value.threads[e.t])
    ensures e.Spawn? ==>
              && e.t !in s.threads && Step(s, e).value.inner == s.inner
              && forall id :: id in Step(s, e).value.leases ==>
                    id in s.leases && Step(s, e).value.leases[id] == s.leases[id]
  {
    hide Carries, BeginStep, DisableStep, FailStep, BootStep, InstallStep, LeaseStep, PollStep, ReadStep, SpawnStep;
    match e {
      case Spawn(t, call) => SpawnFacts(s, t, call);
      case Advance(t, succeeds, pick) =>
        var pc := s.threads[t];
        match GroupOf(pc) {
          case OfBegin => BeginFacts(s, t, pc, pick);
          case OfDisable => DisableFacts(s, t, pc);
          case OfFail => FailFacts(s, t, pc);
          case OfBoot => BootFacts(s, t, pc, succeeds);
          case OfInstall => InstallFacts(s, t, pc);
          case OfLease => LeaseFacts(s, t, pc);
          case OfPoll => PollFacts(s, t, pc);
          case OfRead => ReadFacts(s, t, pc);
        }
    }
  }

  // ----- The cut-off

  lemma PollInnerOk(s: Sys, t: Thread)
    requires Sound(s) && t in s.threads && s.threads[t].PollInner?
    ensures !s.sealed && s.threads[t].id in s.leases && s.leases[s.threads[t].id] == s.epoch
  {
    assert PollOk(s, s.threads[t]);
  }

  /** An inner poll is made only by a live lease of the current epoch, and never while a Tor request stands. */
  lemma InnerPollIsDirect(s: Sys, e: Event) returns (id: LeaseId)
    requires Sound(s) && Step(s, e).Some? && Step(s, e).value.inner != s.inner
    ensures !s.sealed && id in s.leases && s.leases[id] == s.epoch && Step(s, e).value.inner == s.inner + [id]
  {
    hide Sound, Step;
    StepFacts(s, e);
    PollInnerOk(s, e.t);
    PollInnerStep(s, e);
    id := s.threads[e.t].id;
  }

  lemma PollInnerStep(s: Sys, e: Event)
    requires e.Advance? && e.t in s.threads && s.threads[e.t].PollInner?
    ensures Step(s, e).Some? && Step(s, e).value.inner == s.inner + [s.threads[e.t].id]
  {
  }

  /** How many inner polls a lease has made. */
  ghost function InnerPolls(s: Sys, id: LeaseId): nat {
    multiset(s.inner)[id]
  }

  /** The lease id was given out, and its lease, if it still lives, read an earlier epoch. */
  ghost predicate Cut(s: Sys, id: LeaseId) {
    && id < s.nextId
    && (id in s.leases ==> s.leases[id] < s.epoch)
    && (forall t :: t in s.threads ==> s.threads[t] != LeaseEpoch(id))
  }

  lemma CutKept(s: Sys, e: Event, id: LeaseId)
    requires Sound(s) && Cut(s, id) && Step(s, e).Some?
    ensures Cut(Step(s, e).value, id)
    ensures InnerPolls(Step(s, e).value, id) == InnerPolls(s, id)
  {
    var s' := Step(s, e).value;
    hide Sound, Step;
    StepFacts(s, e);
    if s'.inner != s.inner {
      var polled := InnerPollIsDirect(s, e);
    }
  }

  lemma {:induction false} CutLeaseNeverPolls(s: Sys, events: seq<Event>, id: LeaseId)
    requires Sound(s) && Cut(s, id) && Run(s, events).Some?
    ensures InnerPolls(Run(s, events).value, id) == InnerPolls(s, id)
    decreases |events|
  {
    hide Sound, Cut, Step, InnerPolls;
    if events != [] {
      StepKeeps(s, events[0]);
      CutKept(s, events[0], id);
      CutLeaseNeverPolls(Step(s, events[0]).value, events[1..], id);
    }
  }

  /**
   * The cut-off: once `begin_tor_enable` has moved the epoch, no lease that read
   * the epoch before runs its inner poll again, in any interleaving and however
   * often direct routing is restored later.
   */
  lemma BeginCutsOffEveryLease(s: Sys, t: Thread, events: seq<Event>, id: LeaseId)
    requires Sound(s) && t in s.threads && s.threads[t].BeginEpoch? && id in s.leases
    requires Run(Step(s, Advance(t, false, 0)).value, events).Some?
    ensures var s' := Run(Step(s, Advance(t, false, 0)).value, events).value;
            InnerPolls(s', id) == InnerPolls(s, id)
  {
    var s1 := Step(s, Advance(t, false, 0)).value;
    LeasedIds(s, id);
    hide Sound, Step;
    StepKeeps(s, Advance(t, false, 0));
    EpochMoved(s, t);
    CutLeaseNeverPolls(s1, events, id);
  }

  lemma LeasedIds(s: Sys, id: LeaseId)
    requires Sound(s) && id in s.leases
    ensures id < s.nextId && s.leases[id] <= s.epoch
    ensures forall t :: t in s.threads ==> s.threads[t] != LeaseEpoch(id)
  {
    assert id in s.counted;
    assert forall t :: t in s.threads && s.threads[t].LeaseEpoch? ==> Owned(s.threads[t]) == Some(s.threads[t].id);
  }

  lemma EpochMoved(s: Sys, t: Thread)
    requires t in s.threads && s.threads[t].BeginEpoch?
    ensures Step(s, Advance(t, false, 0))
            == Some(s.(threads := s.threads[t := BeginDrain], epoch := s.epoch + 1))
  {
  }

  lemma SealedKept(s: Sys, e: Event)
    requires Sound(s) && Step(s, e).Some?
    ensures var s' := Step(s, e).value;
            && s'.restored >= s.restored
            && (s.sealed && s'.restored == s.restored ==> s'.sealed && s'.inner == s.inner)
  {
    var s' := Step(s, e).value;
    hide Sound, Step;
    StepFacts(s, e);
    if s'.inner != s.inner {
      var polled := InnerPollIsDirect(s, e);
    }
  }

  /** From the Tor request until direct routing is next restored, no lease at all runs its inner poll. */
  lemma {:induction false} NoDirectPollUntilRestored(s: Sys, events: seq<Event>)
    requires Sound(s) && Run(s, events).Some?
    ensures var s' := Run(s, events).value;
            && s'.restored >= s.restored
            && (s.sealed && s'.restored == s.restored ==> s'.sealed && s'.desired && s'.inner == s.inner)
    decreases |events|
  {
    if events != [] {
      hide Sound, Step;
      StepKeeps(s, events[0]);
      SealedKept(s, events[0]);
      NoDirectPollUntilRestored(Step(s, events[0]).value, events[1..]);
    }
  }

  // ----- Waking

  /** A live lease that registered and fell behind has been woken, or its waker is in a request being carried out. */
  lemma StaleLeaseIsWoken(s: Sys, id: LeaseId)
    requires Sound(s) && id in s.leases && id in s.registered && s.leases[id] < s.epoch && !Draining(s)
    ensures id in s.woken || ToBeWoken(s, id)
  {
  }

  ghost predicate Handed(s: Sys, t: Thread, id: LeaseId) {
    id in s.woken || (t in s.threads && s.threads[t].BeginWake? && id in s.threads[t].pending)
  }

  lemma HandedKept(s: Sys, e: Event, t: Thread, id: LeaseId)
    requires Handed(s, t, id) && Step(s, e).Some?
    ensures Handed(Step(s, e).value, t, id)
  {
    hide Step;
    StepFacts(s, e);
  }

  // ----- Draining

  /** A drain that sees zero sees no live lease, and none half created or half dropped. */
  lemma DrainSeesNoLease(s: Sys, t: Thread, succeeds: bool, pick: LeaseId)
    requires Sound(s) && t in s.threads && s.threads[t].DrainRead?
    requires Step(s, Advance(t, succeeds, pick)).value.threads[t].Drained?
    ensures s.leases == map[]
    ensures forall u :: u in s.threads ==> !s.threads[u].LeaseNumber? && Owned(s.threads[u]).None?
  {
    assert s.active == 0;
    assert |s.starting| == 0 && |s.counted| == 0;
    assert s.starting == {} && s.counted == {};
    assert forall id :: id !in s.leases;
    forall u | u in s.threads
      ensures !s.threads[u].LeaseNumber? && Owned(s.threads[u]).None?
    {
      assert u !in s.starting;
    }
  }

  // ----- Failing closed

  /** A resolution yields no client exactly when it read that Tor is not desired. */
  lemma NoClientExactly(desired: bool, status: RouteStatus, hasClient: bool, isolated: bool)
    ensures RouteOf(desired, status, hasClient, isolated).NoClient? <==> !desired
    ensures RouteOf(desired, status, hasClient, isolated).SharedClient?
            || RouteOf(desired, status, hasClient, isolated).IsolatedClient?
            <==> desired && status == Ready && hasClient
  {
  }

  /** The resolution of `t` is under way and has not read that Tor is not desired. */
  ghost predicate Closed(s: Sys, t: Thread) {
    && t in s.threads
    && (s.threads[t].ResolveSlot? || s.threads[t].ResolveDesired?
        || (s.threads[t].ResolveStatus? && s.threads[t].desired)
        || (s.threads[t].Resolved? && !s.threads[t].route.NoClient?))
  }

  lemma ClosedKept(s: Sys, e: Event, t: Thread)
    requires Closed(s, t) && s.desired && Step(s, e).Some?
    ensures Closed(Step(s, e).value, t)
  {
    hide Step, RouteOf;
    StepFacts(s, e);
    if e.t == t && s.threads[t].ResolveStatus? {
      var pc := s.threads[t];
      NoClientExactly(pc.desired, s.status, pc.client, pc.isolated);
    }
  }

  /** A call that lies wholly between the Tor request and the next restoration is never told to go direct. */
  lemma {:induction false} ResolutionFailsClosed(s: Sys, t: Thread, events: seq<Event>)
    requires Sound(s) && s.sealed && Closed(s, t) && Run(s, events).Some?
    requires Run(s, events).value.restored == s.restored
    ensures Closed(Run(s, events).value, t)
    ensures Run(s, events).value.threads[t] != Resolved(NoClient)
    decreases |events|
  {
    if events != [] {
      assert s.desired;
      var s1 := Step(s, events[0]).value;
      hide Sound, Step, Closed;
      StepKeeps(s, events[0]);
      SealedKept(s, events[0]);
      ClosedKept(s, events[0], t);
      NoDirectPollUntilRestored(s1, events[1..]);
      ResolutionFailsClosed(s1, t, events[1..]);
    }
  }

  /** With the slot lock free, a ready status means that Tor is desired. */
  lemma ReadyMeansDesired(s: Sys)
    requires Reachable(s) && s.status == Ready && s.slotLock.None?
    ensures s.desired
  {
    ReachableSound(s);
  }

  // ----- A ready status and its client

  /** A ready status comes with a client, whenever the slot lock is free; and what the lock's holders rely on for it. */
  ghost predicate ClientOk(s: Sys) {
    && (s.status == Ready && s.slotLock.None? ==> s.slot)
    && (forall t :: t in s.threads && s.threads[t].InstallReady? ==> s.slot)
    && (forall t :: t in s.threads && s.threads[t].DisableClear? ==> s.status != Ready)
  }

  /** `begin_tor_enable` clears the slot after a bootstrap was published behind its section. */
  ghost predicate ClearsReady(s: Sys, e: Event) {
    e.Advance? && e.t in s.threads && s.threads[e.t] == BeginWake({}) && s.status == Ready
  }

  ghost predicate ClientMove(s: Sys, s': Sys, t: Thread, pc: Pc) {
    && s'.threads == s.threads[t := pc]
    && (s'.status == Ready && s'.slotLock.None? ==> s'.slot)
    && (pc.InstallReady? ==> s'.slot) && (pc.DisableClear? ==> s'.status != Ready)
    && (s.slot && !s'.slot ==> s.slotLock == Some(t) || s.slotLock.None?)
    && (s'.status == Ready && s.status != Ready ==> s.slotLock == Some(t))
  }

  lemma ClientKeep(s: Sys, s': Sys, t: Thread, pc: Pc)
    requires LocksOk(s) && ClientOk(s) && ClientMove(s, s', t, pc)
    ensures ClientOk(s')
  {
    assert forall u :: u in s.threads && (s.threads[u].InstallReady? || s.threads[u].DisableClear?) ==>
             HoldsSlot(s.threads[u]);
  }

  /** What the acting thread knows about the slot and the status. */
  ghost predicate ClientAt(s: Sys, t: Thread, pc: Pc) {
    && At(s, t, pc)
    && (s.status == Ready && s.slotLock.None? ==> s.slot)
    && (pc.InstallReady? ==> s.slot) && (pc.DisableClear? ==> s.status != Ready)
    && (s.status == Ready && !s.desired && s.slotLock == Some(t) ==> pc.DisableStatus?)
  }

  lemma BeginClient(s: Sys, t: Thread, pc: Pc, pick: LeaseId)
    requires ClientAt(s, t, pc) && BeginStep(s, t, pc, pick).Some? && !(pc == BeginWake({}) && s.status == Ready)
    ensures var s' := BeginStep(s, t, pc, pick).value; t in s'.threads && ClientMove(s, s', t, s'.threads[t])
  {
  }

  lemma DisableClient(s: Sys, t: Thread, pc: Pc)
    requires ClientAt(s, t, pc) && DisableStep(s, t, pc).Some?
    ensures var s' := DisableStep(s, t, pc).value; t in s'.threads && ClientMove(s, s', t, s'.threads[t])
  {
  }

  lemma FailClient(s: Sys, t: Thread, pc: Pc)
    requires ClientAt(s, t, pc) && FailStep(s, t, pc).Some?
    ensures var s' := FailStep(s, t, pc).value; t in s'.threads && ClientMove(s, s', t, s'.threads[t])
  {
  }

  lemma BootClient(s: Sys, t: Thread, pc: Pc, succeeds: bool)
    requires ClientAt(s, t, pc) && BootStep(s, t, pc, succeeds).Some?
    ensures var s' := BootStep(s, t, pc, succeeds).value; t in s'.threads && ClientMove(s, s', t, s'.threads[t])
  {
  }

  lemma InstallClient(s: Sys, t: Thread, pc: Pc)
    requires ClientAt(s, t, pc) && InstallStep(s, t, pc).Some?
    ensures var s' := InstallStep(s, t, pc).value; t in s'.threads && ClientMove(s, s', t, s'.threads[t])
  {
  }

  lemma LeaseClient(s: Sys, t: Thread, pc: Pc)
    requires ClientAt(s, t, pc) && LeaseStep(s, t, pc).Some?
    ensures var s' := LeaseStep(s, t, pc).value; t in s'.threads && ClientMove(s, s', t, s'.threads[t])
  {
  }

  lemma PollClient(s: Sys, t: Thread, pc: Pc)
    requires ClientAt(s, t, pc) && PollStep(s, t, pc).Some?
    ensures var s' := PollStep(s, t, pc).value; t in s'.threads && ClientMove(s, s', t, s'.threads[t])
  {
  }

  lemma ReadClient(s: Sys, t: Thread, pc: Pc)
    requires ClientAt(s, t, pc) && ReadStep(s, t, pc).Some?
    ensures var s' := ReadStep(s, t, pc).value; t in s'.threads && ClientMove(s, s', t, s'.threads[t])
  {
    hide RouteOf;
  }

  lemma SpawnClient(s: Sys, t: Thread, call: Call)
    requires SpawnStep(s, t, call).Some? && (s.status == Ready && s.slotLock.None? ==> s.slot)
    ensures var s' := SpawnStep(s, t, call).value; t in s'.threads && ClientMove(s, s', t, s'.threads[t])
  {
    hide Allowed;
  }

  lemma ClientAtHolds(s: Sys, t: Thread)
    requires Sound(s) && ClientOk(s) && t in s.threads
    ensures ClientAt(s, t, s.threads[t])
  {
    hide LocksOk, PollsOk, CountsOk, WakersOk, Sound;
    AtHolds(s, t);
    StatusOf(s);
  }

  lemma StatusOf(s: Sys)
    requires Sound(s)
    ensures StatusOk(s) && LocksOk(s)
  {
  }

  lemma ClientKept(s: Sys, e: Event)
    requires Sound(s) && ClientOk(s) && Step(s, e).Some? && !ClearsReady(s, e)
    ensures ClientOk(Step(s, e).value)
  {
    assert s.status == Ready && s.slotLock.None? ==> s.slot;
    hide Sound, LocksOk, StatusOk, ClientOk, ClientAt, ClientMove, BeginStep, DisableStep, FailStep, BootStep,
        InstallStep, LeaseStep, PollStep, ReadStep, SpawnStep;
    var s' := Step(s, e).value;
    StatusOf(s);
    match e {
      case Spawn(t, call) => SpawnClient(s, t, call);
      case Advance(t, succeeds, pick) =>
        var pc := s.threads[t];
        ClientAtHolds(s, t);
        match GroupOf(pc) {
          case OfBegin => BeginClient(s, t, pc, pick);
          case OfDisable => DisableClient(s, t, pc);
          case OfFail => FailClient(s, t, pc);
          case OfBoot => BootClient(s, t, pc, succeeds);
          case OfInstall => InstallClient(s, t, pc);
          case OfLease => LeaseClient(s, t, pc);
          case OfPoll => PollClient(s, t, pc);
          case OfRead => ReadClient(s, t, pc);
        }
    }
    ClientKeep(s, s', e.t, s'.threads[e.t]);
  }

  /** Exactly one step leaves a ready status without a client: the late clearing by `begin_tor_enable`. */
  lemma ReadyKeepsItsClientExactly(s: Sys, e: Event)
    requires Sound(s) && ClientOk(s) && Step(s, e).Some?
    ensures ClientOk(Step(s, e).value) <==> !ClearsReady(s, e)
  {
    hide Sound;
    if ClearsReady(s, e) {
      LateClear(s, e);
    } else {
      hide ClientOk, Step;
      ClientKept(s, e);
    }
  }

  lemma LateClear(s: Sys, e: Event)
    requires ClearsReady(s, e) && Step(s, e).Some?
    ensures Step(s, e).value == s.(threads := s.threads[e.t := Finished], slot := false) && s.slotLock.None?
  {
  }

  // ----- The late clearing happens

  lemma {:induction false} RunAppend(s: Sys, events: seq<Event>, e: Event)
    requires Run(s, events).Some?
    ensures Run(s, events + [e]) == Step(Run(s, events).value, e)
    decreases |events|
  {
    if events == [] {
      assert events + [e] == [e];
      assert [e][1..] == [];
    } else {
      RunAppend(Step(s, events[0]).value, events[1..], e);
      assert (events + [e])[1..] == events[1..] + [e];
    }
  }

  lemma Reaches(s: Sys, e: Event) returns (s': Sys)
    requires Reachable(s) && Step(s, e).Some?
    ensures Step(s, e) == Some(s') && Reachable(s')
  {
    s' := Step(s, e).value;
    var events :| Run(START, events) == Some(s);
    RunAppend(START, events, e);
    assert Run(START, events + [e]) == Some(s');
  }

  /** Both threads of the example, with no lock held. */
  ghost predicate Both(s: Sys, boot: Pc, begin: Pc) {
    1 in s.threads && 2 in s.threads && s.threads[1] == boot && s.threads[2] == begin && s.slotLock.None?
        && s.wakersLock.None?
  }

  lemma EnablingReachable() returns (s: Sys)
    ensures Reachable(s) && s == START.(desired := true, threads := START.threads[1 := EnableDesire][1 := BootDesired])
  {
    hide Reachable, LeaseStep, PollStep, ReadStep, BeginStep, DisableStep, FailStep, InstallStep;
    assert Reachable(START) by { StartReachable(); }
    s := Reaches(START, Spawn(1, EnableTor));
    s := Reaches(s, Advance(1, true, 0));
  }

  /** A bootstrap at its slow part, and a second request for Tor about to begin. */
  lemma BootingReachable() returns (s: Sys)
    ensures Reachable(s) && Both(s, BootWait, BeginLock) && s.wakers == {}
  {
    hide Reachable, LeaseStep, PollStep, ReadStep, BeginStep, DisableStep, FailStep, InstallStep;
    var e := Advance(1, true, 0);
    s := EnablingReachable();
    s := Reaches(s, e);
    assert s.threads[1] == BootStatus && s.status == DirectRoute;
    s := Reaches(s, e);
    s := Reaches(s, e);
    s := Reaches(s, Spawn(2, BeginTorEnable));
  }

  lemma StartReachable()
    ensures Reachable(START)
  {
    assert Run(START, []) == Some(START);
  }

  lemma SectionReachable() returns (s: Sys)
    ensures Reachable(s) && 1 in s.threads && 2 in s.threads && s.threads[1] == BootWait && s.threads[2] == BeginEpoch
    ensures s.wakersLock == Some(2) && s.slotLock.None? && s.desired && s.wakers == {}
  {
    hide Reachable, LeaseStep, PollStep, ReadStep, BootStep, DisableStep, FailStep, InstallStep;
    var e := Advance(2, true, 0);
    s := BootingReachable();
    s := Reaches(s, e);
    s := Reaches(s, e);
    s := Reaches(s, e);
  }

  /** The second request is past its section, but has not cleared the slot yet. */
  lemma RequestedAgainReachable() returns (s: Sys)
    ensures Reachable(s) && Both(s, BootWait, BeginWake({})) && s.desired
  {
    hide Reachable, LeaseStep, PollStep, ReadStep, BootStep, DisableStep, FailStep, InstallStep;
    var e := Advance(2, true, 0);
    s := SectionReachable();
    s := Reaches(s, e);
    s := Reaches(s, e);
  }

  /** The bootstrap has found Tor desired and holds the slot lock. */
  lemma InstallingReachable() returns (s: Sys)
    ensures Reachable(s) && 1 in s.threads && 2 in s.threads && s.threads[1] == InstallPut
            && s.threads[2] == BeginWake({})
    ensures s.slotLock == Some(1) && s.desired
  {
    hide Reachable, LeaseStep, PollStep, ReadStep, BeginStep, DisableStep, FailStep;
    var e := Advance(1, true, 0);
    s := RequestedAgainReachable();
    s := Reaches(s, e);
    s := Reaches(s, e);
    s := Reaches(s, e);
  }

  /** The bootstrap has published its client; the second request has yet to clear the slot. */
  lemma PublishedReachable() returns (s: Sys)
    ensures Reachable(s) && 2 in s.threads && s.threads[2] == BeginWake({})
    ensures s.status == Ready && s.slotLock.None? && s.desired
  {
    hide Reachable, LeaseStep, PollStep, ReadStep, BeginStep, BootStep, DisableStep, FailStep;
    s := InstallingReachable();
    s := Reaches(s, Advance(1, true, 0));
    s := Reaches(s, Advance(1, true, 0));
  }

  /**
   * Ready without a client is reachable: the bootstrap publishes its client
   * between the section of `begin_tor_enable` and its clearing of the slot.
   * Requests are then refused as unavailable, never sent direct.
   */
  lemma ReadyWithoutClientIsReachable() returns (s: Sys)
    ensures Reachable(s) && s.status == Ready && !s.slot && s.slotLock.None? && s.desired
    ensures forall isolated :: RouteOf(s.desired, s.status, s.slot, isolated) == Refused(BlockedUnavailable)
  {
    hide Reachable, LeaseStep, PollStep, ReadStep, BootStep, InstallStep, DisableStep, FailStep;
    s := PublishedReachable();
    s := Reaches(s, Advance(2, true, 0));
  }
}
