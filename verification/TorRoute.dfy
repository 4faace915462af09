/**
 * The process-wide network route policy as a concurrent system. Every atomic
 * load or store, every lock acquisition and every update made under a lock is
 * one step; steps of any number of threads interleave freely.
 */
module TorRoute {
  import opened Common

  // ----- The route decision

  datatype RouteStatus = DirectRoute | Bootstrapping | Ready | FailedRoute

  datatype RouteBlocked = BlockedBootstrapping | BlockedFailed | BlockedUnavailable

  datatype RouteDecision = Direct | TorShared | TorIsolated

  function Decide(desired: bool, status: RouteStatus, hasClient: bool, isolated: bool): (r: Result<RouteDecision,
            RouteBlocked>) {
    if !desired then Ok(Direct)
    else if status != Ready || !hasClient then
      Err(match status
          case Bootstrapping => BlockedBootstrapping
          case FailedRoute => BlockedFailed
          case _ => BlockedUnavailable)
    else Ok(if isolated then TorIsolated else TorShared)
  }

  /** What a request is given: no client (go direct), the shared or an isolated client, or a refusal. */
  datatype Route = NoClient | SharedClient | IsolatedClient | Refused(why: RouteBlocked)

  function RouteOf(desired: bool, status: RouteStatus, hasClient: bool, isolated: bool): Route {
    match Decide(desired, status, hasClient, isolated)
    case Err(e) => Refused(e)
    case Ok(Direct) => NoClient
    case Ok(TorShared) => SharedClient
    case Ok(TorIsolated) => IsolatedClient
  }

  // ----- Threads

  type Thread = nat
  type LeaseId = nat

  /** Where a thread is: each value names the step it takes next. */
  datatype Pc =
    // begin_tor_enable: a section under the waker lock, then the wakes, then the slot
    | BeginLock | BeginDesire | BeginStatus | BeginEpoch | BeginDrain | BeginWake(pending: set<LeaseId>)
    // disable_tor, all under the slot lock
    | DisableLock | DisableDesire | DisableStatus | DisableClear
    // set_tor_failed, all under the slot lock
    | FailLock | FailClear | FailRead | FailStore
    // enable_tor and bootstrap_tor
    | EnableDesire | BootDesired | BootStatus | BootSlot | BootMark | BootWait
    // the publication of a finished bootstrap, under the slot lock
    | InstallLock | InstallRead | InstallPut | InstallReady
    // DirectRouteLease::new
    | LeaseCount | LeaseNumber | LeaseEpoch(id: LeaseId)
    // DirectRouteLease::poll, under the waker lock
    | PollLock(id: LeaseId) | PollDesired(id: LeaseId) | PollEpoch(id: LeaseId)
    | PollInsert(id: LeaseId) | PollInner(id: LeaseId)
    // DirectRouteLease::drop
    | DropRemove(id: LeaseId) | DropCount(id: LeaseId)
    // try_tor_client_for_route
    | ResolveSlot(isolated: bool) | ResolveDesired(isolated: bool, client: bool) | ResolveStatus(isolated: bool,
              client: bool, desired: bool)
    // one look at the counter by wait_for_direct_connections_to_close
    | DrainRead
    | Resolved(route: Route)
    | Drained
    | Finished

  predicate HoldsWakers(pc: Pc) {
    || pc.BeginDesire? || pc.BeginStatus? || pc.BeginEpoch? || pc.BeginDrain?
    || pc.PollDesired? || pc.PollEpoch? || pc.PollInsert? || pc.PollInner?
  }

  predicate HoldsSlot(pc: Pc) {
    || pc.DisableDesire? || pc.DisableStatus? || pc.DisableClear?
    || pc.FailClear? || pc.FailRead? || pc.FailStore?
    || pc.InstallRead? || pc.InstallPut? || pc.InstallReady?
  }

  /** The lease id that a thread owns while it creates or drops the lease. */
  function Owned(pc: Pc): Option<LeaseId> {
    match pc
    case LeaseEpoch(id) => Some(id)
    case DropRemove(id) => Some(id)
    case DropCount(id) => Some(id)
    case _ => None
  }

  /** The live lease that a thread is polling. */
  function Polling(pc: Pc): Option<LeaseId> {
    match pc
    case PollLock(id) => Some(id)
    case PollDesired(id) => Some(id)
    case PollEpoch(id) => Some(id)
    case PollInsert(id) => Some(id)
    case PollInner(id) => Some(id)
    case _ => None
  }

  // ----- The system

  /**
   * The first group of fields is the process state; `leases` maps each live
   * lease to the epoch it read. The second group is history: threads counted
   * before their lease has an id and ids counted in `active`; ids that ever
   * registered a waker; ids woken; the inner polls made, in order; whether Tor
   * was requested since direct routing was last restored; and how often it was.
   */
  datatype Sys = Sys(
    desired: bool,
    status: RouteStatus,
    slot: bool,
    epoch: nat,
    nextId: nat,
    active: int,
    wakers: set<LeaseId>,
    wakersLock: Option<Thread>,
    slotLock: Option<Thread>,
    leases: map<LeaseId, nat>,
    threads: map<Thread, Pc>,
    starting: set<Thread>,
    counted: set<LeaseId>,
    registered: set<LeaseId>,
    woken: set<LeaseId>,
    inner: seq<LeaseId>,
    sealed: bool,
    restored: nat)

  const START := Sys(false, DirectRoute, false, 0, 1, 0, {}, None, None, map[], map[], {}, {}, {}, {}, [], false, 0)

  function To(s: Sys, t: Thread, pc: Pc): Sys {
    s.(threads := s.threads[t := pc])
  }

  // ----- Steps

  function LockWakers(s: Sys, t: Thread, pc: Pc): Option<Sys> {
    if s.wakersLock.None? then Some(To(s, t, pc).(wakersLock := Some(t))) else None
  }

  function LockSlot(s: Sys, t: Thread, pc: Pc): Option<Sys> {
    if s.slotLock.None? then Some(To(s, t, pc).(slotLock := Some(t))) else None
  }

  /** `pick` is the waker woken next; the order is arbitrary. */
  function BeginStep(s: Sys, t: Thread, pc: Pc, pick: LeaseId): Option<Sys> {
    match pc
    case BeginLock => LockWakers(s, t, BeginDesire)
    case BeginDesire => Some(To(s, t, BeginStatus).(desired := true, sealed := true))
    case BeginStatus => Some(To(s, t, BeginEpoch).(status := Bootstrapping))
    case BeginEpoch => Some(To(s, t, BeginDrain).(epoch := s.epoch + 1))
    case BeginDrain => Some(To(s, t, BeginWake(s.wakers)).(wakers := {}, wakersLock := None))
    case BeginWake(pending) =>
      if pick in pending then Some(To(s, t, BeginWake(pending - {pick})).(woken := s.woken + {pick}))
      else if pending == {} && s.slotLock.None? then Some(To(s, t, Finished).(slot := false))
      else None
    case _ => None
  }

  function DisableStep(s: Sys, t: Thread, pc: Pc): Option<Sys> {
    match pc
    case DisableLock => LockSlot(s, t, DisableDesire)
    case DisableDesire => Some(To(s, t, DisableStatus).(desired := false, sealed := false, restored := s.restored + 1))
    case DisableStatus => Some(To(s, t, DisableClear).(status := DirectRoute))
    case DisableClear => Some(To(s, t, Finished).(slot := false, slotLock := None))
    case _ => None
  }

  function FailStep(s: Sys, t: Thread, pc: Pc): Option<Sys> {
    match pc
    case FailLock => LockSlot(s, t, FailClear)
    case FailClear => Some(To(s, t, FailRead).(slot := false))
    case FailRead => if s.desired then Some(To(s, t, FailStore)) else Some(To(s, t, Finished).(slotLock := None))
    case FailStore => Some(To(s, t, Finished).(status := FailedRoute, slotLock := None))
    case _ => None
  }

  /** `succeeds` says how the bootstrap itself ends, which may be at any time. */
  function BootStep(s: Sys, t: Thread, pc: Pc, succeeds: bool): Option<Sys> {
    match pc
    case EnableDesire => Some(To(s, t, BootDesired).(desired := true))
    case BootDesired => Some(To(s, t, if s.desired then BootStatus else Finished))
    case BootStatus => Some(To(s, t, if s.status == Ready then BootSlot else BootMark))
    case BootSlot => if s.slotLock.None? then Some(To(s, t, if s.slot then Finished else BootMark)) else None
    case BootMark => Some(To(s, t, BootWait).(status := Bootstrapping))
    case BootWait => Some(To(s, t, if succeeds then InstallLock else FailLock))
    case _ => None
  }

  function InstallStep(s: Sys, t: Thread, pc: Pc): Option<Sys> {
    match pc
    case InstallLock => LockSlot(s, t, InstallRead)
    case InstallRead => if s.desired then Some(To(s, t, InstallPut)) else Some(To(s, t, Finished).(slotLock := None))
    case InstallPut => Some(To(s, t, InstallReady).(slot := true))
    case InstallReady => Some(To(s, t, Finished).(status := Ready, slotLock := None))
    case _ => None
  }

  function LeaseStep(s: Sys, t: Thread, pc: Pc): Option<Sys> {
    match pc
    case LeaseCount => Some(To(s, t, LeaseNumber).(active := s.active + 1, starting := s.starting + {t}))
    case LeaseNumber =>
      Some(To(s, t, LeaseEpoch(s.nextId)).(nextId := s.nextId + 1, starting := s.starting - {t},
                                           counted := s.counted + {s.nextId}))
    case LeaseEpoch(id) => Some(To(s, t, Finished).(leases := s.leases[id := s.epoch]))
    case DropRemove(id) =>
      if s.wakersLock.None? then Some(To(s, t, DropCount(id)).(wakers := s.wakers - {id})) else None
    case DropCount(id) => Some(To(s, t, Finished).(active := s.active - 1, counted := s.counted - {id}))
    case _ => None
  }

  function PollStep(s: Sys, t: Thread, pc: Pc): Option<Sys> {
    match pc
    case PollLock(id) => LockWakers(s, t, PollDesired(id))
    case PollDesired(id) => if s.desired then Some(Release(s, t)) else Some(To(s, t, PollEpoch(id)))
    case PollEpoch(id) =>
      if id in s.leases && s.leases[id] == s.epoch then Some(To(s, t, PollInsert(id))) else Some(Release(s, t))
    case PollInsert(id) => Some(To(s, t, PollInner(id)).(wakers := s.wakers + {id}, registered := s.registered + {id}))
    case PollInner(id) => Some(Release(s, t).(inner := s.inner + [id]))
    case _ => None
  }

  function Release(s: Sys, t: Thread): Sys {
    To(s, t, Finished).(wakersLock := None)
  }

  function ReadStep(s: Sys, t: Thread, pc: Pc): Option<Sys> {
    match pc
    case ResolveSlot(isolated) => if s.slotLock.None? then Some(To(s, t, ResolveDesired(isolated, s.slot))) else None
    case ResolveDesired(isolated, client) => Some(To(s, t, ResolveStatus(isolated, client, s.desired)))
    case ResolveStatus(isolated, client, desired) => Some(To(s, t, Resolved(RouteOf(desired, s.status, client,
              isolated))))
    case DrainRead => Some(To(s, t, if s.active == 0 then Drained else DrainRead))
    case _ => None
  }

  datatype Group = OfBegin | OfDisable | OfFail | OfBoot | OfInstall | OfLease | OfPoll | OfRead

  function GroupOf(pc: Pc): Group {
    match pc
    case BeginLock | BeginDesire | BeginStatus | BeginEpoch | BeginDrain | BeginWake(_) => OfBegin
    case DisableLock | DisableDesire | DisableStatus | DisableClear => OfDisable
    case FailLock | FailClear | FailRead | FailStore => OfFail
    case EnableDesire | BootDesired | BootStatus | BootSlot | BootMark | BootWait => OfBoot
    case InstallLock | InstallRead | InstallPut | InstallReady => OfInstall
    case LeaseCount | LeaseNumber | LeaseEpoch(_) | DropRemove(_) | DropCount(_) => OfLease
    case PollLock(_) | PollDesired(_) | PollEpoch(_) | PollInsert(_) | PollInner(_) => OfPoll
    case _ => OfRead
  }

  datatype Call =
    | BeginTorEnable | DisableTor | FailTorEnable | EnableTor
    | NewLease | PollLease(id: LeaseId) | DropLease(id: LeaseId)
    | ResolveRoute(isolated: bool) | WaitDrained

  function Entry(call: Call): Pc {
    match call
    case BeginTorEnable => BeginLock
    case DisableTor => DisableLock
    case FailTorEnable => FailLock
    case EnableTor => EnableDesire
    case NewLease => LeaseCount
    case PollLease(id) => PollLock(id)
    case DropLease(id) => DropRemove(id)
    case ResolveRoute(isolated) => ResolveSlot(isolated)
    case WaitDrained => DrainRead
  }

  datatype Event = Spawn(t: Thread, call: Call) | Advance(t: Thread, succeeds: bool, pick: LeaseId)

  /** Only a live lease is polled, and a lease is dropped once, by its owner, with no poll of it under way. */
  predicate Allowed(s: Sys, call: Call) {
    match call
    case PollLease(id) => id in s.leases
    case DropLease(id) => id in s.leases && forall t :: t in s.threads ==> Polling(s.threads[t]) != Some(id)
    case _ => true
  }

  function SpawnStep(s: Sys, t: Thread, call: Call): Option<Sys> {
    if t in s.threads || !Allowed(s, call) then None
    else
      var s' := To(s, t, Entry(call));
      Some(if call.DropLease? then s'.(leases := s.leases - {call.id}) else s')
  }

  function AdvanceStep(s: Sys, t: Thread, succeeds: bool, pick: LeaseId): Option<Sys>
    requires t in s.threads
  {
    var pc := s.threads[t];
    match GroupOf(pc)
    case OfBegin => BeginStep(s, t, pc, pick)
    case OfDisable => DisableStep(s, t, pc)
    case OfFail => FailStep(s, t, pc)
    case OfBoot => BootStep(s, t, pc, succeeds)
    case OfInstall => InstallStep(s, t, pc)
    case OfLease => LeaseStep(s, t, pc)
    case OfPoll => PollStep(s, t, pc)
    case OfRead => ReadStep(s, t, pc)
  }

  function Step(s: Sys, e: Event): Option<Sys> {
    match e
    case Spawn(t, call) => SpawnStep(s, t, call)
    case Advance(t, succeeds, pick) => if t in s.threads then AdvanceStep(s, t, succeeds, pick) else None
  }

  function Run(s: Sys, events: seq<Event>): Option<Sys>
    decreases |events|
  {
    if events == [] then Some(s)
    else
      match Step(s, events[0])
      case None => None
      case Some(s') => Run(s', events[1..])
  }

  // ----- The invariant

  ghost predicate LocksOk(s: Sys) {
    && (forall t :: t in s.threads ==> (HoldsWakers(s.threads[t]) <==> s.wakersLock == Some(t)))
    && (forall t :: t in s.threads ==> (HoldsSlot(s.threads[t]) <==> s.slotLock == Some(t)))
    && (s.wakersLock.Some? ==> s.wakersLock.value in s.threads)
    && (s.slotLock.Some? ==> s.slotLock.value in s.threads)
  }

  /** A poll past its check found the direct route open, and only its own lock holder could close it. */
  ghost predicate PollOk(s: Sys, pc: Pc) {
    && (Polling(pc).Some? ==> Polling(pc).value in s.leases)
    && (pc.PollEpoch? || pc.PollInsert? || pc.PollInner? ==> !s.sealed)
    && (pc.PollInsert? || pc.PollInner? ==> pc.id in s.leases && s.leases[pc.id] == s.epoch)
  }

  ghost predicate PollsOk(s: Sys) {
    && (s.sealed ==> s.desired)
    && (forall id :: id in s.leases ==> s.leases[id] <= s.epoch)
    && (forall t :: t in s.threads ==> PollOk(s, s.threads[t]))
  }

  ghost predicate CountsOk(s: Sys) {
    && s.active == |s.starting| + |s.counted|
    && (forall t :: t in s.starting <==> t in s.threads && s.threads[t].LeaseNumber?)
    && (forall id :: id in s.counted ==> id < s.nextId)
    && (forall id :: id in s.leases ==> id in s.counted)
    && (forall t :: t in s.threads && Owned(s.threads[t]).Some? ==>
          Owned(s.threads[t]).value in s.counted && Owned(s.threads[t]).value !in s.leases)
    && (forall t, u :: t in s.threads && u in s.threads && t != u && Owned(s.threads[t]).Some? ==>
          Owned(s.threads[t]) != Owned(s.threads[u]))
  }

  /** The lease's waker is still in a request to wake it. */
  ghost predicate ToBeWoken(s: Sys, id: LeaseId) {
    exists t :: t in s.threads && s.threads[t].BeginWake? && id in s.threads[t].pending
  }

  ghost predicate Draining(s: Sys) {
    s.wakersLock.Some? && s.wakersLock.value in s.threads && s.threads[s.wakersLock.value].BeginDrain?
  }

  ghost predicate WakersOk(s: Sys) {
    && (forall id :: id in s.leases && id in s.registered ==> id in s.wakers || ToBeWoken(s, id) || id in s.woken)
    && (forall id :: id in s.wakers && id in s.leases && !Draining(s) ==> s.leases[id] == s.epoch)
    && (forall id :: id in s.registered ==> id < s.nextId)
    && (forall id :: id in s.wakers ==> id in s.registered)
    && (forall t :: t in s.threads && s.threads[t].LeaseEpoch? ==> s.threads[t].id !in s.registered)
  }

  ghost predicate StatusOk(s: Sys) {
    && (s.status == Ready ==> s.desired || (s.slotLock.Some? && s.slotLock.value in s.threads
                                            && s.threads[s.slotLock.value].DisableStatus?))
    && (forall t :: t in s.threads && (s.threads[t].InstallPut? || s.threads[t].InstallReady?) ==> s.desired)
  }

  ghost predicate Sound(s: Sys) {
    LocksOk(s) && PollsOk(s) && CountsOk(s) && WakersOk(s) && StatusOk(s)
  }

  lemma StartSound()
    ensures Sound(START)
  {
  }

  // ----- What one step may change

  ghost predicate LockMove(held: bool, lock: Option<Thread>, lock': Option<Thread>, t: Thread) {
    if held then lock' == Some(t) && (lock.None? || lock == Some(t))
    else lock' == if lock == Some(t) then None else lock
  }

  ghost predicate LocksMove(s: Sys, s': Sys, t: Thread, pc: Pc) {
    && s'.threads == s.threads[t := pc]
    && LockMove(HoldsWakers(pc), s.wakersLock, s'.wakersLock, t)
    && LockMove(HoldsSlot(pc), s.slotLock, s'.slotLock, t)
  }

  /** Closing the route and moving the epoch are steps of the thread that holds the waker lock. */
  ghost predicate PollsMove(s: Sys, s': Sys, t: Thread, pc: Pc) {
    && s'.threads == s.threads[t := pc] && PollOk(s', pc)
    && (s'.sealed ==> s'.desired)
    && s'.leases == s.leases && s'.epoch >= s.epoch
    && ((s'.sealed && !s.sealed) || s'.epoch != s.epoch ==> s.wakersLock == Some(t))
  }

  ghost predicate CountsMove(s: Sys, s': Sys, t: Thread, pc: Pc) {
    && s'.threads == s.threads[t := pc]
    && s'.active == s.active && s'.starting == s.starting && s'.counted == s.counted && s'.nextId == s.nextId
    && s'.leases == s.leases
    && !pc.LeaseNumber? && (t in s.threads ==> !s.threads[t].LeaseNumber?)
    && (Owned(pc).None? || (t in s.threads && Owned(pc) == Owned(s.threads[t])))
  }

  ghost predicate WakersMove(s: Sys, s': Sys, t: Thread, pc: Pc) {
    && s'.threads == s.threads[t := pc]
    && s'.wakers == s.wakers && s'.registered == s.registered && s'.leases == s.leases
    && s'.epoch == s.epoch && s'.nextId == s.nextId && s'.woken == s.woken
    && !pc.BeginWake? && (t in s.threads ==> !s.threads[t].BeginWake?)
    && !pc.LeaseEpoch? && !pc.BeginDrain? && (t in s.threads ==> !s.threads[t].BeginDrain?)
  }

  ghost predicate StatusMove(s: Sys, s': Sys, t: Thread, pc: Pc) {
    && s'.threads == s.threads[t := pc]
    && (s'.status == Ready && s.status != Ready ==> s'.desired)
    && (s.desired && !s'.desired ==> s.slotLock == Some(t) && pc.DisableStatus? && s'.slotLock == Some(t))
    && (t in s.threads && s.threads[t].DisableStatus? ==> s'.status != Ready)
    && (s'.slotLock == s.slotLock || s.slotLock == None || s.slotLock == Some(t))
    && (pc.InstallPut? || pc.InstallReady? ==> s'.desired)
  }

  /** What is known of the acting thread before its step. */
  ghost predicate At(s: Sys, t: Thread, pc: Pc) {
    && t in s.threads && s.threads[t] == pc
    && (HoldsWakers(pc) <==> s.wakersLock == Some(t))
    && (HoldsSlot(pc) <==> s.slotLock == Some(t))
    && (s.sealed ==> s.desired)
    && PollOk(s, pc)
    && (pc.InstallPut? || pc.InstallReady? ==> s.desired)
  }

  ghost predicate Moves(s: Sys, s': Sys, t: Thread, pc: Pc) {
    LocksMove(s, s', t, pc) && PollsMove(s, s', t, pc) && CountsMove(s, s', t, pc) && StatusMove(s, s', t, pc)
  }

  lemma BeginSectionMoves(s: Sys, t: Thread, pc: Pc)
    requires At(s, t, pc) && BeginStep(s, t, pc, 0).Some? && !pc.BeginWake?
    ensures var s' := BeginStep(s, t, pc, 0).value;
            && t in s'.threads && Moves(s, s', t, s'.threads[t])
            && (pc.BeginLock? || pc.BeginDesire? || pc.BeginStatus? ==> WakersMove(s, s', t, s'.threads[t]))
  {
  }

  lemma BeginWakeMoves(s: Sys, t: Thread, pending: set<LeaseId>, pick: LeaseId)
    requires At(s, t, BeginWake(pending)) && BeginStep(s, t, BeginWake(pending), pick).Some?
    ensures var s' := BeginStep(s, t, BeginWake(pending), pick).value; t in s'.threads && Moves(s, s', t, s'.threads[t])
  {
    hide Moves, At;
    if pick in pending {
      BeginWakesOne(s, t, pending, pick);
    } else {
      BeginFinishes(s, t, pick);
    }
  }

  lemma BeginWakesOne(s: Sys, t: Thread, pending: set<LeaseId>, pick: LeaseId)
    requires At(s, t, BeginWake(pending)) && pick in pending
    ensures var s' := BeginStep(s, t, BeginWake(pending), pick).value; t in s'.threads && Moves(s, s', t, s'.threads[t])
  {
  }

  lemma BeginFinishes(s: Sys, t: Thread, pick: LeaseId)
    requires At(s, t, BeginWake({})) && s.slotLock.None?
    ensures var s' := BeginStep(s, t, BeginWake({}), pick).value; t in s'.threads && Moves(s, s', t, s'.threads[t])
  {
  }

  lemma BeginMoves(s: Sys, t: Thread, pc: Pc, pick: LeaseId)
    requires At(s, t, pc) && BeginStep(s, t, pc, pick).Some?
    ensures var s' := BeginStep(s, t, pc, pick).value;
            && t in s'.threads && Moves(s, s', t, s'.threads[t])
            && (pc.BeginLock? || pc.BeginDesire? || pc.BeginStatus? ==> WakersMove(s, s', t, s'.threads[t]))
  {
    hide At, Moves, WakersMove;
    if pc.BeginWake? {
      BeginWakeMoves(s, t, pc.pending, pick);
    } else {
      BeginSectionMoves(s, t, pc);
    }
  }

  lemma DisableMoves(s: Sys, t: Thread, pc: Pc)
    requires At(s, t, pc) && DisableStep(s, t, pc).Some?
    ensures var s' := DisableStep(s, t, pc).value;
            t in s'.threads && Moves(s, s', t, s'.threads[t]) && WakersMove(s, s', t, s'.threads[t])
  {
  }

  lemma FailMoves(s: Sys, t: Thread, pc: Pc)
    requires At(s, t, pc) && FailStep(s, t, pc).Some?
    ensures var s' := FailStep(s, t, pc).value;
            t in s'.threads && Moves(s, s', t, s'.threads[t]) && WakersMove(s, s', t, s'.threads[t])
  {
  }

  lemma EnableDesireMoves(s: Sys, t: Thread, succeeds: bool)
    requires At(s, t, EnableDesire) && BootStep(s, t, EnableDesire, succeeds).Some?
    ensures var s' := BootStep(s, t, EnableDesire, succeeds).value;
            t in s'.threads && Moves(s, s', t, s'.threads[t]) && WakersMove(s, s', t, s'.threads[t])
  {
  }

  lemma BootDesiredMoves(s: Sys, t: Thread, succeeds: bool)
    requires At(s, t, BootDesired) && BootStep(s, t, BootDesired, succeeds).Some?
    ensures var s' := BootStep(s, t, BootDesired, succeeds).value;
            t in s'.threads && Moves(s, s', t, s'.threads[t]) && WakersMove(s, s', t, s'.threads[t])
  {
  }

  lemma BootStatusMoves(s: Sys, t: Thread, succeeds: bool)
    requires At(s, t, BootStatus) && BootStep(s, t, BootStatus, succeeds).Some?
    ensures var s' := BootStep(s, t, BootStatus, succeeds).value;
            t in s'.threads && Moves(s, s', t, s'.threads[t]) && WakersMove(s, s', t, s'.threads[t])
  {
  }

  lemma BootSlotMoves(s: Sys, t: Thread, succeeds: bool)
    requires At(s, t, BootSlot) && BootStep(s, t, BootSlot, succeeds).Some?
    ensures var s' := BootStep(s, t, BootSlot, succeeds).value;
            t in s'.threads && Moves(s, s', t, s'.threads[t]) && WakersMove(s, s', t, s'.threads[t])
  {
  }

  lemma BootMarkMoves(s: Sys, t: Thread, succeeds: bool)
    requires At(s, t, BootMark) && BootStep(s, t, BootMark, succeeds).Some?
    ensures var s' := BootStep(s, t, BootMark, succeeds).value;
            t in s'.threads && Moves(s, s', t, s'.threads[t]) && WakersMove(s, s', t, s'.threads[t])
  {
  }

  lemma BootWaitMoves(s: Sys, t: Thread, succeeds: bool)
    requires At(s, t, BootWait) && BootStep(s, t, BootWait, succeeds).Some?
    ensures var s' := BootStep(s, t, BootWait, succeeds).value;
            t in s'.threads && Moves(s, s', t, s'.threads[t]) && WakersMove(s, s', t, s'.threads[t])
  {
  }

  lemma BootMoves(s: Sys, t: Thread, pc: Pc, succeeds: bool)
    requires At(s, t, pc) && BootStep(s, t, pc, succeeds).Some?
    ensures var s' := BootStep(s, t, pc, succeeds).value;
            t in s'.threads && Moves(s, s', t, s'.threads[t]) && WakersMove(s, s', t, s'.threads[t])
  {
    hide At, Moves, WakersMove;
    if pc == EnableDesire {
      EnableDesireMoves(s, t, succeeds);
    } else if pc == BootDesired {
      BootDesiredMoves(s, t, succeeds);
    } else if pc == BootStatus {
      BootStatusMoves(s, t, succeeds);
    } else if pc == BootSlot {
      BootSlotMoves(s, t, succeeds);
    } else if pc == BootMark {
      BootMarkMoves(s, t, succeeds);
    } else if pc == BootWait {
      BootWaitMoves(s, t, succeeds);
    }
  }

  lemma InstallMoves(s: Sys, t: Thread, pc: Pc)
    requires At(s, t, pc) && InstallStep(s, t, pc).Some?
    ensures var s' := InstallStep(s, t, pc).value;
            t in s'.threads && Moves(s, s', t, s'.threads[t]) && WakersMove(s, s', t, s'.threads[t])
  {
  }

  lemma PollLockMoves(s: Sys, t: Thread, id: LeaseId)
    requires At(s, t, PollLock(id)) && PollStep(s, t, PollLock(id)).Some?
    ensures var s' := PollStep(s, t, PollLock(id)).value;
            t in s'.threads && Moves(s, s', t, s'.threads[t]) && WakersMove(s, s', t, s'.threads[t])
  {
  }

  lemma PollDesiredMoves(s: Sys, t: Thread, id: LeaseId)
    requires At(s, t, PollDesired(id)) && PollStep(s, t, PollDesired(id)).Some?
    ensures var s' := PollStep(s, t, PollDesired(id)).value;
            t in s'.threads && Moves(s, s', t, s'.threads[t]) && WakersMove(s, s', t, s'.threads[t])
  {
  }

  lemma PollEpochMoves(s: Sys, t: Thread, id: LeaseId)
    requires At(s, t, PollEpoch(id)) && PollStep(s, t, PollEpoch(id)).Some?
    ensures var s' := PollStep(s, t, PollEpoch(id)).value;
            t in s'.threads && Moves(s, s', t, s'.threads[t]) && WakersMove(s, s', t, s'.threads[t])
  {
  }

  lemma PollInsertMoves(s: Sys, t: Thread, id: LeaseId)
    requires At(s, t, PollInsert(id)) && PollStep(s, t, PollInsert(id)).Some?
    ensures var s' := PollStep(s, t, PollInsert(id)).value;
            t in s'.threads && Moves(s, s', t, s'.threads[t])
  {
  }

  lemma PollInnerMoves(s: Sys, t: Thread, id: LeaseId)
    requires At(s, t, PollInner(id)) && PollStep(s, t, PollInner(id)).Some?
    ensures var s' := PollStep(s, t, PollInner(id)).value;
            t in s'.threads && Moves(s, s', t, s'.threads[t]) && WakersMove(s, s', t, s'.threads[t])
  {
  }

  lemma PollMoves(s: Sys, t: Thread, pc: Pc)
    requires At(s, t, pc) && PollStep(s, t, pc).Some?
    ensures var s' := PollStep(s, t, pc).value;
            && t in s'.threads && Moves(s, s', t, s'.threads[t])
            && (!pc.PollInsert? ==> WakersMove(s, s', t, s'.threads[t]))
  {
    hide At, Moves, WakersMove;
    if pc.PollLock? {
      PollLockMoves(s, t, pc.id);
    } else if pc.PollDesired? {
      PollDesiredMoves(s, t, pc.id);
    } else if pc.PollEpoch? {
      PollEpochMoves(s, t, pc.id);
    } else if pc.PollInsert? {
      PollInsertMoves(s, t, pc.id);
    } else if pc.PollInner? {
      PollInnerMoves(s, t, pc.id);
    }
  }

  lemma ReadMoves(s: Sys, t: Thread, pc: Pc)
    requires At(s, t, pc) && ReadStep(s, t, pc).Some?
    ensures var s' := ReadStep(s, t, pc).value;
            t in s'.threads && Moves(s, s', t, s'.threads[t]) && WakersMove(s, s', t, s'.threads[t])
  {
  }

  /** Creating and dropping leases is looked at step by step where it counts. */
  lemma LeaseMoves(s: Sys, t: Thread, pc: Pc)
    requires At(s, t, pc) && LeaseStep(s, t, pc).Some?
    ensures var s' := LeaseStep(s, t, pc).value;
            && t in s'.threads && LocksMove(s, s', t, s'.threads[t]) && StatusMove(s, s', t, s'.threads[t])
            && (!pc.LeaseEpoch? ==> PollsMove(s, s', t, s'.threads[t]))
            && (pc.LeaseCount? || pc.DropCount? ==> WakersMove(s, s', t, s'.threads[t]))
            && (pc.DropRemove? ==> s'.threads[t] == DropCount(pc.id) && CountsMove(s, s', t, s'.threads[t]))
  {
  }

  lemma SpawnMoves(s: Sys, t: Thread, call: Call)
    requires SpawnStep(s, t, call).Some? && s.wakersLock != Some(t) && s.slotLock != Some(t) && (s.sealed ==> s.desired)
    ensures var s' := SpawnStep(s, t, call).value;
            && t in s'.threads && LocksMove(s, s', t, s'.threads[t]) && StatusMove(s, s', t, s'.threads[t])
            && (!call.DropLease? ==>
                  PollsMove(s, s', t, s'.threads[t]) && CountsMove(s, s', t, s'.threads[t])
                      && WakersMove(s, s', t, s'.threads[t]))
  {
    EntryIsPlain(s, call);
    hide Entry, Allowed;
  }

  /** A call starts outside every lock and section. */
  lemma EntryIsPlain(s: Sys, call: Call)
    requires Allowed(s, call)
    ensures var pc := Entry(call);
            && !HoldsWakers(pc) && !HoldsSlot(pc) && !pc.LeaseNumber? && !pc.LeaseEpoch? && !pc.BeginWake?
            && !pc.DisableStatus? && (Owned(pc).Some? <==> call.DropLease?)
            && (call.PollLease? ==> call.id in s.leases) && (Polling(pc).Some? ==> call == PollLease(Polling(pc).value))
  {
  }

  // ----- Every step keeps the invariant

  lemma AtHolds(s: Sys, t: Thread)
    requires Sound(s) && t in s.threads
    ensures At(s, t, s.threads[t])
  {
  }

  lemma LocksKeep(s: Sys, s': Sys, t: Thread, pc: Pc)
    requires LocksOk(s) && LocksMove(s, s', t, pc)
    ensures LocksOk(s')
  {
  }

  lemma PollsKeep(s: Sys, s': Sys, t: Thread, pc: Pc)
    requires LocksOk(s) && PollsOk(s) && PollsMove(s, s', t, pc)
    ensures PollsOk(s')
  {
  }

  lemma CountsKeep(s: Sys, s': Sys, t: Thread, pc: Pc)
    requires CountsOk(s) && CountsMove(s, s', t, pc)
    ensures CountsOk(s')
  {
  }

  lemma StatusKeep(s: Sys, s': Sys, t: Thread, pc: Pc)
    requires LocksOk(s) && StatusOk(s) && StatusMove(s, s', t, pc)
    ensures StatusOk(s')
  {
  }

  lemma WakersKeep(s: Sys, s': Sys, t: Thread, pc: Pc)
    requires LocksOk(s) && WakersOk(s) && LocksMove(s, s', t, pc) && WakersMove(s, s', t, pc)
    ensures WakersOk(s')
  {
    StillToBeWoken(s, s', t);
  }

  /** A request to wake survives every step of another thread. */
  lemma StillToBeWoken(s: Sys, s': Sys, t: Thread)
    requires t in s'.threads && s'.threads == s.threads[t := s'.threads[t]]
    requires t in s.threads ==> !s.threads[t].BeginWake?
    ensures forall id :: ToBeWoken(s, id) ==> ToBeWoken(s', id)
  {
    forall id | ToBeWoken(s, id)
      ensures ToBeWoken(s', id)
    {
      var u :| u in s.threads && s.threads[u].BeginWake? && id in s.threads[u].pending;
      assert u != t && s'.threads[u] == s.threads[u];
    }
  }

  lemma MovesKeep(s: Sys, s': Sys, t: Thread, pc: Pc)
    requires Sound(s) && Moves(s, s', t, pc) && WakersOk(s')
    ensures Sound(s')
  {
    hide LocksOk, PollsOk, CountsOk, StatusOk, WakersOk, LocksMove, PollsMove, CountsMove, StatusMove;
    LocksKeep(s, s', t, pc);
    PollsKeep(s, s', t, pc);
    CountsKeep(s, s', t, pc);
    StatusKeep(s, s', t, pc);
  }

  // ----- begin_tor_enable

  lemma BeginEpochWakers(s: Sys, t: Thread)
    requires Sound(s) && At(s, t, BeginEpoch)
    ensures WakersOk(BeginStep(s, t, BeginEpoch, 0).value)
  {
    hide PollsOk, CountsOk, StatusOk;
    var s' := BeginStep(s, t, BeginEpoch, 0).value;
    StillToBeWoken(s, s', t);
    assert s'.threads[t].BeginDrain? && Draining(s');
  }

  lemma BeginDrainWakers(s: Sys, t: Thread)
    requires Sound(s) && At(s, t, BeginDrain)
    ensures WakersOk(BeginStep(s, t, BeginDrain, 0).value)
  {
    hide PollsOk, CountsOk, StatusOk, LocksOk;
    var s' := BeginStep(s, t, BeginDrain, 0).value;
    StillToBeWoken(s, s', t);
    assert forall id :: id in s.wakers ==> s'.threads[t].BeginWake? && id in s'.threads[t].pending;
    assert forall id :: id in s.wakers ==> ToBeWoken(s', id);
  }

  lemma BeginWakeWakers(s: Sys, t: Thread, pending: set<LeaseId>, pick: LeaseId)
    requires Sound(s) && At(s, t, BeginWake(pending)) && BeginStep(s, t, BeginWake(pending), pick).Some?
    ensures WakersOk(BeginStep(s, t, BeginWake(pending), pick).value)
  {
    hide PollsOk, CountsOk, StatusOk, LocksOk;
    var s' := BeginStep(s, t, BeginWake(pending), pick).value;
    assert Draining(s) ==> Draining(s');
    forall id | ToBeWoken(s, id)
      ensures ToBeWoken(s', id) || id in s'.woken
    {
      WokenOrStillToBe(s, s', t, pending, pick, id);
    }
    hide ToBeWoken;
  }

  /** The waker picked now is woken; every other request stands. */
  lemma WokenOrStillToBe(s: Sys, s': Sys, t: Thread, pending: set<LeaseId>, pick: LeaseId, id: LeaseId)
    requires t in s.threads && s.threads[t] == BeginWake(pending)
             && BeginStep(s, t, BeginWake(pending), pick) == Some(s')
    requires ToBeWoken(s, id)
    ensures ToBeWoken(s', id) || id in s'.woken
  {
    var u :| u in s.threads && s.threads[u].BeginWake? && id in s.threads[u].pending;
    if u != t {
      assert s'.threads[u] == s.threads[u];
    } else if id != pick {
      assert s'.threads[t].BeginWake? && id in s'.threads[t].pending;
    }
  }

  lemma BeginKeeps(s: Sys, t: Thread, pick: LeaseId)
    requires Sound(s) && t in s.threads && BeginStep(s, t, s.threads[t], pick).Some?
    ensures Sound(BeginStep(s, t, s.threads[t], pick).value)
  {
    hide Sound, Moves, At, LocksOk, WakersOk, LocksMove, WakersMove;
    var pc := s.threads[t];
    var s' := BeginStep(s, t, pc, pick).value;
    AtHolds(s, t);
    BeginMoves(s, t, pc, pick);
    if pc.BeginEpoch? {
      BeginEpochWakers(s, t);
    } else if pc.BeginDrain? {
      BeginDrainWakers(s, t);
    } else if pc.BeginWake? {
      BeginWakeWakers(s, t, pc.pending, pick);
    } else {
      WakersKeepOf(s, s', t, s'.threads[t]);
    }
    MovesKeep(s, s', t, s'.threads[t]);
  }

  lemma WakersKeepOf(s: Sys, s': Sys, t: Thread, pc: Pc)
    requires Sound(s) && Moves(s, s', t, pc) && WakersMove(s, s', t, pc)
    ensures WakersOk(s')
  {
    hide LocksOk, PollsOk, CountsOk, StatusOk, WakersOk, LocksMove, PollsMove, CountsMove, StatusMove, WakersMove;
    WakersKeep(s, s', t, pc);
  }

  // ----- Polls

  lemma PollInsertWakers(s: Sys, t: Thread, id: LeaseId)
    requires Sound(s) && At(s, t, PollInsert(id))
    ensures WakersOk(PollStep(s, t, PollInsert(id)).value)
  {
    hide PollsOk, StatusOk, LocksOk;
    var s' := PollStep(s, t, PollInsert(id)).value;
    StillToBeWoken(s, s', t);
    hide ToBeWoken;
    assert !Draining(s) && id in s.counted;
    assert forall u :: u in s.threads && s.threads[u].LeaseEpoch? ==> Owned(s.threads[u]) == Some(s.threads[u].id);
  }

  lemma PollKeeps(s: Sys, t: Thread)
    requires Sound(s) && t in s.threads && PollStep(s, t, s.threads[t]).Some?
    ensures Sound(PollStep(s, t, s.threads[t]).value)
  {
    hide Sound, Moves, At, LocksOk, WakersOk, LocksMove, WakersMove;
    var pc := s.threads[t];
    var s' := PollStep(s, t, pc).value;
    AtHolds(s, t);
    PollMoves(s, t, pc);
    if pc.PollInsert? {
      PollInsertWakers(s, t, pc.id);
    } else {
      WakersKeepOf(s, s', t, s'.threads[t]);
    }
    MovesKeep(s, s', t, s'.threads[t]);
  }

  // ----- Leases

  lemma PollsLeased(s: Sys, t: Thread, id: LeaseId)
    requires PollsOk(s) && CountsOk(s) && At(s, t, LeaseEpoch(id))
    ensures PollsOk(LeaseStep(s, t, LeaseEpoch(id)).value)
  {
    hide CountsOk;
    var s' := LeaseStep(s, t, LeaseEpoch(id)).value;
    CountsAt(s, t);
    forall u | u in s'.threads
      ensures PollOk(s', s'.threads[u])
    {
      assert u != t ==> PollOk(s, s.threads[u]);
    }
  }

  lemma CountsAt(s: Sys, t: Thread)
    requires CountsOk(s)
    ensures t in s.threads && Owned(s.threads[t]).Some? ==>
              Owned(s.threads[t]).value in s.counted && Owned(s.threads[t]).value !in s.leases
  {
  }

  lemma CountsBegun(s: Sys, t: Thread)
    requires CountsOk(s) && t in s.threads && s.threads[t] == LeaseCount
    ensures CountsOk(LeaseStep(s, t, LeaseCount).value)
  {
    assert t !in s.starting;
  }

  lemma CountsNumbered(s: Sys, t: Thread)
    requires CountsOk(s) && t in s.threads && s.threads[t] == LeaseNumber
    ensures CountsOk(LeaseStep(s, t, LeaseNumber).value)
  {
    assert t in s.starting && s.nextId !in s.counted;
  }

  lemma CountsLeased(s: Sys, t: Thread, id: LeaseId)
    requires CountsOk(s) && t in s.threads && s.threads[t] == LeaseEpoch(id)
    ensures CountsOk(LeaseStep(s, t, LeaseEpoch(id)).value)
  {
  }

  lemma CountsDropped(s: Sys, t: Thread, id: LeaseId)
    requires CountsOk(s) && t in s.threads && s.threads[t] == DropCount(id)
    ensures CountsOk(LeaseStep(s, t, DropCount(id)).value)
  {
    assert id in s.counted && id !in s.leases;
  }

  lemma LeaseCounts(s: Sys, t: Thread, pc: Pc)
    requires CountsOk(s) && t in s.threads && s.threads[t] == pc && LeaseStep(s, t, pc).Some?
    requires pc.DropRemove? ==> CountsMove(s, LeaseStep(s, t, pc).value, t, DropCount(pc.id))
    ensures CountsOk(LeaseStep(s, t, pc).value)
  {
    hide CountsOk, CountsMove;
    if pc.LeaseCount? {
      CountsBegun(s, t);
    } else if pc.LeaseNumber? {
      CountsNumbered(s, t);
    } else if pc.LeaseEpoch? {
      CountsLeased(s, t, pc.id);
    } else if pc.DropCount? {
      CountsDropped(s, t, pc.id);
    } else {
      CountsKeep(s, LeaseStep(s, t, pc).value, t, DropCount(pc.id));
    }
  }

  lemma LeaseWakers(s: Sys, t: Thread, pc: Pc)
    requires Sound(s) && At(s, t, pc) && (pc.LeaseNumber? || pc.LeaseEpoch? || pc.DropRemove?)
             && LeaseStep(s, t, pc).Some?
    ensures WakersOk(LeaseStep(s, t, pc).value)
  {
    hide PollsOk, StatusOk, LocksOk;
    var s' := LeaseStep(s, t, pc).value;
    StillToBeWoken(s, s', t);
    CountsAt(s, t);
    assert Draining(s) ==> Draining(s');
  }

  lemma LeaseKeeps(s: Sys, t: Thread)
    requires Sound(s) && t in s.threads && LeaseStep(s, t, s.threads[t]).Some?
    ensures Sound(LeaseStep(s, t, s.threads[t]).value)
  {
    hide At, LocksOk, PollsOk, CountsOk, StatusOk, WakersOk, LocksMove, WakersMove, PollsMove, StatusMove, CountsMove;
    var pc := s.threads[t];
    var s' := LeaseStep(s, t, pc).value;
    AtHolds(s, t);
    LeaseMoves(s, t, pc);
    LocksKeep(s, s', t, s'.threads[t]);
    StatusKeep(s, s', t, s'.threads[t]);
    LeaseCounts(s, t, pc);
    if pc.LeaseEpoch? {
      PollsLeased(s, t, pc.id);
    } else {
      PollsKeep(s, s', t, s'.threads[t]);
    }
    if pc.LeaseCount? || pc.DropCount? {
      WakersKeep(s, s', t, s'.threads[t]);
    } else {
      LeaseWakers(s, t, pc);
    }
  }

  // ----- Starting a call

  lemma DropSpawned(s: Sys, t: Thread, id: LeaseId)
    requires Sound(s) && t !in s.threads && Allowed(s, DropLease(id))
    ensures var s' := SpawnStep(s, t, DropLease(id)).value; PollsOk(s') && CountsOk(s')
  {
    hide WakersOk, StatusOk, LocksOk, PollsOk, CountsOk;
    DropSpawnedPolls(s, t, id);
    DropSpawnedCounts(s, t, id);
  }

  lemma DropSpawnedPolls(s: Sys, t: Thread, id: LeaseId)
    requires PollsOk(s) && t !in s.threads && Allowed(s, DropLease(id))
    ensures PollsOk(SpawnStep(s, t, DropLease(id)).value)
  {
    var s' := SpawnStep(s, t, DropLease(id)).value;
    forall u | u in s'.threads
      ensures PollOk(s', s'.threads[u])
    {
      assert u != t ==> PollOk(s, s.threads[u]) && Polling(s.threads[u]) != Some(id);
    }
  }

  lemma DropSpawnedCounts(s: Sys, t: Thread, id: LeaseId)
    requires CountsOk(s) && t !in s.threads && Allowed(s, DropLease(id))
    ensures CountsOk(SpawnStep(s, t, DropLease(id)).value)
  {
  }

  lemma DropSpawnedWakers(s: Sys, t: Thread, id: LeaseId)
    requires Sound(s) && t !in s.threads && Allowed(s, DropLease(id))
    ensures WakersOk(SpawnStep(s, t, DropLease(id)).value)
  {
    hide PollsOk, StatusOk, CountsOk;
    var s' := SpawnStep(s, t, DropLease(id)).value;
    StillToBeWoken(s, s', t);
    assert Draining(s) ==> Draining(s');
  }

  lemma SpawnKeeps(s: Sys, t: Thread, call: Call)
    requires Sound(s) && SpawnStep(s, t, call).Some?
    ensures Sound(SpawnStep(s, t, call).value)
  {
    var s' := SpawnStep(s, t, call).value;
    assert s.wakersLock != Some(t) && s.slotLock != Some(t) && (s.sealed ==> s.desired);
    hide LocksOk, PollsOk, CountsOk, StatusOk, WakersOk, LocksMove, WakersMove, PollsMove, StatusMove, CountsMove,
        Allowed;
    SpawnMoves(s, t, call);
    LocksKeep(s, s', t, s'.threads[t]);
    StatusKeep(s, s', t, s'.threads[t]);
    if call.DropLease? {
      DropSpawned(s, t, call.id);
      DropSpawnedWakers(s, t, call.id);
    } else {
      PollsKeep(s, s', t, s'.threads[t]);
      CountsKeep(s, s', t, s'.threads[t]);
      WakersKeep(s, s', t, s'.threads[t]);
    }
  }

  lemma StepKeeps(s: Sys, e: Event)
    requires Sound(s) && Step(s, e).Some?
    ensures Sound(Step(s, e).value)
  {
    hide Sound, Moves, At, WakersMove, BeginStep, DisableStep, FailStep, BootStep, InstallStep, LeaseStep, PollStep,
        ReadStep, SpawnStep;
    match e {
      case Spawn(t, call) => SpawnKeeps(s, t, call);
      case Advance(t, succeeds, pick) =>
        var s' := Step(s, e).value;
        AtHolds(s, t);
        match GroupOf(s.threads[t]) {
          case OfBegin => BeginKeeps(s, t, pick);
          case OfLease => LeaseKeeps(s, t);
          case OfPoll => PollKeeps(s, t);
          case OfDisable =>
            DisableMoves(s, t, s.threads[t]);
            WakersKeepOf(s, s', t, s'.threads[t]);
            MovesKeep(s, s', t, s'.threads[t]);
          case OfFail =>
            FailMoves(s, t, s.threads[t]);
            WakersKeepOf(s, s', t, s'.threads[t]);
            MovesKeep(s, s', t, s'.threads[t]);
          case OfBoot =>
            BootMoves(s, t, s.threads[t], succeeds);
            WakersKeepOf(s, s', t, s'.threads[t]);
            MovesKeep(s, s', t, s'.threads[t]);
          case OfInstall =>
            InstallMoves(s, t, s.threads[t]);
            WakersKeepOf(s, s', t, s'.threads[t]);
            MovesKeep(s, s', t, s'.threads[t]);
          case OfRead =>
            ReadMoves(s, t, s.threads[t]);
            WakersKeepOf(s, s', t, s'.threads[t]);
            MovesKeep(s, s', t, s'.threads[t]);
        }
    }
  }

  lemma {:induction false} RunKeeps(s: Sys, events: seq<Event>)
    requires Sound(s) && Run(s, events).Some?
    ensures Sound(Run(s, events).value)
    decreases |events|
  {
    hide Sound, Step;
    if events != [] {
      StepKeeps(s, events[0]);
      RunKeeps(Step(s, events[0]).value, events[1..]);
    }
  }

  ghost predicate Reachable(s: Sys) {
    exists events :: Run(START, events) == Some(s)
  }

  lemma ReachableSound(s: Sys)
    requires Reachable(s)
    ensures Sound(s)
  {
    var events :| Run(START, events) == Some(s);
    StartSound();
    RunKeeps(START, events);
  }
}
