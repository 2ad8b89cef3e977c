/**
 * What every interleaving keeps about descriptors, the engine and the two public flags.
 */
module Tunnel {
  import opened Options
  import opened Engine
  import opened Protocol

  // --- the invariant -------------------------------------------------------

  /** What the stage the lock holder has reached says about the tunnel and about the holder. */
  ghost predicate StageFits(s: Sys) {
    s.lock.Held? ==>
      var w := s.lock.worker;
      match s.lock.at
      case Entering(at) =>
        (w.StartWorker? || w.StopWorker?) && (at.CheckSeq? || at.RejectStale? == w.StartWorker?)
      case Preparing(at) => w.StartWorker? && (at.Establish? ==> at.previous == s.tun.tunnel)
      case Replacing(at, previous, fd) => w.StartWorker? && ReplacementFits(s.tun, w.dns, at, previous, fd)
      case Booting(_, fd) => w.StartWorker? && s.tun.tunnel == Some(fd) && s.tun.activeDns == Some(w.dns)
      case Finishing(_) => w.StartWorker? && s.tun.activeDns == Some(w.dns)
      case Failing(at) => w.StartWorker? && (Holding(at) ==> s.tun.tunnel.Some?)
      case Stopping(at, thenReject) => TearsDown(w, thenReject) && (at.PreemptStart? ==> w.StopWorker?)
      case Dropping(at, thenReject, pfd) => TearsDown(w, thenReject) && (at.DropTunnel? || s.tun.tunnel.None?)
      case Leaving(at) =>
        s.tun.tunnel.None? && if at.RejectDestroyed? then w.StartWorker? else w.StopWorker? || w.RevokeWorker?
  }

  predicate TearsDown(w: Worker, thenReject: bool) {
    w != DestroyReport && (thenReject ==> w.StartWorker?)
  }

  /** The failed START has found a tunnel that the kill switch may hold. */
  predicate Holding(at: FailStage) {
    at.FailRevoked? || at.FailAlive? || at.HoldFlag? || at.AnnounceHold? || at.ResolveHold?
  }

  predicate ReplacementFits(t: Tun, dns: Dns, at: ReplaceStage, previous: Option<Fd>, fd: Fd) {
    fd < |t.built| && t.built[fd] == dns && previous != Some(fd) &&
    if at.Install? then previous == t.tunnel else t.tunnel == Some(fd) && t.activeDns == Some(dns)
  }

  /** The descriptor the lock holder alone refers to: established or retired, but not in the tunnel field. */
  function InHandOf(lock: Lock): Option<Fd> {
    if lock == Free then None
    else match lock.at
      case Replacing(at, previous, fd) => if at.Install? then Some(fd) else previous
      case Dropping(at, _, pfd) => if at.DropTunnel? then None else pfd
      case _ => None
  }

  /** In how many places descriptor `fd` is: the tunnel, closed (each time counts), parked, in hand. */
  function Places(t: Tun, inHand: Option<Fd>, fd: Fd): nat {
    (if t.tunnel == Some(fd) then 1 else 0) + t.closed[fd] + t.parked[fd] + if inHand == Some(fd) then 1 else 0
  }

  /** Every descriptor ever established is in exactly one place. */
  ghost predicate ConservedIn(t: Tun, inHand: Option<Fd>) {
    forall fd: Fd :: Places(t, inHand, fd) == if fd < |t.built| then 1 else 0
  }

  ghost predicate Conserved(s: Sys) {
    ConservedIn(s.tun, InHandOf(s.lock))
  }

  /** The moments at which the tunnel has changed and `isRunning` has not yet. */
  predicate Unsettled(lock: Lock) {
    lock.Held? &&
    match lock.at
    case Replacing(at, _, _) => at.Unmark? || at.Publish?
    case Dropping(at, _, _) => at.Unpublish?
    case _ => false
  }

  /** The tunnel field, the resolver list it was built with and `isRunning` belong together. */
  ghost predicate TunnelFits(s: Sys) {
    && (Unsettled(s.lock) || s.tun.isRunning == s.tun.tunnel.Some?)
    && s.tun.activeDns.Some? == s.tun.tunnel.Some?
    && (s.tun.tunnel.Some? ==>
          s.tun.tunnel.value < |s.tun.built| && s.tun.activeDns == Some(s.tun.built[s.tun.tunnel.value]))
  }

  /** The moments at which the engine may be live with the flag down: about to be stopped, just started. */
  predicate Hidden(lock: Lock) {
    lock.Held? &&
    match lock.at
    case Preparing(at) => at.StopOld?
    case Booting(at, _) => at.RaiseFlag?
    case Stopping(at, _) => at.StopEngine?
    case _ => false
  }

  /** What the engine may be running on, and what `isEngineRunning` promises. */
  ghost predicate EngineFits(s: Sys) {
    && (s.engine.running.Some? ==> s.isEngineRunning || s.engine.isWedged || Hidden(s.lock))
    && (s.engine.running.Some? ==> s.engine.running.value < |s.tun.built| && s.tun.closed[s.engine.running.value] == 0)
    && (s.engine.running.Some? && !s.engine.isWedged ==> s.engine.running == s.tun.tunnel)
    && (s.isEngineRunning ==> !s.engine.isWedged && s.engine.running.Some?)
    && (forall fd :: fd in s.engine.lingering ==> fd < |s.tun.built|)
    && (s.lock.Held? ==> EngineAt(s.lock.at, s.engine, s.isEngineRunning))
  }

  /** What the lock holder relies on. */
  predicate EngineAt(at: Stage, engine: EngineState, flag: bool) {
    match at
    case Entering(_) => true
    case Preparing(p) => if p.LowerFlag? then true else !flag && (p.StopOld? || Halted(engine))
    case Replacing(_, _, _) => Halted(engine) && !flag
    case Booting(b, _) => !flag && if b.RaiseFlag? then !engine.isWedged && engine.running.Some? else Halted(engine)
    case Finishing(_) => flag
    case Failing(_) => StoppedOrWedged(engine) && !flag
    case Stopping(t, _) => t.StopEngine? ==> !flag
    case Dropping(_, _, _) => StoppedOrWedged(engine) && !flag
    case Leaving(_) => StoppedOrWedged(engine) && !flag
  }

  /** Not wedged, and no instance that Go knows of. */
  predicate Halted(engine: EngineState) {
    !engine.isWedged && engine.running.None?
  }

  ghost predicate TunnelInv(s: Sys) {
    StageFits(s) && Conserved(s) && TunnelFits(s) && EngineFits(s)
  }

  /** Tunnel and flags are down, and the engine has been stopped or given up. */
  predicate TunnelIsDown(s: Sys) {
    s.tun.tunnel.None? && !s.tun.isRunning && !s.isEngineRunning && StoppedOrWedged(s.engine)
  }

  // --- what a step can touch -----------------------------------------------

  /** What JS, the main thread and the environment cannot do. */
  ghost predicate OthersFrame(s: Sys, e: Step, s': Sys) {
    && s'.lock == s.lock && s'.isEngineRunning == s.isEngineRunning
    && s'.tun == s.tun.(revoked := s'.tun.revoked)
    && (s'.engine == s.engine || (e.LateStop? && s.engine.isWedged && s.engine.running.Some? && s'.engine.isWedged
        && s'.engine.running.None? && s'.engine.lingering <= s.engine.lingering + {s.engine.running.value}))
  }

  lemma OthersTouch(s: Sys, e: Step)
    requires Enabled(s, e) && !e.HolderMoves? && !e.Acquire?
    ensures OthersFrame(s, e, Apply(s, e))
  {
  }

  predicate Unmarks(lock: Lock) {
    lock.Held? && lock.at.Replacing? && lock.at.replace.Unmark?
  }

  /** Clearing the mark forgives the new tunnel if it has been revoked and every revoke has been noted. */
  function Forgiven(s: Sys): set<Fd> {
    if Unmarks(s.lock) && s.lock.at.fd in s.tun.revoked && !s.main.RevokeNumbered? then s.tun.forgiven + {s.lock.at.fd}
    else s.tun.forgiven
  }

  /** What a lock holder cannot do. */
  ghost predicate HolderFrame(s: Sys, s': Sys)
    requires s.lock.Held?
  {
    && s'.mail == s.mail && s'.main == s.main && s'.tun.revoked == s.tun.revoked
    && s'.tun.forgiven == Forgiven(s)
    && (s'.queued == s.queued || (s'.queued == s.queued + {DestroyReport} && s.lock.worker.DestroyWorker?))
    && s'.flags == (if Unmarks(s.lock) then s.flags.(tunnelRevoked := false) else s.flags)
    && (s'.lock == Free || (s'.lock.Held? && s'.lock.worker == s.lock.worker))
  }

  lemma HolderTouches(s: Sys, c: Choice)
    requires s.lock.Held?
    ensures HolderFrame(s, Advance(s, c))
  {
    match s.lock.at
    case Entering(at) => EnteringTouches(s, at);
    case Preparing(at) => PreparingTouches(s, at, c);
    case Replacing(at, previous, fd) => ReplacingTouches(s, at, previous, fd);
    case Booting(at, fd) => BootingTouches(s, at, fd, c);
    case Finishing(at) => FinishingTouches(s, at);
    case Failing(at) => FailingTouches(s, at);
    case Stopping(at, thenReject) => StoppingTouches(s, at, thenReject, c.stop);
    case Dropping(at, thenReject, pfd) => DroppingTouches(s, at, thenReject, pfd);
    case Leaving(at) => LeavingTouches(s, at);
  }

  lemma EnteringTouches(s: Sys, at: EntryStage)
    requires IsAt(s, Entering(at))
    ensures HolderFrame(s, Enter(s, at))
  {
  }

  lemma ReplacingTouches(s: Sys, at: ReplaceStage, previous: Option<Fd>, fd: Fd)
    requires IsAt(s, Replacing(at, previous, fd))
    ensures HolderFrame(s, Replace(s, at, previous, fd))
  {
  }

  lemma BootingTouches(s: Sys, at: BootStage, fd: Fd, c: Choice)
    requires IsAt(s, Booting(at, fd))
    ensures HolderFrame(s, Boot(s, at, fd, c))
  {
  }

  lemma StoppingTouches(s: Sys, at: StopStage, thenReject: bool, call: StopCall)
    requires IsAt(s, Stopping(at, thenReject))
    ensures HolderFrame(s, Stop(s, at, thenReject, call))
  {
  }

  lemma LeavingTouches(s: Sys, at: LeaveStage)
    requires IsAt(s, Leaving(at))
    ensures HolderFrame(s, Leave(s, at))
  {
  }

  lemma PreparingTouches(s: Sys, at: PrepareStage, c: Choice)
    requires IsAt(s, Preparing(at))
    ensures HolderFrame(s, Prepare(s, at, c))
  {
  }

  lemma FinishingTouches(s: Sys, at: FinishStage)
    requires IsAt(s, Finishing(at))
    ensures HolderFrame(s, Finish(s, at))
  {
  }

  lemma FailingTouches(s: Sys, at: FailStage)
    requires IsAt(s, Failing(at))
    ensures HolderFrame(s, Fail(s, at))
  {
  }

  lemma DroppingTouches(s: Sys, at: DropStage, thenReject: bool, pfd: Option<Fd>)
    requires IsAt(s, Dropping(at, thenReject, pfd))
    ensures HolderFrame(s, Drop(s, at, thenReject, pfd))
  {
    if at.ReleaseFd? {
      ReleasingTouches(s, thenReject, pfd);
    }
  }

  lemma ReleasingTouches(s: Sys, thenReject: bool, pfd: Option<Fd>)
    requires IsAt(s, Dropping(ReleaseFd, thenReject, pfd))
    ensures HolderFrame(s, Drop(s, ReleaseFd, thenReject, pfd))
  {
    var released := ReleaseDescriptor(s, pfd);
    assert released == s.(tun := s.tun.(closed := released.tun.closed, parked := released.tun.parked));
  }

  // --- every step keeps the invariant --------------------------------------

  /** A step that moves no descriptor keeps the invariant if the rest still fits the stage reached. */
  lemma NothingMoved(s: Sys, s': Sys)
    requires TunnelInv(s) && StageFits(s') && TunnelFits(s') && EngineFits(s')
    requires s'.tun.tunnel == s.tun.tunnel && s'.tun.closed == s.tun.closed
    requires s'.tun.parked == s.tun.parked && s'.tun.built == s.tun.built
    requires InHandOf(s'.lock) == InHandOf(s.lock)
    ensures TunnelInv(s')
  {
    forall fd: Fd ensures Places(s'.tun, InHandOf(s'.lock), fd) == Places(s.tun, InHandOf(s.lock), fd) {}
  }

  lemma OthersKeep(s: Sys, e: Step)
    requires TunnelInv(s) && Enabled(s, e) && !e.HolderMoves? && !e.Acquire?
    ensures TunnelInv(Apply(s, e))
  {
    OthersTouch(s, e);
    NothingMoved(s, Apply(s, e));
  }

  lemma AcquireKeeps(s: Sys, w: Worker)
    requires TunnelInv(s) && Enabled(s, Acquire(w))
    ensures TunnelInv(TakeLock(s, w))
  {
    NothingMoved(s, TakeLock(s, w));
  }

  lemma EnterKeeps(s: Sys, at: EntryStage)
    requires TunnelInv(s) && IsAt(s, Entering(at))
    ensures TunnelInv(Enter(s, at))
  {
    NothingMoved(s, Enter(s, at));
  }

  lemma StopOldKeeps(s: Sys, call: StopCall)
    requires TunnelInv(s) && IsAt(s, Preparing(StopOld)) && !call.throws
    ensures TunnelInv(StopOldEngine(s, call))
  {
    NothingMoved(s, StopOldEngine(s, call));
  }

  lemma EstablishKeeps(s: Sys, previous: Option<Fd>)
    requires TunnelInv(s) && IsAt(s, Preparing(Establish(previous)))
    ensures TunnelInv(EstablishTunnel(s, DnsOf(s.lock.worker), previous))
  {
    var s' := EstablishTunnel(s, DnsOf(s.lock.worker), previous);
    forall fd: Fd ensures Places(s'.tun, InHandOf(s'.lock), fd) == if fd < |s'.tun.built| then 1 else 0 {
      assert Places(s.tun, InHandOf(s.lock), fd) == if fd < |s.tun.built| then 1 else 0;
    }
  }

  lemma PrepareKeeps(s: Sys, at: PrepareStage, c: Choice)
    requires TunnelInv(s) && IsAt(s, Preparing(at)) && !c.stop.throws
    ensures TunnelInv(Prepare(s, at, c))
  {
    match at
    case LowerFlag => NothingMoved(s, Prepare(s, at, c));
    case StopOld => StopOldKeeps(s, c.stop);
    case Plan => NothingMoved(s, Prepare(s, at, c));
    case Establish(previous) =>
      if c.establishes {
        EstablishKeeps(s, previous);
      } else {
        NothingMoved(s, Prepare(s, at, c));
      }
  }

  lemma MovesWithin(t: Tun, inHand: Option<Fd>, t': Tun, inHand': Option<Fd>)
    requires ConservedIn(t, inHand) && t'.built == t.built
    requires forall fd: Fd :: Places(t', inHand', fd) == Places(t, inHand, fd)
    ensures ConservedIn(t', inHand')
  {
    forall fd: Fd ensures Places(t', inHand', fd) == if fd < |t'.built| then 1 else 0 {
      assert Places(t, inHand, fd) == if fd < |t.built| then 1 else 0;
    }
  }

  lemma InstallKeeps(s: Sys, previous: Option<Fd>, fd: Fd)
    requires TunnelInv(s) && IsAt(s, Replacing(Install, previous, fd))
    ensures TunnelInv(Replace(s, Install, previous, fd))
  {
    var s' := Replace(s, Install, previous, fd);
    MovesWithin(s.tun, InHandOf(s.lock), s'.tun, InHandOf(s'.lock));
    assert StageFits(s');
  }

  lemma CloseKeeps(s: Sys, previous: Option<Fd>, fd: Fd)
    requires TunnelInv(s) && IsAt(s, Replacing(ClosePrevious, previous, fd))
    ensures TunnelInv(Replace(s, ClosePrevious, previous, fd))
  {
    var s' := Replace(s, ClosePrevious, previous, fd);
    MovesWithin(s.tun, InHandOf(s.lock), s'.tun, InHandOf(s'.lock));
    assert StageFits(s');
  }

  lemma ReplaceKeeps(s: Sys, at: ReplaceStage, previous: Option<Fd>, fd: Fd)
    requires TunnelInv(s) && IsAt(s, Replacing(at, previous, fd))
    ensures TunnelInv(Replace(s, at, previous, fd))
  {
    match at
    case Install => InstallKeeps(s, previous, fd);
    case Unmark => NothingMoved(s, Replace(s, at, previous, fd));
    case Publish => NothingMoved(s, Replace(s, at, previous, fd));
    case ClosePrevious => CloseKeeps(s, previous, fd);
  }

  lemma LaunchKeeps(s: Sys, fd: Fd, call: StartCall)
    requires TunnelInv(s) && IsAt(s, Booting(Launch, fd))
    ensures TunnelInv(LaunchEngine(s, fd, call))
  {
    assert Places(s.tun, None, fd) == 1;
    NothingMoved(s, LaunchEngine(s, fd, call));
  }

  lemma BootKeeps(s: Sys, at: BootStage, fd: Fd, c: Choice)
    requires TunnelInv(s) && IsAt(s, Booting(at, fd))
    ensures TunnelInv(Boot(s, at, fd, c))
  {
    if at.Launch? {
      LaunchKeeps(s, fd, c.start);
    } else {
      NothingMoved(s, Boot(s, at, fd, c));
    }
  }

  lemma FinishKeeps(s: Sys, at: FinishStage)
    requires TunnelInv(s) && IsAt(s, Finishing(at))
    ensures TunnelInv(Finish(s, at))
  {
    NothingMoved(s, Finish(s, at));
  }

  lemma FailKeeps(s: Sys, at: FailStage)
    requires TunnelInv(s) && IsAt(s, Failing(at))
    ensures TunnelInv(Fail(s, at))
  {
    NothingMoved(s, Fail(s, at));
  }

  lemma StopKeeps(s: Sys, at: StopStage, thenReject: bool, call: StopCall)
    requires TunnelInv(s) && IsAt(s, Stopping(at, thenReject)) && !call.throws
    ensures TunnelInv(Stop(s, at, thenReject, call))
  {
    NothingMoved(s, Stop(s, at, thenReject, call));
  }

  lemma ClaimKeeps(s: Sys, thenReject: bool)
    requires TunnelInv(s) && s.lock.Held? && s.lock.at.Dropping? && s.lock.at.drop.DropTunnel?
    ensures TunnelInv(Drop(s, DropTunnel, s.lock.at.thenReject, s.lock.at.pfd))
  {
    var s' := Drop(s, DropTunnel, s.lock.at.thenReject, s.lock.at.pfd);
    MovesWithin(s.tun, InHandOf(s.lock), s'.tun, InHandOf(s'.lock));
    assert StageFits(s');
  }

  lemma ReleaseMoves(s: Sys, pfd: Option<Fd>)
    requires ConservedIn(s.tun, pfd)
    ensures ConservedIn(ReleaseDescriptor(s, pfd).tun, None)
    ensures pfd.Some? ==> pfd.value < |s.tun.built| && s.tun.closed[pfd.value] == 0
  {
    MovesWithin(s.tun, pfd, ReleaseDescriptor(s, pfd).tun, None);
    if pfd.Some? {
      assert Places(s.tun, pfd, pfd.value) == if pfd.value < |s.tun.built| then 1 else 0;
    }
  }

  lemma ReleaseKeeps(s: Sys, thenReject: bool, pfd: Option<Fd>)
    requires TunnelInv(s) && IsAt(s, Dropping(ReleaseFd, thenReject, pfd))
    ensures TunnelInv(Drop(s, ReleaseFd, thenReject, pfd))
  {
    ReleaseMoves(s, pfd);
    var s' := Drop(s, ReleaseFd, thenReject, pfd);
    assert s'.tun == ReleaseDescriptor(s, pfd).tun && InHandOf(s'.lock) == None;
  }

  lemma DropKeeps(s: Sys, at: DropStage, thenReject: bool, pfd: Option<Fd>)
    requires TunnelInv(s) && IsAt(s, Dropping(at, thenReject, pfd))
    ensures TunnelInv(Drop(s, at, thenReject, pfd))
  {
    match at
    case DropTunnel => ClaimKeeps(s, thenReject);
    case Unpublish => NothingMoved(s, Drop(s, at, thenReject, pfd));
    case DropFlag => NothingMoved(s, Drop(s, at, thenReject, pfd));
    case ReleaseFd => ReleaseKeeps(s, thenReject, pfd);
  }

  lemma LeaveKeeps(s: Sys, at: LeaveStage)
    requires TunnelInv(s) && IsAt(s, Leaving(at))
    ensures TunnelInv(Leave(s, at))
  {
    NothingMoved(s, Leave(s, at));
  }

  lemma HolderKeeps(s: Sys, c: Choice)
    requires TunnelInv(s) && Enabled(s, HolderMoves(c))
    ensures TunnelInv(Advance(s, c))
  {
    match s.lock.at
    case Entering(at) => EnterKeeps(s, at);
    case Preparing(at) => PrepareKeeps(s, at, c);
    case Replacing(at, previous, fd) => ReplaceKeeps(s, at, previous, fd);
    case Booting(at, fd) => BootKeeps(s, at, fd, c);
    case Finishing(at) => FinishKeeps(s, at);
    case Failing(at) => FailKeeps(s, at);
    case Stopping(at, thenReject) => StopKeeps(s, at, thenReject, c.stop);
    case Dropping(at, thenReject, pfd) => DropKeeps(s, at, thenReject, pfd);
    case Leaving(at) => LeaveKeeps(s, at);
  }

  lemma StepKeeps(s: Sys, e: Step)
    requires TunnelInv(s) && Enabled(s, e)
    ensures TunnelInv(Apply(s, e))
  {
    if e.HolderMoves? {
      HolderKeeps(s, e.choice);
    } else if e.Acquire? {
      AcquireKeeps(s, e.worker);
    } else {
      OthersKeep(s, e);
    }
  }

  lemma {:induction false} RunKeeps(s: Sys, es: seq<Step>)
    requires TunnelInv(s) && Runs(s, es)
    ensures TunnelInv(After(s, es))
    decreases |es|
  {
    if es != [] {
      StepKeeps(s, es[0]);
      RunKeeps(Apply(s, es[0]), es[1..]);
    }
  }

  lemma InitHolds()
    ensures TunnelInv(INIT)
  {
    forall fd: Fd ensures Places(INIT.tun, None, fd) == 0 {}
  }

  // --- descriptors ---------------------------------------------------------

  /**
   * Descriptor conservation. Whenever engineLock is free, every descriptor ever established
   * is exactly one of: the current tunnel, closed exactly once, parked for good.
   */
  lemma DescriptorsConserved(es: seq<Step>, fd: Fd)
    requires Runs(INIT, es)
    ensures var s := After(INIT, es);
      s.lock == Free ==>
        (if s.tun.tunnel == Some(fd) then 1 else 0) + s.tun.closed[fd] + s.tun.parked[fd]
        == (if fd < |s.tun.built| then 1 else 0)
  {
    InitHolds();
    RunKeeps(INIT, es);
    var s := After(INIT, es);
    assert Places(s.tun, InHandOf(s.lock), fd) == if fd < |s.tun.built| then 1 else 0;
  }

  /** The stop of an instance goes through to Go, whose Close then reports an error. */
  predicate FailsToClose(engine: EngineState, timeout: nat, call: StopCall) {
    !engine.isWedged && !AliveAt(call, timeout) && GotLock(call.lockFreeAt) && !call.throws && call.closeFails
  }

  /** The instance that this step closes with an error. */
  predicate ClosesBadly(s: Sys, e: Step) {
    s.engine.running.Some? &&
    match e
    case LateStop(closeFails) => closeFails
    case HolderMoves(c) =>
      (IsAt(s, Preparing(StopOld)) || (s.lock.Held? && s.lock.at.Stopping? && s.lock.at.stop.StopEngine?))
      && FailsToClose(s.engine, ENGINE_STOP_TIMEOUT_MS, c.stop)
    case _ => false
  }

  /** The descriptors of all instances that a run closes with an error. */
  function FailedCloses(s: Sys, es: seq<Step>): set<Fd>
    requires Runs(s, es)
    decreases |es|
  {
    if es == [] then {}
    else (if ClosesBadly(s, es[0]) then {s.engine.running.value} else {}) + FailedCloses(Apply(s, es[0]), es[1..])
  }

  lemma HolderOnLingering(s: Sys, c: Choice)
    requires s.lock.Held? && s.engine.running.Some?
    ensures Advance(s, c).engine.lingering ==
      s.engine.lingering + if ClosesBadly(s, HolderMoves(c)) then {s.engine.running.value} else {}
  {
    match s.lock.at
    case Preparing(at) => assert Advance(s, c) == Prepare(s, at, c);
    case Stopping(at, thenReject) => assert Advance(s, c) == Stop(s, at, thenReject, c.stop);
    case Dropping(at, thenReject, pfd) => DroppingTouches(s, at, thenReject, pfd);
    case _ =>
  }

  lemma StepOnLingering(s: Sys, e: Step)
    requires Enabled(s, e)
    ensures Apply(s, e).engine.lingering ==
      s.engine.lingering + if ClosesBadly(s, e) then {s.engine.running.value} else {}
  {
    if e.HolderMoves? {
      if s.engine.running.Some? {
        HolderOnLingering(s, e.choice);
      }
    } else if !e.Acquire? && !e.LateStop? {
      OthersTouch(s, e);
    }
  }

  lemma {:induction false} RunOnLingering(s: Sys, es: seq<Step>)
    requires Runs(s, es)
    ensures After(s, es).engine.lingering == s.engine.lingering + FailedCloses(s, es)
    decreases |es|
  {
    if es != [] {
      StepOnLingering(s, es[0]);
      RunOnLingering(Apply(s, es[0]), es[1..]);
    }
  }

  /**
   * When a descriptor that something inside Go may still use has been closed: exactly when the
   * Close of an instance on it reported an error and the descriptor has left the tunnel since
   * without being parked. The descriptor of the instance Go knows of is never closed.
   */
  lemma ClosedWhileInUse(es: seq<Step>, fd: Fd)
    requires Runs(INIT, es)
    ensures var s := After(INIT, es);
      && (MayUse(s.engine, fd) && s.tun.closed[fd] > 0 <==>
            fd in FailedCloses(INIT, es) &&
            s.tun.tunnel != Some(fd) && s.tun.parked[fd] == 0 && InHandOf(s.lock) != Some(fd))
      && (s.engine.running == Some(fd) ==> s.tun.closed[fd] == 0)
  {
    InitHolds();
    RunKeeps(INIT, es);
    RunOnLingering(INIT, es);
    var s := After(INIT, es);
    assert Places(s.tun, InHandOf(s.lock), fd) == if fd < |s.tun.built| then 1 else 0;
  }

  /** As long as every Close succeeds, no descriptor in use is closed, at any instant of any run. */
  lemma InUseNeverClosed(es: seq<Step>, fd: Fd)
    requires Runs(INIT, es) && FailedCloses(INIT, es) == {}
    ensures MayUse(After(INIT, es).engine, fd) ==> After(INIT, es).tun.closed[fd] == 0
  {
    ClosedWhileInUse(es, fd);
  }

  // --- flags ---------------------------------------------------------------

  /**
   * The public flags. At every instant `isEngineRunning` vouches for a live engine on the current
   * tunnel; the other way round, and for `isRunning`, there are short moments inside the lock in
   * which a change is made and not yet published. With the lock free all of them agree.
   */
  lemma FlagsAgree(es: seq<Step>)
    requires Runs(INIT, es)
    ensures var s := After(INIT, es);
      && (s.isEngineRunning ==> s.tun.tunnel.Some? && s.engine.running == s.tun.tunnel && !s.engine.isWedged)
      && (s.engine.running.Some? ==> s.isEngineRunning || s.engine.isWedged || Hidden(s.lock))
      && (s.tun.isRunning == s.tun.tunnel.Some? || Unsettled(s.lock))
      && (s.tun.tunnel.Some? ==>
            s.tun.tunnel.value < |s.tun.built| && s.tun.activeDns == Some(s.tun.built[s.tun.tunnel.value]))
    ensures var s := After(INIT, es);
      s.lock == Free ==>
        && s.tun.isRunning == s.tun.tunnel.Some? == s.tun.activeDns.Some?
        && (s.engine.running.Some? ==> s.isEngineRunning || s.engine.isWedged)
  {
    InitHolds();
    RunKeeps(INIT, es);
  }

  // --- releasing and replacing ---------------------------------------------

  /** Between two states: a descriptor is closed only with the engine stopped, and parked only with it wedged. */
  predicate ReleasesSafely(s: Sys, s': Sys, fd: Fd) {
    && (s'.tun.closed[fd] > s.tun.closed[fd] ==> Halted(s.engine))
    && (s'.tun.parked[fd] > s.tun.parked[fd] ==> s.engine.isWedged && s'.tun.tunnel.None?)
    && s'.tun.closed[fd] >= s.tun.closed[fd] && s'.tun.parked[fd] >= s.tun.parked[fd]
  }

  lemma DroppingReleases(s: Sys, at: DropStage, thenReject: bool, pfd: Option<Fd>, fd: Fd)
    requires TunnelInv(s) && IsAt(s, Dropping(at, thenReject, pfd))
    ensures ReleasesSafely(s, Drop(s, at, thenReject, pfd), fd)
  {
  }

  lemma ReplacingReleases(s: Sys, at: ReplaceStage, previous: Option<Fd>, pfd: Fd, fd: Fd)
    requires TunnelInv(s) && IsAt(s, Replacing(at, previous, pfd))
    ensures ReleasesSafely(s, Replace(s, at, previous, pfd), fd)
  {
  }

  lemma NothingReleased(s: Sys, c: Choice)
    requires s.lock.Held? && !s.lock.at.Dropping? && !s.lock.at.Replacing?
    ensures Advance(s, c).tun.closed == s.tun.closed && Advance(s, c).tun.parked == s.tun.parked
  {
  }

  lemma HolderReleases(s: Sys, c: Choice, fd: Fd)
    requires TunnelInv(s) && Enabled(s, HolderMoves(c))
    ensures ReleasesSafely(s, Advance(s, c), fd)
  {
    match s.lock.at
    case Dropping(at, thenReject, pfd) => DroppingReleases(s, at, thenReject, pfd, fd);
    case Replacing(at, previous, pfd) => ReplacingReleases(s, at, previous, pfd, fd);
    case _ => NothingReleased(s, c);
  }

  /** A step that closes a descriptor finds the engine already stopped; one that parks it, wedged. */
  lemma ReleasedOnlyWhenSafe(s: Sys, e: Step, fd: Fd)
    requires TunnelInv(s) && Enabled(s, e)
    ensures var s' := Apply(s, e);
      && (s'.tun.closed[fd] > s.tun.closed[fd] ==> Halted(s.engine))
      && (s'.tun.parked[fd] > s.tun.parked[fd] ==> s.engine.isWedged && s'.tun.tunnel.None?)
      && s'.tun.closed[fd] >= s.tun.closed[fd] && s'.tun.parked[fd] >= s.tun.parked[fd]
  {
    if e.HolderMoves? {
      HolderReleases(s, e.choice, fd);
    } else if !e.Acquire? {
      OthersTouch(s, e);
    }
  }

  /** A switch installs the new interface before the old one is closed. */
  lemma InstalledBeforeClosed(s: Sys, c: Choice)
    requires TunnelInv(s) && Enabled(s, HolderMoves(c)) && s.lock.at.Replacing? && s.lock.at.replace.ClosePrevious?
    ensures var s' := Advance(s, c);
      && s.tun.tunnel == Some(s.lock.at.fd) && s.lock.at.previous != s.tun.tunnel && s.tun.isRunning
      && s'.tun.tunnel == s.tun.tunnel
      && s.tun.built[s.lock.at.fd] == DnsOf(s.lock.worker)
      && (s.lock.at.previous.Some? ==> s'.tun.closed[s.lock.at.previous.value] == 1)
  {
    if s.lock.at.previous.Some? {
      var fd := s.lock.at.previous.value;
      assert Places(s.tun, InHandOf(s.lock), fd) == if fd < |s.tun.built| then 1 else 0;
    }
  }

  // --- a wedged engine -----------------------------------------------------

  lemma WedgedHolder(s: Sys, c: Choice)
    requires TunnelInv(s) && Enabled(s, HolderMoves(c)) && s.engine.isWedged
    ensures var s' := Advance(s, c);
      s'.engine == s.engine && !s'.isEngineRunning && s'.tun.closed == s.tun.closed
  {
    match s.lock.at
    case Dropping(at, thenReject, pfd) => assert Advance(s, c) == Drop(s, at, thenReject, pfd);
    case Preparing(at) => assert Advance(s, c) == Prepare(s, at, c);
    case _ =>
  }

  lemma WedgedStep(s: Sys, e: Step)
    requires TunnelInv(s) && Enabled(s, e) && s.engine.isWedged
    ensures var s' := Apply(s, e);
      && s'.engine.isWedged && (s'.engine.running == s.engine.running || s'.engine.running.None?)
      && !s'.isEngineRunning && s'.tun.closed == s.tun.closed
  {
    if e.HolderMoves? {
      WedgedHolder(s, e.choice);
    } else if !e.Acquire? {
      OthersTouch(s, e);
    }
  }

  /** Wedged is absorbing: from then on no start reaches Go and no descriptor is closed. */
  lemma {:induction false} WedgedForGood(s: Sys, es: seq<Step>)
    requires TunnelInv(s) && s.engine.isWedged && Runs(s, es)
    ensures var s' := After(s, es);
      && s'.engine.isWedged && (s'.engine.running == s.engine.running || s'.engine.running.None?)
      && !s'.isEngineRunning && s'.tun.closed == s.tun.closed
    decreases |es|
  {
    if es != [] {
      WedgedStep(s, es[0]);
      StepKeeps(s, es[0]);
      WedgedForGood(Apply(s, es[0]), es[1..]);
    }
  }
}
