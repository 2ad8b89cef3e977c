/**
 * What becomes of a START that fails, in every run: exactly when it holds the tunnel, and that it
 * gives everything up otherwise.
 */
module FailedStart {
  import opened Options
  import opened StateBus
  import opened Engine
  import opened Protocol
  import opened Tunnel
  import opened Promises
  import opened Interference
  import opened Tenure

  // --- giving the tunnel up --------------------------------------------------

  /** All is down, and the descriptor there was has been parked or closed, once. */
  predicate GivenUp(fd: Option<Fd>, s: Sys) {
    && TunnelIsDown(s)
    && (fd.Some? ==>
          && s.tun.parked[fd.value] == (if s.engine.isWedged then 1 else 0)
          && s.tun.closed[fd.value] == (if s.engine.isWedged then 0 else 1))
  }

  /** A START is tearing down, `fd` being the tunnel it has found. */
  predicate TearingDown(s: Sys, fd: Option<Fd>) {
    s.lock.Held? && s.lock.worker.StartWorker? &&
    match s.lock.at
    case Stopping(_, thenReject) =>
      s.tun.tunnel == fd && (thenReject || IsSettled(s.bus, TokenOf(s.lock.worker)))
    case Dropping(at, thenReject, pfd) =>
      fd == (if at.DropTunnel? then s.tun.tunnel else pfd) &&
      (thenReject || IsSettled(s.bus, TokenOf(s.lock.worker)))
    case Leaving(_) => GivenUp(fd, s)
    case _ => false
  }

  /** The START has gone, everything is down, and the start it took along is settled, not with success. */
  predicate LeftDown(s: Sys, fd: Option<Fd>, s': Sys)
    requires s.lock.Held?
  {
    s'.lock == Free && GivenUp(fd, s') && IsSettled(s'.bus, TokenOf(s.lock.worker))
  }

  /** The holder has moved within its teardown, or is done with it. */
  predicate TearsOn(s: Sys, fd: Option<Fd>, s': Sys)
    requires s.lock.Held?
  {
    && s'.bus.settledOk == s.bus.settledOk
    && (LeftDown(s, fd, s') || (TearingDown(s', fd) && s'.lock.worker == s.lock.worker))
  }

  lemma StoppingTearsOn(s: Sys, c: Choice, fd: Option<Fd>)
    requires Sound(s) && TearingDown(s, fd) && s.lock.at.Stopping? && Enabled(s, HolderMoves(c))
    ensures TearsOn(s, fd, Advance(s, c))
  {
    assert Advance(s, c) == Stop(s, s.lock.at.stop, s.lock.at.thenReject, c.stop);
  }

  /** Before it is released, a descriptor in hand is neither closed nor parked. */
  lemma InHandIsOpen(s: Sys, fd: Fd)
    requires Conserved(s) && InHandOf(s.lock) == Some(fd)
    ensures s.tun.closed[fd] == 0 && s.tun.parked[fd] == 0
  {
    assert Places(s.tun, InHandOf(s.lock), fd) <= 1;
  }

  lemma ReleasingTearsOn(s: Sys, c: Choice, fd: Option<Fd>)
    requires Sound(s) && TearingDown(s, fd) && Enabled(s, HolderMoves(c))
    requires s.lock.at.Dropping? && s.lock.at.drop.ReleaseFd? && s.lock.at.pfd == fd
    ensures TearsOn(s, fd, Advance(s, c))
  {
    if fd.Some? {
      InHandIsOpen(s, fd.value);
    }
    assert Advance(s, c) == AfterTeardown(ReleaseDescriptor(s, fd), s.lock.worker, s.lock.at.thenReject);
  }

  lemma DroppingTearsOn(s: Sys, c: Choice, fd: Option<Fd>)
    requires Sound(s) && TearingDown(s, fd) && s.lock.at.Dropping? && Enabled(s, HolderMoves(c))
    ensures TearsOn(s, fd, Advance(s, c))
  {
    if s.lock.at.drop.ReleaseFd? {
      ReleasingTearsOn(s, c, fd);
    } else {
      assert Advance(s, c) == Drop(s, s.lock.at.drop, s.lock.at.thenReject, s.lock.at.pfd);
    }
  }

  /** What is rejected is settled. */
  lemma Rejected(s: Sys)
    requires PromiseInv(s) && s.lock.Held?
    ensures IsSettled(Settle(s, false).bus, TokenOf(s.lock.worker)) && Settle(s, false).bus.settledOk == s.bus.settledOk
  {
  }

  lemma LeavingTearsOn(s: Sys, c: Choice, fd: Option<Fd>)
    requires Sound(s) && TearingDown(s, fd) && s.lock.at.Leaving? && Enabled(s, HolderMoves(c))
    ensures TearsOn(s, fd, Advance(s, c))
  {
    Rejected(s);
    assert Advance(s, c) == Leave(s, s.lock.at.leave);
  }

  lemma TeardownMove(s: Sys, c: Choice, fd: Option<Fd>)
    requires Sound(s) && TearingDown(s, fd) && Enabled(s, HolderMoves(c))
    ensures TearsOn(s, fd, Advance(s, c)) && ReportsNow(s, HolderMoves(c)) == []
  {
    if s.lock.at.Stopping? {
      StoppingTearsOn(s, c, fd);
    } else if s.lock.at.Dropping? {
      DroppingTearsOn(s, c, fd);
    } else {
      LeavingTearsOn(s, c, fd);
    }
  }

  lemma StillTearingDown(s: Sys, fd: Option<Fd>, s': Sys)
    requires TearingDown(s, fd) && SameForHolder(s, s')
    ensures TearingDown(s', fd)
  {
  }

  /** However a START has come to tear down: it reports nothing more and leaves everything down. */
  lemma {:induction false} TeardownEnds(s: Sys, es: seq<Step>, fd: Option<Fd>)
    requires Sound(s) && TearingDown(s, fd) && UntilFree(s, es)
    ensures LeftDown(s, fd, After(s, es)) && After(s, es).bus.settledOk == s.bus.settledOk && Reported(s, es) == []
    decreases |es|
  {
    var c, rest := NextMove(s, es);
    var mid := AtMove(s, es, 0);
    StillTearingDown(s, fd, mid);
    TeardownMove(mid, c, fd);
    var s' := Advance(mid, c);
    SoundStep(mid, HolderMoves(c));
    if s'.lock != Free {
      TeardownEnds(s', rest, fd);
    }
  }

  // --- holding it, or not ----------------------------------------------------

  /** How a failed START ends: with the tunnel held and 'blocked', or with everything down and 'error'. */
  predicate Ends(s: Sys, es: seq<Step>, held: bool)
    requires Runs(s, es) && s.lock.Held?
  {
    var s' := After(s, es);
    && s'.bus.settledOk == s.bus.settledOk && IsSettled(s'.bus, TokenOf(s.lock.worker))
    && if held then SameTunnel(s, s') && s'.tun.tunnel.Some? && !s'.isEngineRunning else GivenUp(s.tun.tunnel, s')
  }

  /** The move has looked at something or told something, no more. */
  predicate OnlyLooked(s: Sys, s': Sys)
    requires s.lock.Held?
  {
    s' == s.(lock := s'.lock, last := s'.last) && s'.lock.Held? && s'.lock.worker == s.lock.worker
  }

  /** The end after such a move is the end before it. */
  lemma EndsAlike(s: Sys, es: seq<Step>, mid: Sys, s1: Sys, rest: seq<Step>, held: bool)
    requires Runs(s, es) && Runs(s1, rest) && After(s, es) == After(s1, rest) && s.lock.Held?
    requires SameForHolder(s, mid) && OnlyLooked(mid, s1) && Ends(s1, rest, held)
    ensures Ends(s, es, held)
  {
  }

  /** The moves that only tell, or write the flag that is down already. */
  lemma FailMove(s: Sys, c: Choice, state: Emitted, next: FailStage)
    requires Sound(s) && s.lock.Held?
    requires
      (s.lock.at == Failing(AnnounceError) && state == Failed && next == ResolveError) ||
      (s.lock.at == Failing(AnnounceHold) && state == Blocked && next == ResolveHold) ||
      (s.lock.at == Failing(HoldFlag) && state == Nothing && next == AnnounceHold)
    ensures OnlyLooked(s, Advance(s, c)) && IsAt(Advance(s, c), Failing(next))
    ensures ReportsNow(s, HolderMoves(c)) == if state == Nothing then [] else [state]
  {
    assert Advance(s, c) == Fail(s, s.lock.at.fail);
  }

  lemma ErrorIsReported(s: Sys, es: seq<Step>)
    requires Sound(s) && UntilFree(s, es) && IsAt(s, Failing(AnnounceError))
    ensures Ends(s, es, false) && Reported(s, es) == [Failed]
  {
    var c, rest := NextMove(s, es);
    var mid := AtMove(s, es, 0);
    var s1 := Advance(mid, c);
    SoundStep(mid, HolderMoves(c));
    FailMove(mid, c, Failed, ResolveError);
    ErrorIsSettled(s1, rest);
    EndsAlike(s, es, mid, s1, rest, false);
  }

  lemma ErrorIsRejected(s: Sys, c: Choice)
    requires Sound(s) && IsAt(s, Failing(ResolveError))
    ensures TearingDown(Advance(s, c), s.tun.tunnel) && Advance(s, c).bus.settledOk == s.bus.settledOk
    ensures Advance(s, c).lock.worker == s.lock.worker
  {
    Rejected(s);
    assert Advance(s, c) == Goto(Settle(s, false), Stopping(StopFlag, false));
  }

  lemma ErrorIsSettled(s: Sys, es: seq<Step>)
    requires Sound(s) && UntilFree(s, es) && IsAt(s, Failing(ResolveError))
    ensures Ends(s, es, false) && Reported(s, es) == []
  {
    var c, rest := NextMove(s, es);
    var mid := AtMove(s, es, 0);
    var s1 := Advance(mid, c);
    SoundStep(mid, HolderMoves(c));
    ErrorIsRejected(mid, c);
    TeardownEnds(s1, rest, s.tun.tunnel);
  }

  lemma HoldIsRejected(s: Sys, c: Choice)
    requires Sound(s) && IsAt(s, Failing(ResolveHold))
    ensures var s' := Advance(s, c);
      && s' == s.(bus := s'.bus, lock := Free) && s.tun.tunnel.Some? && !s.isEngineRunning
      && IsSettled(s'.bus, TokenOf(s.lock.worker)) && s'.bus.settledOk == s.bus.settledOk
  {
    Rejected(s);
    assert Advance(s, c) == Release(Settle(s, false));
  }

  lemma HoldIsSettled(s: Sys, es: seq<Step>)
    requires Sound(s) && UntilFree(s, es) && IsAt(s, Failing(ResolveHold))
    ensures Ends(s, es, true) && Reported(s, es) == []
  {
    var c, rest := NextMove(s, es);
    HoldIsRejected(AtMove(s, es, 0), c);
    NothingMore(Advance(AtMove(s, es, 0), c), rest);
  }

  lemma HoldIsReported(s: Sys, es: seq<Step>)
    requires Sound(s) && UntilFree(s, es) && IsAt(s, Failing(AnnounceHold))
    ensures Ends(s, es, true) && Reported(s, es) == [Blocked]
  {
    var c, rest := NextMove(s, es);
    var mid := AtMove(s, es, 0);
    var s1 := Advance(mid, c);
    SoundStep(mid, HolderMoves(c));
    FailMove(mid, c, Blocked, ResolveHold);
    HoldIsSettled(s1, rest);
    EndsAlike(s, es, mid, s1, rest, true);
  }

  lemma Holds(s: Sys, es: seq<Step>)
    requires Sound(s) && UntilFree(s, es) && IsAt(s, Failing(HoldFlag))
    ensures Ends(s, es, true) && Reported(s, es) == [Blocked]
  {
    var c, rest := NextMove(s, es);
    var mid := AtMove(s, es, 0);
    var s1 := Advance(mid, c);
    SoundStep(mid, HolderMoves(c));
    FailMove(mid, c, Nothing, AnnounceHold);
    HoldIsReported(s1, rest);
    EndsAlike(s, es, mid, s1, rest, true);
  }

  /** What a failed START does and says. */
  predicate EndsWith(s: Sys, es: seq<Step>, held: bool)
    requires Runs(s, es) && s.lock.Held?
  {
    Ends(s, es, held) && Reported(s, es) == [if held then Blocked else Failed]
  }

  lemma LooksForDestroy(s: Sys, es: seq<Step>)
    requires Sound(s) && UntilFree(s, es) && IsAt(s, Failing(FailAlive))
    ensures EndsWith(s, es, !AtMove(s, es, 0).flags.destroyed)
  {
    var c, rest := NextMove(s, es);
    var mid := AtMove(s, es, 0);
    var s1 := Advance(mid, c);
    SoundStep(mid, HolderMoves(c));
    if mid.flags.destroyed {
      ErrorIsReported(s1, rest);
    } else {
      Holds(s1, rest);
    }
    EndsAlike(s, es, mid, s1, rest, !mid.flags.destroyed);
  }

  lemma LooksForMark(s: Sys, es: seq<Step>)
    requires Sound(s) && UntilFree(s, es) && IsAt(s, Failing(FailRevoked))
    ensures EndsWith(s, es, !AtMove(s, es, 0).flags.tunnelRevoked && !AtMove(s, es, 1).flags.destroyed)
  {
    var c, rest := NextMove(s, es);
    var mid := AtMove(s, es, 0);
    var s1 := Advance(mid, c);
    SoundStep(mid, HolderMoves(c));
    assert AtMove(s, es, 0 + 1) == AtMove(s1, rest, 0);
    if mid.flags.tunnelRevoked {
      ErrorIsReported(s1, rest);
    } else {
      LooksForDestroy(s1, rest);
    }
    EndsAlike(s, es, mid, s1, rest, !mid.flags.tunnelRevoked && !AtMove(s, es, 1).flags.destroyed);
  }

  /** When the START that has failed here will hold the tunnel, by what it finds at its next three moves. */
  predicate WillHold(s: Sys, es: seq<Step>)
    requires Runs(s, es)
  {
    var atSwitch, atMark, atDestroyed := AtMove(s, es, 0), AtMove(s, es, 1), AtMove(s, es, 2);
    && atSwitch.flags.killSwitch && atSwitch.tun.tunnel.Some?
    && !atMark.flags.tunnelRevoked && !atDestroyed.flags.destroyed
  }

  lemma LooksForSwitch(s: Sys, es: seq<Step>)
    requires Sound(s) && UntilFree(s, es) && IsAt(s, Failing(FailKillSwitch))
    ensures EndsWith(s, es, WillHold(s, es))
  {
    var c, rest := NextMove(s, es);
    var mid := AtMove(s, es, 0);
    var s1 := Advance(mid, c);
    SoundStep(mid, HolderMoves(c));
    assert AtMove(s, es, 0 + 1) == AtMove(s1, rest, 0) && AtMove(s, es, 1 + 1) == AtMove(s1, rest, 1);
    if mid.flags.killSwitch && mid.tun.tunnel.Some? {
      LooksForMark(s1, rest);
    } else {
      ErrorIsReported(s1, rest);
    }
    EndsAlike(s, es, mid, s1, rest, WillHold(s, es));
  }

  // --- every failure ---------------------------------------------------------

  /** The START fails here: the old engine wedges, no interface is granted, the bypass or the engine does not start. */
  predicate Fails(s: Sys, c: Choice)
    requires s.lock.Held?
  {
    match s.lock.at
    case Preparing(at) =>
      (at.StopOld? && (s.engine.isWedged || AliveAt(c.stop, ENGINE_STOP_TIMEOUT_MS))) ||
      (at.Establish? && !c.establishes)
    case Booting(at, _) =>
      (at.StartBypass? && s.lock.worker.StartWorker? && s.lock.worker.fromStore && !c.bypassStarts) ||
      (at.Launch? && (s.engine.isWedged || !GotLock(c.start.lockFreeAt) || c.start.code != 0))
    case _ => false
  }

  lemma PreparingFails(s: Sys, at: PrepareStage, c: Choice)
    requires IsAt(s, Preparing(at))
    ensures IsAt(Prepare(s, at, c), Failing(FailKillSwitch)) <==> Fails(s, c)
    ensures Fails(s, c) ==> OnlyEngine(s, Prepare(s, at, c))
  {
  }

  lemma BootingFails(s: Sys, at: BootStage, fd: Fd, c: Choice)
    requires Sound(s) && IsAt(s, Booting(at, fd))
    ensures IsAt(Boot(s, at, fd, c), Failing(FailKillSwitch)) <==> Fails(s, c)
    ensures Fails(s, c) ==> OnlyEngine(s, Boot(s, at, fd, c))
  {
  }

  lemma NothingElseFails(s: Sys, c: Choice)
    requires s.lock.Held? && !s.lock.at.Preparing? && !s.lock.at.Booting?
    ensures !IsAt(Advance(s, c), Failing(FailKillSwitch))
  {
  }

  predicate OnlyEngine(s: Sys, s': Sys)
    requires s.lock.Held?
  {
    s' == s.(lock := s'.lock, engine := s'.engine) && s'.lock.Held? && s'.lock.worker == s.lock.worker
  }

  /** A START reaches handleStartFailure by these failures and by nothing else. */
  lemma FailsExactly(s: Sys, c: Choice)
    requires Sound(s) && Enabled(s, HolderMoves(c))
    ensures IsAt(Advance(s, c), Failing(FailKillSwitch)) <==> Fails(s, c)
    ensures Fails(s, c) ==> OnlyEngine(s, Advance(s, c))
  {
    match s.lock.at
    case Preparing(at) => PreparingFails(s, at, c);
    case Booting(at, fd) => BootingFails(s, at, fd, c);
    case _ => NothingElseFails(s, c);
  }

  /**
   * What becomes of a START that fails, however it fails and whatever the others do. It holds the
   * tunnel if and only if, when it looks, the kill switch is on and there is a tunnel, then that is
   * not marked as revoked, and then the service is not destroyed: it reports 'blocked' and changes
   * nothing. Otherwise it reports 'error' and everything is down, with the descriptor closed, or
   * parked when the engine is wedged, once. Either way its start is settled, and none with success.
   */
  lemma HoldsExactly(before: seq<Step>, s: Sys, c: Choice, es: seq<Step>)
    requires Leads(INIT, before, s) && Enabled(s, HolderMoves(c)) && Fails(s, c) && UntilFree(Advance(s, c), es)
    ensures var s1 := Advance(s, c);
      var s', held := After(s1, es), WillHold(s1, es);
      && (s'.tun.tunnel.Some? <==> held)
      && Reported(s1, es) == [if held then Blocked else Failed]
      && !s'.isEngineRunning
      && (if held then SameTunnel(s1, s') && s'.tun.tunnel == s.tun.tunnel else GivenUp(s.tun.tunnel, s'))
      && s'.bus.settledOk == s.bus.settledOk && IsSettled(s'.bus, TokenOf(s.lock.worker))
  {
    Reached(before);
    FailsExactly(s, c);
    SoundStep(s, HolderMoves(c));
    LooksForSwitch(Advance(s, c), es);
  }
}
