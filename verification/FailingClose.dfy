/**
 * A Close that reports an error. The service ignores that result and releases the descriptor, so
 * there are runs in which a descriptor is closed that something inside Go may still use.
 */
module FailingClose {
  import opened Options
  import opened StateBus
  import opened Engine
  import opened Protocol
  import opened Tunnel
  import opened StateReports
  import opened Undisturbed

  /** The stop returns in time, and the Close behind it reports an error. */
  const BAD_CLOSE := GOOD.(stop := StopCall(At(0), At(0), false, true))

  /** Go has forgotten the instance; the instance has not let go of its descriptor. */
  function Forgotten(s: Sys, fd: Fd): Sys {
    s.(isEngineRunning := false, engine := s.engine.(running := None, lingering := s.engine.lingering + {fd}))
  }

  lemma CloseFails(s: Sys, w: Worker, fd: Fd)
    requires s.lock == Held(w, Stopping(StopEngine, false)) && !s.isEngineRunning
    requires s.engine.running == Some(fd) && !s.engine.isWedged
    ensures Advance(s, BAD_CLOSE) == Forgotten(s, fd).(lock := Held(w, Dropping(DropTunnel, false, None)))
  {
  }

  /** From the lock to the step in which the engine is stopped. */
  lemma StopComesToEngine(s: Sys, w: Worker)
    requires s.lock == Held(w, Entering(CheckSeq)) && w.StopWorker? && w.seqNo == s.flags.commandSeq
    ensures GoOn(s, 3) == s.(bus := Resolve(s.bus, TokenOf(w), false), isEngineRunning := false,
                             lock := Held(w, Stopping(StopEngine, false)))
  {
    StopPreempts(s, w);
    OneMove(GoOn(s, 2), Advance(GoOn(s, 2), GOOD), 0);
    NoMove(Advance(GoOn(s, 2), GOOD));
    GoOnAdds(s, 2, 1);
  }

  /** A STOP with the lock, whose Close fails, closes the descriptor in use. */
  lemma StopClosesInUse(s: Sys, w: Worker, fd: Fd) returns (es: seq<Step>)
    requires s.lock == Held(w, Entering(CheckSeq)) && w.StopWorker? && w.seqNo == s.flags.commandSeq
    requires s.engine.running == s.tun.tunnel == Some(fd) && !s.engine.isWedged
    ensures Runs(s, es) && MayUse(After(s, es).engine, fd) && After(s, es).tun.closed[fd] > 0
  {
    var stop, dropping := GoOn(s, 3), Advance(GoOn(s, 3), BAD_CLOSE);
    StopComesToEngine(s, w);
    CloseFails(stop, w, fd);
    TunnelIsDropped(dropping, w);
    var first := GoingOnIsARun(s, 3);
    var last := GoingOnIsARun(dropping, 4);
    ThenStep(s, first, stop, HolderMoves(BAD_CLOSE), dropping);
    Joined(s, first + [HolderMoves(BAD_CLOSE)], dropping, last, GoOn(dropping, 4));
    es := first + [HolderMoves(BAD_CLOSE)] + last;
  }

  /**
   * From every state at rest with a live engine on the tunnel: there is a run, a single STOP, after
   * which the descriptor has been closed and may still be used from inside Go.
   */
  lemma ClosesInUse(s: Sys, fd: Fd) returns (es: seq<Step>)
    requires AtRest(s) && s.engine.running == s.tun.tunnel == Some(fd) && !s.engine.isWedged
    ensures Runs(s, es) && MayUse(After(s, es).engine, fd) && After(s, es).tun.closed[fd] > 0
  {
    var w := StopWorker(s.flags.commandSeq + 1, s.bus.pendingStartToken);
    var delivered, mail := StopIsDelivered(s);
    var dispatched := StopGetsLock(s, mail, w);
    var work := Undisturbed.StopAtWork(s, w, mail);
    var worked := StopClosesInUse(work, w, fd);
    Joined(s, delivered, StopSent(s, mail), dispatched, work);
    Joined(s, delivered + dispatched, work, worked, After(work, worked));
    es := delivered + dispatched + worked;
  }

  /** Such a state is reached from the beginning: connect, disconnect, and the one Close has failed. */
  lemma FirstDisconnectClosesInUse(dns: Dns) returns (es: seq<Step>)
    ensures Runs(INIT, es)
    ensures exists fd ::
      fd in FailedCloses(INIT, es) && MayUse(After(INIT, es).engine, fd) && After(INIT, es).tun.closed[fd] > 0
  {
    var up := UndisturbedStart(INIT, dns);
    var s := After(INIT, up);
    var fd := s.tun.tunnel.value;
    var stop := ClosesInUse(s, fd);
    Joined(INIT, up, s, stop, After(s, stop));
    es := up + stop;
    ClosedWhileInUse(es, fd);
  }
}
