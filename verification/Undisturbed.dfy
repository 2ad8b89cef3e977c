/**
 * Commands that nothing interferes with: a start reaches 'connected' and resolves, a stop
 * reaches 'disconnected', from every state at rest.
 */
module Undisturbed {
  import opened Options
  import opened StateBus
  import opened Engine
  import opened Protocol
  import opened Tunnel
  import opened StateReports

  /** The engine stops and starts at once, the system hands out a descriptor. */
  const GOOD := Choice(StopCall(At(0), At(0), false, false), StartCall(At(0), 0), true, true)

  /** The lock holder is given `k` moves, or fewer if it is done sooner. */
  function GoOn(s: Sys, k: nat): Sys
    decreases k
  {
    if k == 0 || s.lock == Free then s else GoOn(Advance(s, GOOD), k - 1)
  }

  lemma FirstStep(s: Sys, e: Step, es: seq<Step>)
    requires Enabled(s, e) && Runs(Apply(s, e), es)
    ensures Runs(s, [e] + es) && After(s, [e] + es) == After(Apply(s, e), es)
  {
    assert ([e] + es)[1..] == es;
  }

  lemma {:induction false} GoingOnIsARun(s: Sys, k: nat) returns (es: seq<Step>)
    ensures Runs(s, es) && After(s, es) == GoOn(s, k)
    decreases k
  {
    es := [];
    if k > 0 && s.lock != Free {
      var rest := GoingOnIsARun(Advance(s, GOOD), k - 1);
      FirstStep(s, HolderMoves(GOOD), rest);
      es := [HolderMoves(GOOD)] + rest;
    }
  }

  lemma NothingLeftToDo(s: Sys, k: nat)
    requires s.lock == Free
    ensures GoOn(s, k) == s
  {
  }

  lemma FirstMove(s: Sys, k: nat)
    requires s.lock.Held? && k > 0
    ensures GoOn(s, k) == GoOn(Advance(s, GOOD), k - 1)
  {
  }

  lemma {:induction false} GoOnAdds(s: Sys, j: nat, k: nat)
    ensures GoOn(s, j + k) == GoOn(GoOn(s, j), k)
    decreases j
  {
    if s.lock == Free {
      NothingLeftToDo(s, j);
      NothingLeftToDo(s, k);
      NothingLeftToDo(s, j + k);
    } else if j == 0 {
      NoMove(s);
    } else {
      var next := Advance(s, GOOD);
      FirstMove(s, j);
      FirstMove(s, j + k);
      GoOnAdds(next, j - 1, k);
    }
  }

  // --- the stages of a start -----------------------------------------------

  /** `w` is the newest command's START and holds the lock of a service that is alive. */
  predicate Newest(s: Sys, w: Worker) {
    s.lock.Held? && s.lock.worker == w && w.StartWorker? && w.seqNo == s.flags.commandSeq && !s.flags.destroyed
  }

  lemma OneMove(s: Sys, s': Sys, k: nat)
    requires s.lock.Held? && Advance(s, GOOD) == s'
    ensures GoOn(s, k + 1) == GoOn(s', k)
  {
  }

  lemma NoMove(s: Sys)
    ensures GoOn(s, 0) == s
  {
  }

  /** What a successful start leaves behind. */
  function Up(s: Sys, w: Worker, fd: Fd): Sys {
    s.(engine := s.engine.(running := Some(fd)), isEngineRunning := true, last := Connected,
       bus := Resolve(s.bus, TokenOf(w), true), lock := Free)
  }

  lemma EngineComesUp(s: Sys, w: Worker, fd: Fd)
    requires Newest(s, w) && s.lock.at == Booting(CheckAlive, fd) && Halted(s.engine)
    ensures GoOn(s, 4) ==
      s.(engine := s.engine.(running := Some(fd)), isEngineRunning := true, lock := Held(w, Finishing(RecheckSeq)))
  {
    var bypass, launch := Goto(s, Booting(StartBypass, fd)), Goto(s, Booting(Launch, fd));
    var raise := Goto(s.(engine := s.engine.(running := Some(fd))), Booting(RaiseFlag, fd));
    OneMove(s, bypass, 3);
    OneMove(bypass, launch, 2);
    OneMove(launch, raise, 1);
    OneMove(raise, Advance(raise, GOOD), 0);
    NoMove(Advance(raise, GOOD));
  }

  lemma StartIsReported(s: Sys, w: Worker)
    requires Newest(s, w) && s.lock.at == Finishing(RecheckSeq)
    ensures GoOn(s, 4) == s.(last := Connected, bus := Resolve(s.bus, TokenOf(w), true), lock := Free)
  {
    var alive, announce := Goto(s, Finishing(RecheckAlive)), Goto(s, Finishing(AnnounceUp));
    var resolve := Goto(s.(last := Connected), Finishing(ResolveUp));
    OneMove(s, alive, 3);
    OneMove(alive, announce, 2);
    OneMove(announce, resolve, 1);
    OneMove(resolve, Advance(resolve, GOOD), 0);
    NoMove(Advance(resolve, GOOD));
  }

  lemma OldEngineStops(s: Sys, w: Worker)
    requires Newest(s, w) && s.lock.at == Entering(CheckSeq) && !s.engine.isWedged
    ensures GoOn(s, 3) ==
      s.(engine := s.engine.(running := None), isEngineRunning := false, lock := Held(w, Preparing(Plan)))
  {
    var lower := Goto(s, Preparing(LowerFlag));
    var stop := Goto(s.(isEngineRunning := false), Preparing(StopOld));
    OneMove(s, lower, 2);
    OneMove(lower, stop, 1);
    OneMove(stop, Advance(stop, GOOD), 0);
    NoMove(Advance(stop, GOOD));
  }

  /** The tunnel at hand can back a connection with these resolvers. */
  predicate Reusable(s: Sys, dns: Dns) {
    s.tun.tunnel.Some? && !s.flags.tunnelRevoked && s.tun.activeDns == Some(dns)
  }

  /** The tunnel after a start: the same, or a new one with the old one closed. */
  function TunFor(s: Sys, dns: Dns): Tun {
    if Reusable(s, dns) then s.tun
    else
      var fd := |s.tun.built|;
      Tun(Some(fd), Some(dns), true, s.tun.built + [dns],
          if s.tun.tunnel.Some? then s.tun.closed + multiset{s.tun.tunnel.value} else s.tun.closed, s.tun.parked,
          s.tun.revoked,
          if fd in s.tun.revoked && !s.main.RevokeNumbered? then s.tun.forgiven + {fd} else s.tun.forgiven)
  }

  function FlagsFor(s: Sys, dns: Dns): Flags {
    if Reusable(s, dns) then s.flags else s.flags.(tunnelRevoked := false)
  }

  function FdFor(s: Sys, dns: Dns): Fd {
    if Reusable(s, dns) then s.tun.tunnel.value else |s.tun.built|
  }

  function Ready(s: Sys, w: Worker): Sys
    requires w.StartWorker?
  {
    s.(tun := TunFor(s, w.dns), flags := FlagsFor(s, w.dns), lock := Held(w, Booting(CheckAlive, FdFor(s, w.dns))))
  }

  lemma TunnelIsReplaced(s: Sys, w: Worker)
    requires Newest(s, w) && s.lock.at == Preparing(Plan) && !Reusable(s, w.dns)
    ensures GoOn(s, 6) == Ready(s, w)
  {
    var previous, fd := s.tun.tunnel, |s.tun.built|;
    var establish := Goto(s, Preparing(Establish(previous)));
    var install := EstablishTunnel(s, w.dns, previous);
    OneMove(s, establish, 5);
    OneMove(establish, install, 4);
    TunnelIsInstalled(s, install, w);
  }

  lemma TunnelIsInstalled(s: Sys, install: Sys, w: Worker)
    requires Newest(s, w) && !Reusable(s, w.dns) && install == EstablishTunnel(s, w.dns, s.tun.tunnel)
    ensures GoOn(install, 4) == Ready(s, w)
  {
    var previous, fd := s.tun.tunnel, |s.tun.built|;
    var unmark := Advance(install, GOOD);
    assert unmark ==
      Goto(install.(tun := install.tun.(activeDns := Some(w.dns), tunnel := Some(fd))), Replacing(Unmark, previous, fd));
    var publish := Advance(unmark, GOOD);
    assert publish == Goto(ClearMark(unmark, fd), Replacing(Publish, previous, fd));
    var close := Advance(publish, GOOD);
    assert close == Goto(publish.(tun := publish.tun.(isRunning := true)), Replacing(ClosePrevious, previous, fd));
    OneMove(install, unmark, 3);
    OneMove(unmark, publish, 2);
    OneMove(publish, close, 1);
    OneMove(close, Advance(close, GOOD), 0);
    NoMove(Advance(close, GOOD));
  }

  lemma TunnelIsReady(s: Sys, w: Worker)
    requires Newest(s, w) && s.lock.at == Preparing(Plan)
    ensures GoOn(s, if Reusable(s, w.dns) then 1 else 6) == Ready(s, w)
  {
    if Reusable(s, w.dns) {
      OneMove(s, Advance(s, GOOD), 0);
      NoMove(Advance(s, GOOD));
    } else {
      TunnelIsReplaced(s, w);
    }
  }

  /** What a START leaves behind that finds itself the newest command when it gets the lock. */
  function Started(s: Sys, w: Worker): Sys
    requires w.StartWorker?
  {
    s.(tun := TunFor(s, w.dns), flags := FlagsFor(s, w.dns), engine := s.engine.(running := TunFor(s, w.dns).tunnel),
       isEngineRunning := true, last := Connected, bus := Resolve(s.bus, w.token, true), lock := Free)
  }

  lemma ReadySucceeds(s: Sys, w: Worker, fd: Fd)
    requires Newest(s, w) && s.lock.at == Booting(CheckAlive, fd) && Halted(s.engine)
    ensures GoOn(s, 8) == Up(s, w, fd)
  {
    EngineComesUp(s, w, fd);
    StartIsReported(GoOn(s, 4), w);
    GoOnAdds(s, 4, 4);
  }

  lemma UpIsStarted(s: Sys, w: Worker)
    requires w.StartWorker?
    ensures Up(Ready(s, w), w, FdFor(s, w.dns)) == Started(s, w)
  {
  }

  lemma PlanSucceeds(s: Sys, w: Worker)
    requires Newest(s, w) && s.lock.at == Preparing(Plan) && Halted(s.engine)
    ensures GoOn(s, if Reusable(s, w.dns) then 9 else 14) == Started(s, w)
  {
    TunnelIsReady(s, w);
    ReadySucceeds(Ready(s, w), w, FdFor(s, w.dns));
    GoOnAdds(s, if Reusable(s, w.dns) then 1 else 6, 8);
    UpIsStarted(s, w);
  }

  /** The number of moves such a START makes. */
  function Moves(s: Sys, dns: Dns): nat {
    if Reusable(s, dns) then 12 else 17
  }

  lemma StartSucceeds(s: Sys, w: Worker)
    requires Newest(s, w) && s.lock.at == Entering(CheckSeq) && !s.engine.isWedged
    ensures GoOn(s, Moves(s, w.dns)) == Started(s, w)
  {
    OldEngineStops(s, w);
    PlanSucceeds(GoOn(s, 3), w);
    GoOnAdds(s, 3, if Reusable(s, w.dns) then 9 else 14);
  }

  // --- the stages of a stop ------------------------------------------------

  /** The engine after a stop: wedged it stays as it is, else it is down. */
  function HaltedEngine(engine: EngineState): EngineState {
    if engine.isWedged then engine else engine.(running := None)
  }

  /** The tunnel and the flags after a teardown. */
  function Dropped(s: Sys): Sys {
    var halted := s.(engine := HaltedEngine(s.engine), isEngineRunning := false,
                     tun := s.tun.(tunnel := None, activeDns := None, isRunning := false));
    ReleaseDescriptor(halted, s.tun.tunnel)
  }

  /** What a STOP leaves behind that finds itself the newest command when it gets the lock. */
  function Stopped(s: Sys, w: Worker): Sys {
    Dropped(s).(bus := ResolveStop(Resolve(s.bus, TokenOf(w), false)), last := Disconnected, lock := Free)
  }

  lemma StopPreempts(s: Sys, w: Worker)
    requires s.lock == Held(w, Entering(CheckSeq)) && w.StopWorker? && w.seqNo == s.flags.commandSeq
    ensures GoOn(s, 2) == s.(bus := Resolve(s.bus, TokenOf(w), false), lock := Held(w, Stopping(StopFlag, false)))
  {
    var preempt := Goto(s, Stopping(PreemptStart, false));
    OneMove(s, preempt, 1);
    OneMove(preempt, Advance(preempt, GOOD), 0);
    NoMove(Advance(preempt, GOOD));
  }

  lemma EngineHalts(s: Sys, w: Worker)
    requires s.lock == Held(w, Stopping(StopFlag, false))
    ensures GoOn(s, 2) ==
      s.(isEngineRunning := false, engine := HaltedEngine(s.engine), lock := Held(w, Dropping(DropTunnel, false, None)))
  {
    var stop := Goto(s.(isEngineRunning := false), Stopping(StopEngine, false));
    OneMove(s, stop, 1);
    OneMove(stop, Advance(stop, GOOD), 0);
    NoMove(Advance(stop, GOOD));
  }

  lemma TunnelIsDropped(s: Sys, w: Worker)
    requires s.lock == Held(w, Dropping(DropTunnel, false, None)) && w.StopWorker?
    ensures
      var cleared := s.(isEngineRunning := false, tun := s.tun.(tunnel := None, activeDns := None, isRunning := false));
      GoOn(s, 4) == ReleaseDescriptor(cleared, s.tun.tunnel).(lock := Held(w, Leaving(AnnounceDown)))
  {
    var pfd := s.tun.tunnel;
    var unpublish := Advance(s, GOOD);
    assert unpublish == Goto(s.(tun := s.tun.(tunnel := None, activeDns := None)), Dropping(Unpublish, false, pfd));
    var flag := Advance(unpublish, GOOD);
    assert flag == Goto(unpublish.(tun := unpublish.tun.(isRunning := false)), Dropping(DropFlag, false, pfd));
    var release := Advance(flag, GOOD);
    assert release == Goto(flag.(isEngineRunning := false), Dropping(ReleaseFd, false, pfd));
    OneMove(s, unpublish, 3);
    OneMove(unpublish, flag, 2);
    OneMove(flag, release, 1);
    OneMove(release, Advance(release, GOOD), 0);
    NoMove(Advance(release, GOOD));
  }

  lemma StopIsAnnounced(s: Sys, w: Worker)
    requires s.lock == Held(w, Leaving(AnnounceDown))
    ensures GoOn(s, 2) == s.(last := Disconnected, bus := ResolveStop(s.bus), lock := Free)
  {
    var release := Goto(s.(last := Disconnected), Leaving(ResolveStopped));
    OneMove(s, release, 1);
    OneMove(release, Advance(release, GOOD), 0);
    NoMove(Advance(release, GOOD));
  }

  lemma StopHalts(s: Sys, w: Worker)
    requires s.lock == Held(w, Entering(CheckSeq)) && w.StopWorker? && w.seqNo == s.flags.commandSeq
    ensures GoOn(s, 4) == s.(bus := Resolve(s.bus, TokenOf(w), false), isEngineRunning := false,
                             engine := HaltedEngine(s.engine), lock := Held(w, Dropping(DropTunnel, false, None)))
  {
    StopPreempts(s, w);
    EngineHalts(GoOn(s, 2), w);
    GoOnAdds(s, 2, 2);
  }

  lemma StopSucceeds(s: Sys, w: Worker)
    requires s.lock == Held(w, Entering(CheckSeq)) && w.StopWorker? && w.seqNo == s.flags.commandSeq
    ensures GoOn(s, 10) == Stopped(s, w)
  {
    StopHalts(s, w);
    TunnelIsDropped(GoOn(s, 4), w);
    GoOnAdds(s, 4, 4);
    StopIsAnnounced(GoOn(s, 8), w);
    GoOnAdds(s, 8, 2);
  }

  // --- whole commands ------------------------------------------------------

  lemma ThreeSteps(s: Sys, e: Step, f: Step, g: Step)
    requires Enabled(s, e) && Enabled(Apply(s, e), f) && Enabled(Apply(Apply(s, e), f), g)
    ensures Leads(s, [e] + [f] + [g], Apply(Apply(Apply(s, e), f), g))
  {
    OneStep(s, e);
    OneStep(Apply(s, e), f);
    OneStep(Apply(Apply(s, e), f), g);
    Joined(s, [e], Apply(s, e), [f], Apply(Apply(s, e), f));
    Joined(s, [e] + [f], Apply(Apply(s, e), f), [g], Apply(Apply(Apply(s, e), f), g));
  }

  /** The intent has been taken by the main thread. */
  function StartTaken(s: Sys, i: Intent, mail: Mail): Sys {
    s.(bus := Arm(s.bus), mail := mail, last := Connecting, main := StartEmitted(i))
  }

  lemma StartIsDelivered(s: Sys, dns: Dns) returns (es: seq<Step>, mail: Mail)
    requires AtRest(s)
    ensures Leads(s, es, StartTaken(s, StartIntent(Some(s.bus.startTokenSeq + 1), dns, false), mail))
  {
    var t := s.bus.startTokenSeq + 1;
    var i := StartIntent(Some(t), dns, false);
    var armed := Apply(s, ArmStart);
    var sent := Apply(armed, SendStart(t, dns));
    assert i in sent.mail.intents;
    mail := Apply(sent, Deliver(i)).mail;
    es := [ArmStart] + [SendStart(t, dns)] + [Deliver(i)];
    ThreeSteps(s, ArmStart, SendStart(t, dns), Deliver(i));
  }

  /** The START that `startXray` sends to a service at rest, with the lock. */
  function StartAtWork(s: Sys, w: Worker): Sys {
    s.(flags := s.flags.(commandSeq := s.flags.commandSeq + 1, newest := StartCommand),
       main := Idle, lock := Held(w, Entering(CheckSeq)))
  }

  lemma StartGetsLock(s: Sys, i: Intent, w: Worker) returns (es: seq<Step>)
    requires s.main == StartEmitted(i) && i.StartIntent? && s.lock == Free && w !in s.queued
    requires w == StartWorker(s.flags.commandSeq + 1, s.bus.pendingStartToken, i.forToken, i.dns, i.fromStore)
    ensures Leads(s, es, StartAtWork(s, w))
  {
    var spawned := Apply(Apply(s, MainMoves), MainMoves);
    assert spawned.queued == s.queued + {w} && spawned.queued - {w} == s.queued;
    es := [MainMoves] + [MainMoves] + [Acquire(w)];
    ThreeSteps(s, MainMoves, MainMoves, Acquire(w));
  }

  /** What the caller of `startXray` gets. */
  ghost predicate Delivered(s: Sys, dns: Dns, s': Sys) {
    var t := s.bus.startTokenSeq + 1;
    && AtRest(s') && s'.last == Connected && s'.isEngineRunning && s'.tun == TunFor(s, dns)
    && s'.engine.running == s'.tun.tunnel && !s'.engine.isWedged && s'.tun.activeDns == Some(dns)
    && s'.bus.settledOk[t] == s.bus.settledOk[t] + 1
  }

  lemma StartedIsDelivered(s: Sys, dns: Dns, i: Intent, mail: Mail, w: Worker)
    requires AtRest(s) && !s.engine.isWedged && i == StartIntent(Some(s.bus.startTokenSeq + 1), dns, false)
    requires w == StartWorker(s.flags.commandSeq + 1, s.bus.startTokenSeq + 1, i.forToken, dns, false)
    ensures Delivered(s, dns, Started(StartAtWork(StartTaken(s, i, mail), w), w))
  {
    var work := StartAtWork(StartTaken(s, i, mail), w);
    assert TunFor(work, dns) == TunFor(s, dns);
    assert work.bus == Arm(s.bus);
  }

  /**
   * A start with nothing in its way. From every state at rest of a service that is alive, with an
   * engine that is not wedged, `startXray` can run to its end: 'connected' is emitted, the promise
   * resolves, the engine is live on a tunnel with the resolvers asked for, and that is the same
   * tunnel if it could be reused, else a new one, with the old one closed.
   */
  lemma UndisturbedStart(s: Sys, dns: Dns) returns (es: seq<Step>)
    requires AtRest(s) && !s.flags.destroyed && !s.engine.isWedged
    ensures Runs(s, es) && Delivered(s, dns, After(s, es))
  {
    var t := s.bus.startTokenSeq + 1;
    var i := StartIntent(Some(t), dns, false);
    var w := StartWorker(s.flags.commandSeq + 1, t, Some(t), dns, false);
    var delivered, mail := StartIsDelivered(s, dns);
    var taken := StartTaken(s, i, mail);
    var dispatched := StartGetsLock(taken, i, w);
    var work := StartAtWork(taken, w);
    StartSucceeds(work, w);
    var worked := GoingOnIsARun(work, Moves(work, dns));
    Joined(s, delivered, taken, dispatched, work);
    Joined(s, delivered + dispatched, work, worked, Started(work, w));
    StartedIsDelivered(s, dns, i, mail, w);
    es := delivered + dispatched + worked;
  }

  /** The STOP that `stopXray` sends to a service at rest, with the lock. */
  function StopAtWork(s: Sys, w: Worker, mail: Mail): Sys {
    s.(bus := ArmStop(s.bus), mail := mail, last := Disconnecting, lock := Held(w, Entering(CheckSeq)),
       flags := s.flags.(commandSeq := s.flags.commandSeq + 1, newest := StopCommand))
  }

  function StopSent(s: Sys, mail: Mail): Sys {
    s.(bus := ArmStop(s.bus), mail := mail, main := StopNumbered(s.flags.commandSeq + 1),
       flags := s.flags.(commandSeq := s.flags.commandSeq + 1, newest := StopCommand))
  }

  lemma StopIsDelivered(s: Sys) returns (es: seq<Step>, mail: Mail)
    requires AtRest(s)
    ensures Leads(s, es, StopSent(s, mail))
  {
    var t := s.bus.stopsArmed + 1;
    var sent := Apply(Apply(s, ArmStopCallback), SendStop(t));
    assert StopIntent in sent.mail.intents;
    mail := Apply(sent, Deliver(StopIntent)).mail;
    es := [ArmStopCallback] + [SendStop(t)] + [Deliver(StopIntent)];
    ThreeSteps(s, ArmStopCallback, SendStop(t), Deliver(StopIntent));
  }

  lemma StopGetsLock(s: Sys, mail: Mail, w: Worker) returns (es: seq<Step>)
    requires AtRest(s) && w == StopWorker(s.flags.commandSeq + 1, s.bus.pendingStartToken)
    ensures Leads(StopSent(s, mail), es, StopAtWork(s, w, mail))
  {
    var sent := StopSent(s, mail);
    var spawned := Apply(Apply(sent, MainMoves), MainMoves);
    assert spawned.queued == {w} && spawned.queued - {w} == {};
    es := [MainMoves] + [MainMoves] + [Acquire(w)];
    ThreeSteps(sent, MainMoves, MainMoves, Acquire(w));
  }

  /** The descriptor has been released: closed, or parked when the engine is wedged. */
  predicate Released(s: Sys, s': Sys) {
    s.tun.tunnel.Some? ==>
      var fd := s.tun.tunnel.value;
      if s.engine.isWedged then s'.tun.parked == s.tun.parked + multiset{fd} && s'.tun.closed == s.tun.closed
      else s'.tun.closed == s.tun.closed + multiset{fd} && s'.tun.parked == s.tun.parked
  }

  lemma StoppedIsDown(s: Sys, w: Worker)
    requires AtRest(s.(lock := Free)) && w.StopWorker?
    ensures var s' := Stopped(s, w); AtRest(s') && s'.last == Disconnected && IsDown(s') && Released(s, s')
  {
  }

  lemma StoppedIsSettled(s: Sys, w: Worker, mail: Mail)
    requires w.StopWorker? && w.token == s.bus.pendingStartToken
    ensures var b := Stopped(StopAtWork(s, w, mail), w).bus;
      && b.stopsRun[s.bus.stopsArmed + 1] == ArmStop(s.bus).stopsRun[s.bus.stopsArmed + 1] + 1
      && b.pendingStart.None?
  {
  }

  /**
   * A stop with nothing in its way, from every state at rest, a wedged engine included: the tunnel
   * is gone, 'disconnected' is emitted, the caller's promise and any start still pending are
   * settled, and the descriptor has been closed, or parked when the engine is wedged.
   */
  lemma UndisturbedStop(s: Sys) returns (es: seq<Step>)
    requires AtRest(s)
    ensures Runs(s, es)
    ensures var s', t := After(s, es), s.bus.stopsArmed + 1;
      && AtRest(s') && s'.last == Disconnected && IsDown(s') && Released(s, s')
      && s'.bus.stopsRun[t] == ArmStop(s.bus).stopsRun[t] + 1 && s'.bus.pendingStart.None?
  {
    var w := StopWorker(s.flags.commandSeq + 1, s.bus.pendingStartToken);
    var delivered, mail := StopIsDelivered(s);
    var dispatched := StopGetsLock(s, mail, w);
    var work := StopAtWork(s, w, mail);
    StopSucceeds(work, w);
    var worked := GoingOnIsARun(work, 10);
    Joined(s, delivered, StopSent(s, mail), dispatched, work);
    Joined(s, delivered + dispatched, work, worked, Stopped(work, w));
    StoppedIsDown(work, w);
    StoppedIsSettled(s, w, mail);
    es := delivered + dispatched + worked;
  }
}
