/**
 * The revoke mark. It is there to keep a descriptor whose interface the system has taken away
 * from backing a new connection. When exactly it fails to, and a run in which it does.
 */
module Revoked {
  import opened Options
  import opened StateBus
  import opened Engine
  import opened Protocol
  import opened Tunnel
  import opened StateReports
  import opened Undisturbed
  import opened Ownership

  // --- the invariant -------------------------------------------------------

  /** The holder has decided that the tunnel is fit for use. */
  predicate Decided(lock: Lock) {
    lock.Held? &&
    match lock.at
    case Replacing(at, _, _) => at.Publish? || at.ClosePrevious?
    case Booting(_, _) => true
    case Finishing(_) => true
    case _ => false
  }

  predicate IsNewest(s: Sys)
    requires s.lock.Held?
  {
    SeqOf(s.lock.worker) == s.flags.commandSeq
  }

  ghost predicate MarkInv(s: Sys) {
    && s.tun.forgiven <= s.tun.revoked
    // an unmarked tunnel that has been revoked was forgiven, or its revoke is about to be noted
    && (s.tun.tunnel.Some? && !Unmarks(s.lock) && !s.flags.tunnelRevoked && s.tun.tunnel.value in s.tun.revoked ==>
          s.tun.tunnel.value in s.tun.forgiven || s.main.RevokeNumbered?)
    // the newest command's START has found or made the tunnel unmarked
    && (Decided(s.lock) && s.lock.worker.StartWorker? && IsNewest(s) ==> !s.flags.tunnelRevoked)
  }

  lemma MarkByOthers(s: Sys, e: Step)
    requires TunnelInv(s) && SeqInv(s) && MarkInv(s) && Enabled(s, e) && !e.HolderMoves? && !e.Acquire?
    ensures MarkInv(Apply(s, e))
  {
    OthersTouch(s, e);
  }

  lemma MarkByAcquire(s: Sys, w: Worker)
    requires MarkInv(s) && Enabled(s, Acquire(w))
    ensures MarkInv(TakeLock(s, w))
  {
  }

  lemma MarkByReplacing(s: Sys, at: ReplaceStage, previous: Option<Fd>, fd: Fd)
    requires TunnelInv(s) && MarkInv(s) && IsAt(s, Replacing(at, previous, fd))
    ensures MarkInv(Replace(s, at, previous, fd))
  {
  }

  lemma MarkByPreparing(s: Sys, at: PrepareStage, c: Choice)
    requires TunnelInv(s) && MarkInv(s) && IsAt(s, Preparing(at))
    ensures MarkInv(Prepare(s, at, c))
  {
  }

  lemma MarkByDropping(s: Sys, at: DropStage, thenReject: bool, pfd: Option<Fd>)
    requires TunnelInv(s) && MarkInv(s) && IsAt(s, Dropping(at, thenReject, pfd))
    ensures MarkInv(Drop(s, at, thenReject, pfd))
  {
  }

  lemma MarkByHolder(s: Sys, c: Choice)
    requires TunnelInv(s) && MarkInv(s) && Enabled(s, HolderMoves(c))
    ensures MarkInv(Advance(s, c))
  {
    HolderTouches(s, c);
    match s.lock.at
    case Entering(at) => assert Advance(s, c) == Enter(s, at);
    case Preparing(at) => MarkByPreparing(s, at, c);
    case Replacing(at, previous, fd) => MarkByReplacing(s, at, previous, fd);
    case Booting(at, fd) => assert Advance(s, c) == Boot(s, at, fd, c);
    case Finishing(at) => assert Advance(s, c) == Finish(s, at);
    case Failing(at) => assert Advance(s, c) == Fail(s, at);
    case Stopping(at, thenReject) => assert Advance(s, c) == Stop(s, at, thenReject, c.stop);
    case Dropping(at, thenReject, pfd) => MarkByDropping(s, at, thenReject, pfd);
    case Leaving(at) => assert Advance(s, c) == Leave(s, at);
  }

  lemma MarkStep(s: Sys, e: Step)
    requires TunnelInv(s) && SeqInv(s) && MarkInv(s) && Enabled(s, e)
    ensures MarkInv(Apply(s, e))
  {
    if e.HolderMoves? {
      MarkByHolder(s, e.choice);
    } else if e.Acquire? {
      MarkByAcquire(s, e.worker);
    } else {
      MarkByOthers(s, e);
    }
  }

  lemma {:induction false} MarkRun(s: Sys, es: seq<Step>)
    requires TunnelInv(s) && SeqInv(s) && MarkInv(s) && Runs(s, es)
    ensures MarkInv(After(s, es)) && SeqInv(After(s, es)) && TunnelInv(After(s, es))
    decreases |es|
  {
    if es != [] {
      StepKeeps(s, es[0]);
      SeqKept(s, es[0]);
      MarkStep(s, es[0]);
      MarkRun(Apply(s, es[0]), es[1..]);
    }
  }

  // --- what it means -------------------------------------------------------

  /** A START passes its second check: it is still the newest command, and will report 'connected'. */
  predicate PassesRecheck(s: Sys) {
    IsAt(s, Finishing(RecheckSeq)) && IsNewest(s)
  }

  /**
   * Exactly when a START that goes on to report 'connected' does so over a tunnel that the system
   * had taken away: when that tunnel was forgiven.
   */
  lemma ConnectedOverRevoked(es: seq<Step>, fd: Fd)
    requires Runs(INIT, es) && PassesRecheck(After(INIT, es)) && After(INIT, es).tun.tunnel == Some(fd)
    ensures fd in After(INIT, es).tun.revoked <==> fd in After(INIT, es).tun.forgiven
  {
    InitHolds();
    MarkRun(INIT, es);
  }

  /** Step `k` clears the mark for `fd`, which had been revoked, with every revoke so far noted. */
  predicate ForgivesAt(s: Sys, es: seq<Step>, k: nat, fd: Fd)
    requires Runs(s, es)
  {
    k < |es| && es[k].HolderMoves? &&
    var at := StateAt(s, es, k);
    Unmarks(at.lock) && at.lock.at.fd == fd && fd in at.tun.revoked && !at.main.RevokeNumbered?
  }

  lemma StepForgives(s: Sys, e: Step, fd: Fd)
    requires Enabled(s, e)
    ensures fd in Apply(s, e).tun.forgiven <==>
      fd in s.tun.forgiven
      || (e.HolderMoves? && Unmarks(s.lock) && s.lock.at.fd == fd && fd in s.tun.revoked && !s.main.RevokeNumbered?)
  {
    if e.HolderMoves? {
      HolderTouches(s, e.choice);
    } else if !e.Acquire? {
      OthersTouch(s, e);
    }
  }

  /** A tunnel is forgiven exactly by a setupVpn that clears the mark after its revoke was noted. */
  lemma {:induction false} ForgivenExactly(s: Sys, es: seq<Step>, fd: Fd)
    requires Runs(s, es)
    ensures fd in After(s, es).tun.forgiven <==> fd in s.tun.forgiven || exists k: nat :: ForgivesAt(s, es, k, fd)
    decreases |es|
  {
    if es != [] {
      var s', rest := Apply(s, es[0]), es[1..];
      StepForgives(s, es[0], fd);
      ForgivenExactly(s', rest, fd);
      assert StateAt(s, es, 0) == s;
      assert fd in s'.tun.forgiven <==> fd in s.tun.forgiven || ForgivesAt(s, es, 0, fd);
      assert forall k: nat :: ForgivesAt(s, es, k + 1, fd) <==> ForgivesAt(s', rest, k, fd);
      if k: nat :| ForgivesAt(s, es, k, fd) {
        assert k > 0 ==> ForgivesAt(s', rest, k - 1, fd);
      }
    }
  }

  // --- a run in which the mark fails ---------------------------------------

  /** The newest START has been given a new descriptor and is about to install it. */
  function Installing(s: Sys, w: Worker): Sys
    requires w.StartWorker?
  {
    EstablishTunnel(s.(engine := s.engine.(running := None), isEngineRunning := false, lock := Held(w, Preparing(Plan))),
                    w.dns, s.tun.tunnel)
  }

  lemma ReachesInstall(s: Sys, w: Worker)
    requires Newest(s, w) && s.lock.at == Entering(CheckSeq) && !s.engine.isWedged && !Reusable(s, w.dns)
    ensures GoOn(s, 5) == Installing(s, w)
  {
    OldEngineStops(s, w);
    var plan := GoOn(s, 3);
    var establish := Goto(plan, Preparing(Establish(s.tun.tunnel)));
    OneMove(plan, establish, 1);
    OneMove(establish, Installing(s, w), 0);
    NoMove(Installing(s, w));
    GoOnAdds(s, 3, 2);
  }

  /** The START, superseded in the meantime, has gone on with the tunnel that was revoked. */
  function InstalledAnyway(s: Sys, w: Worker, fd: Fd): Sys {
    s.(tun := s.tun.(tunnel := Some(fd), activeDns := Some(DnsOf(w)), isRunning := true,
                     closed := CloseQuietly(s, s.tun.tunnel).tun.closed, forgiven := s.tun.forgiven + {fd}),
       flags := s.flags.(tunnelRevoked := false), lock := Held(w, Booting(CheckAlive, fd)))
  }

  lemma MarkIsCleared(s: Sys, w: Worker, previous: Option<Fd>, fd: Fd)
    requires s.lock == Held(w, Replacing(Install, previous, fd)) && w.StartWorker?
    requires fd in s.tun.revoked && s.main == Idle
    ensures GoOn(s, 2) ==
      s.(tun := s.tun.(activeDns := Some(w.dns), tunnel := Some(fd), forgiven := s.tun.forgiven + {fd}),
         flags := s.flags.(tunnelRevoked := false), lock := Held(w, Replacing(Publish, previous, fd)))
  {
    var unmark := Advance(s, GOOD);
    assert unmark ==
      Goto(s.(tun := s.tun.(activeDns := Some(w.dns), tunnel := Some(fd))), Replacing(Unmark, previous, fd));
    OneMove(s, unmark, 1);
    OneMove(unmark, Advance(unmark, GOOD), 0);
    NoMove(Advance(unmark, GOOD));
  }

  lemma PreviousIsClosed(s: Sys, w: Worker, previous: Option<Fd>, fd: Fd)
    requires s.lock == Held(w, Replacing(Publish, previous, fd))
    ensures GoOn(s, 2) ==
      CloseQuietly(s.(tun := s.tun.(isRunning := true)), previous).(lock := Held(w, Booting(CheckAlive, fd)))
  {
    var close := Advance(s, GOOD);
    OneMove(s, close, 1);
    OneMove(close, Advance(close, GOOD), 0);
    NoMove(Advance(close, GOOD));
  }

  lemma InstallsRevoked(s: Sys, w: Worker, fd: Fd)
    requires s.lock == Held(w, Replacing(Install, s.tun.tunnel, fd)) && w.StartWorker?
    requires fd in s.tun.revoked && s.main == Idle
    ensures GoOn(s, 4) == InstalledAnyway(s, w, fd)
  {
    MarkIsCleared(s, w, s.tun.tunnel, fd);
    PreviousIsClosed(GoOn(s, 2), w, s.tun.tunnel, fd);
    GoOnAdds(s, 2, 2);
  }

  /** It starts its engine, finds itself superseded, and leaves everything as it is. */
  function LeftRunning(s: Sys, w: Worker, fd: Fd): Sys {
    s.(engine := s.engine.(running := Some(fd)), isEngineRunning := true,
       bus := Resolve(s.bus, TokenOf(w), false), lock := Free)
  }

  lemma SupersededLeaves(s: Sys, w: Worker, fd: Fd)
    requires s.lock == Held(w, Booting(CheckAlive, fd)) && w.StartWorker? && Halted(s.engine)
    requires !s.flags.destroyed && w.seqNo != s.flags.commandSeq
    ensures GoOn(s, 7) == LeftRunning(s, w, fd)
  {
    var bypass, launch := Goto(s, Booting(StartBypass, fd)), Goto(s, Booting(Launch, fd));
    var raise := Goto(s.(engine := s.engine.(running := Some(fd))), Booting(RaiseFlag, fd));
    var recheck := Goto(raise.(isEngineRunning := true), Finishing(RecheckSeq));
    OneMove(s, bypass, 6);
    OneMove(bypass, launch, 5);
    OneMove(launch, raise, 4);
    OneMove(raise, recheck, 3);
    SupersededIsRejected(recheck, w);
  }

  lemma SupersededIsRejected(s: Sys, w: Worker)
    requires s.lock == Held(w, Finishing(RecheckSeq)) && w.StartWorker?
    requires !s.flags.destroyed && w.seqNo != s.flags.commandSeq
    ensures GoOn(s, 3) == s.(bus := Resolve(s.bus, TokenOf(w), false), lock := Free)
  {
    var late := Goto(s, Finishing(LateResolve));
    var alive := Goto(Settle(s, false), Finishing(LateAlive));
    OneMove(s, late, 2);
    OneMove(late, alive, 1);
    OneMove(alive, Advance(alive, GOOD), 0);
    NoMove(Advance(alive, GOOD));
  }

  /** The system revokes the tunnel that is being installed, and the main thread notes it. */
  function RevokedNow(s: Sys): Sys {
    s.(tun := s.tun.(revoked := if s.tun.built == [] then s.tun.revoked else s.tun.revoked + {|s.tun.built| - 1}),
       flags := s.flags.(commandSeq := s.flags.commandSeq + 1, newest := RevokeCommand, tunnelRevoked := true),
       queued := s.queued + {RevokeWorker(s.flags.commandSeq + 1)})
  }

  lemma RevokeIsNoted(s: Sys)
    requires s.main == Idle && s.tun.built != []
    ensures Leads(s, [Revoke] + [MainMoves], RevokedNow(s))
  {
    OneStep(s, Revoke);
    OneStep(Apply(s, Revoke), MainMoves);
    Joined(s, [Revoke], Apply(s, Revoke), [MainMoves], RevokedNow(s));
  }

  /** What a START leaves that has installed a tunnel in spite of the revoke. */
  function Forgotten(s: Sys, w: Worker): Sys
    requires w.StartWorker?
  {
    var fd := |s.tun.built|;
    LeftRunning(InstalledAnyway(RevokedNow(Installing(s, w)), w, fd), w, fd)
  }

  lemma RevokeIsForgotten(s: Sys, w: Worker) returns (es: seq<Step>)
    requires Newest(s, w) && s.lock.at == Entering(CheckSeq) && !s.engine.isWedged
    requires !Reusable(s, w.dns) && s.main == Idle
    ensures Leads(s, es, Forgotten(s, w))
  {
    var fd := |s.tun.built|;
    ReachesInstall(s, w);
    var start := GoingOnIsARun(s, 5);
    var installing := Installing(s, w);
    RevokeIsNoted(installing);
    var revoked := RevokedNow(installing);
    InstallsRevoked(revoked, w, fd);
    SupersededLeaves(InstalledAnyway(revoked, w, fd), w, fd);
    GoOnAdds(revoked, 4, 7);
    var finish := GoingOnIsARun(revoked, 11);
    Joined(s, start, installing, [Revoke] + [MainMoves], revoked);
    Joined(s, start + ([Revoke] + [MainMoves]), revoked, finish, Forgotten(s, w));
    es := start + ([Revoke] + [MainMoves]) + finish;
  }

  /** The next START reuses the revoked tunnel and reports 'connected', before the revoke's worker has run. */
  lemma NextStartReuses(s: Sys, w: Worker) returns (es: seq<Step>)
    requires w.StartWorker? && s.main == Idle && s.queued == {} && !s.flags.destroyed && !s.engine.isWedged
    ensures Runs(Forgotten(s, w), es)
    ensures var f := Forgotten(s, w);
      var s' := After(f, es);
      && s'.last == Connected && s'.tun.tunnel == Some(|s.tun.built|) && |s.tun.built| in s'.tun.revoked
      && s'.queued == f.queued && s'.engine.running == s'.tun.tunnel && s'.isEngineRunning
  {
    var f := Forgotten(s, w);
    var quick := StartIntent(None, w.dns, true);
    var v := StartWorker(f.flags.commandSeq + 1, f.bus.pendingStartToken, None, w.dns, true);
    var delivered, mail := QuickIsDelivered(f, w.dns);
    var taken := QuickTaken(f, quick, mail);
    var dispatched := StartGetsLock(taken, quick, v);
    var work := StartAtWork(taken, v);
    assert Reusable(work, w.dns);
    StartSucceeds(work, v);
    var worked := GoingOnIsARun(work, Moves(work, w.dns));
    Joined(f, delivered, taken, dispatched, work);
    Joined(f, delivered + dispatched, work, worked, Started(work, v));
    es := delivered + dispatched + worked;
  }

  /**
   * From every state at rest of a live service without a tunnel for these resolvers: a revoke that
   * lands between establish() and the clearing of the mark is forgotten, and the next START reports
   * 'connected' over the tunnel the system has taken away, with the revoke's worker still waiting.
   */
  lemma RevokedTunnelReused(s: Sys, dns: Dns) returns (es: seq<Step>)
    requires AtRest(s) && !s.flags.destroyed && !s.engine.isWedged && !Reusable(s, dns)
    ensures Runs(s, es)
    ensures var s', fd := After(s, es), |s.tun.built|;
      && s'.last == Connected && s'.tun.tunnel == Some(fd) && fd in s'.tun.revoked
      && s'.isEngineRunning && s'.engine.running == Some(fd) && exists r :: r in s'.queued && r.RevokeWorker?
  {
    var t := s.bus.startTokenSeq + 1;
    var i := StartIntent(Some(t), dns, false);
    var w := StartWorker(s.flags.commandSeq + 1, t, Some(t), dns, false);
    var delivered, mail := StartIsDelivered(s, dns);
    var taken := StartTaken(s, i, mail);
    var dispatched := StartGetsLock(taken, i, w);
    var work := StartAtWork(taken, w);
    var forgotten := RevokeIsForgotten(work, w);
    var reused := NextStartReuses(work, w);
    var f := Forgotten(work, w);
    Joined(s, delivered, taken, dispatched, work);
    Joined(s, delivered + dispatched, work, forgotten, f);
    Joined(s, delivered + dispatched + forgotten, f, reused, After(f, reused));
    assert RevokeWorker(work.flags.commandSeq + 1) in f.queued;
    es := delivered + dispatched + forgotten + reused;
  }
}
