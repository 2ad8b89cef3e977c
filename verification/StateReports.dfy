/**
 * What the app is told: once nothing is pending, the last emitted state is true of the
 * tunnel and the engine, and the newest STOP has won.
 */
module StateReports {
  import opened Options
  import opened Engine
  import opened Protocol
  import opened Tunnel

  // --- command numbers -----------------------------------------------------

  /** The number of the command whose handler is past its bump but has not spawned its worker. */
  function UnspawnedSeq(m: MainThread): Option<nat> {
    match m
    case StartNumbered(_, n) => Some(n)
    case StopNumbered(n) => Some(n)
    case StopTokened(n, _) => Some(n)
    case RevokeNumbered(n) => Some(n)
    case _ => None
  }

  predicate HasSeq(w: Worker) {
    w.StartWorker? || w.StopWorker? || w.RevokeWorker?
  }

  /** A worker's number is not above the counter, and at the counter only for the newest command's worker. */
  predicate SeqFits(w: Worker, s: Sys) {
    HasSeq(w) ==>
      && 1 <= w.seqNo <= s.flags.commandSeq
      && (w.seqNo == s.flags.commandSeq ==>
            && UnspawnedSeq(s.main).None?
            && (s.flags.newest.StartCommand? <==> w.StartWorker?)
            && (s.flags.newest.StopCommand? <==> w.StopWorker?)
            && (s.flags.newest.RevokeCommand? <==> w.RevokeWorker?))
  }

  ghost predicate SeqInv(s: Sys) {
    && (UnspawnedSeq(s.main).Some? ==> UnspawnedSeq(s.main) == Some(s.flags.commandSeq) && s.flags.commandSeq > 0)
    && (s.main.StartNumbered? ==> s.flags.newest.StartCommand? && s.main.intent.StartIntent?)
    && (s.main.StartEmitted? ==> s.main.intent.StartIntent?)
    && (s.main.StopNumbered? || s.main.StopTokened? ==> s.flags.newest.StopCommand?)
    && (s.main.RevokeNumbered? ==> s.flags.newest.RevokeCommand?)
    && (forall w :: w in s.queued ==> SeqFits(w, s))
    && (s.lock.Held? ==> SeqFits(s.lock.worker, s))
    && (s.lock.Held? ==> s.lock.worker !in s.queued || !HasSeq(s.lock.worker))
  }

  // --- the reports ---------------------------------------------------------

  /** The state is true of the tunnel and of the flag JS reads. */
  predicate Agrees(last: Emitted, tunnel: Option<Fd>, isEngineRunning: bool) {
    && (last == Connected <==> tunnel.Some? && isEngineRunning)
    && (last == Blocked <==> tunnel.Some? && !isEngineRunning)
    && (last in {Disconnected, Failed, Nothing} <==> tunnel.None?)
  }

  predicate AgreesNow(s: Sys) {
    Agrees(s.last, s.tun.tunnel, s.isEngineRunning)
  }

  predicate Reporter(w: Worker, s: Sys) {
    w.RevokeWorker? || ((w.StartWorker? || w.StopWorker?) && w.seqNo == s.flags.commandSeq)
  }

  predicate Destroying(m: MainThread) {
    m.DestroyMarked? || m.DestroyPeeks? || m.DestroyTold?
  }

  /** A command is on its way that will report: one being dispatched, a queued current worker, a queued revoke. */
  ghost predicate ReportPending(s: Sys) {
    (s.main != Idle && !Destroying(s.main)) || exists w :: w in s.queued && Reporter(w, s)
  }

  /** What a lock holder that will not be followed by a report has to have told, or is about to tell. */
  ghost predicate HolderReports(s: Sys)
    requires s.lock.Held?
  {
    var w := s.lock.worker;
    match s.lock.at
    case Entering(at) => (at.CheckSeq? && Reporter(w, s)) || AgreesNow(s)
    case Finishing(at) =>
      if at.ResolveUp? then s.last == Connected else !at.LateResolve? && !at.LateAlive? && Reporter(w, s)
    case Failing(at) =>
      if at.ResolveHold? then s.last == Blocked else if at.ResolveError? then s.last == Failed else Reporter(w, s)
    case Stopping(_, thenReject) => w.StartWorker? ==> s.last == Failed && !thenReject
    case Dropping(_, thenReject, _) => w.StartWorker? ==> s.last == Failed && !thenReject
    case Leaving(at) => !at.RejectDestroyed? && s.tun.tunnel.None? && (at.ResolveStopped? ==> s.last == Disconnected)
    case _ => Reporter(w, s)
  }

  /** As long as the service is not destroyed: a change that was not reported has a reporter pending. */
  ghost predicate ReportInv(s: Sys) {
    && (!s.flags.destroyed ==> !Destroying(s.main) && DestroyWorker !in s.queued)
    && (!s.flags.destroyed && s.lock.Held? ==> !s.lock.worker.DestroyWorker?)
    && (!s.flags.destroyed && s.lock == Free ==> ReportPending(s) || AgreesNow(s))
    && (!s.flags.destroyed && s.lock.Held? ==> ReportPending(s) || HolderReports(s))
  }

  // --- every step keeps them -----------------------------------------------

  lemma SeqKeptByHolder(s: Sys, c: Choice)
    requires SeqInv(s) && Enabled(s, HolderMoves(c))
    ensures SeqInv(Advance(s, c))
  {
    HolderTouches(s, c);
  }

  lemma SeqKeptByMain(s: Sys)
    requires SeqInv(s) && s.main != Idle
    ensures SeqInv(MainStep(s))
  {
  }

  lemma SeqKeptByHandlers(s: Sys, e: Step)
    requires SeqInv(s) && Enabled(s, e) && (e.Deliver? || e.Revoke? || e.Destroy?)
    ensures SeqInv(Apply(s, e))
  {
  }

  lemma SeqKept(s: Sys, e: Step)
    requires SeqInv(s) && Enabled(s, e)
    ensures SeqInv(Apply(s, e))
  {
    if e.HolderMoves? {
      SeqKeptByHolder(s, e.choice);
    } else if e.MainMoves? {
      SeqKeptByMain(s);
    } else if e.Deliver? || e.Revoke? || e.Destroy? {
      SeqKeptByHandlers(s, e);
    } else if e.Acquire? {
      SeqKeptByAcquire(s, e.worker);
    } else {
      SeqKeptByCallers(s, e);
    }
  }

  lemma SeqKeptByAcquire(s: Sys, w: Worker)
    requires SeqInv(s) && Enabled(s, Acquire(w))
    ensures SeqInv(TakeLock(s, w))
  {
  }

  lemma SeqKeptByCallers(s: Sys, e: Step)
    requires SeqInv(s) && Enabled(s, e) && !e.HolderMoves? && !e.MainMoves? && !e.Acquire?
    requires !e.Deliver? && !e.Revoke? && !e.Destroy?
    ensures SeqInv(Apply(s, e))
  {
    var s' := Apply(s, e);
    assert s'.main == s.main && s'.lock == s.lock && s'.queued <= s.queued;
    assert s'.flags.commandSeq == s.flags.commandSeq && s'.flags.newest == s.flags.newest;
  }

  lemma SpawnIsPending(s: Sys)
    requires SeqInv(s) && s.main != Idle && !Destroying(s.main)
    ensures ReportPending(MainStep(s))
  {
    var s' := MainStep(s);
    match s.main
    case StartNumbered(i, n) => assert SpawnedStart(s) in s'.queued;
    case StopTokened(n, t) => assert StopWorker(n, t) in s'.queued;
    case RevokeNumbered(n) => assert RevokeWorker(n) in s'.queued;
    case _ =>
  }

  /** A pending report stays pending until its worker takes the lock. */
  lemma PendingStays(s: Sys, e: Step)
    requires SeqInv(s) && Enabled(s, e) && !e.Acquire? && ReportPending(s)
    ensures ReportPending(Apply(s, e))
  {
    var s' := Apply(s, e);
    if s.main == Idle || Destroying(s.main) {
      if e.HolderMoves? {
        HolderTouches(s, e.choice);
      }
      var w :| w in s.queued && Reporter(w, s);
      assert w in s'.queued;
    } else if e.MainMoves? {
      SpawnIsPending(s);
    } else if e.HolderMoves? {
      HolderTouches(s, e.choice);
    }
  }

  /** Short of destroying the service, whatever the others do either leaves a report pending or changes nothing told. */
  lemma OthersReport(s: Sys, e: Step)
    requires SeqInv(s) && Enabled(s, e) && !e.HolderMoves? && !e.Acquire? && !Destroying(s.main)
    ensures var s' := Apply(s, e);
      || s'.flags.destroyed
      || ReportPending(s')
      || (s'.last == s.last && s'.flags.commandSeq == s.flags.commandSeq
          && !Destroying(s'.main) && s'.queued <= s.queued)
  {
    if e.MainMoves? {
      SpawnIsPending(s);
    }
  }

  lemma OthersSpareDestroy(s: Sys, e: Step)
    requires Enabled(s, e) && !e.HolderMoves? && !e.Acquire? && !Apply(s, e).flags.destroyed
    ensures !s.flags.destroyed
    ensures DestroyWorker !in s.queued && !Destroying(s.main) ==>
      !Destroying(Apply(s, e).main) && DestroyWorker !in Apply(s, e).queued
  {
  }

  lemma ReportsByOthers(s: Sys, e: Step)
    requires SeqInv(s) && ReportInv(s) && Enabled(s, e) && !e.HolderMoves? && !e.Acquire?
    ensures ReportInv(Apply(s, e))
  {
    var s' := Apply(s, e);
    if !s'.flags.destroyed {
      OthersTouch(s, e);
      OthersSpareDestroy(s, e);
      if ReportPending(s) {
        PendingStays(s, e);
      } else {
        OthersReport(s, e);
        if !ReportPending(s') {
          StaysTold(s, s');
        }
      }
    }
  }

  /** With the same tunnel, flag, lock, command number and report, the holder has as much to tell as before. */
  lemma StaysTold(s: Sys, s': Sys)
    requires s'.lock == s.lock && s'.tun.tunnel == s.tun.tunnel && s'.isEngineRunning == s.isEngineRunning
    requires s'.last == s.last && s'.flags.commandSeq == s.flags.commandSeq
    ensures s.lock.Held? && HolderReports(s) ==> HolderReports(s')
    ensures AgreesNow(s) ==> AgreesNow(s')
  {
  }

  lemma ReportsByAcquire(s: Sys, w: Worker)
    requires SeqInv(s) && ReportInv(s) && Enabled(s, Acquire(w))
    ensures ReportInv(TakeLock(s, w))
  {
    var s' := TakeLock(s, w);
    if !s.flags.destroyed && ReportPending(s) && !ReportPending(s') && s.main == Idle {
      var r :| r in s.queued && Reporter(r, s);
      assert r == w || r in s'.queued;
    }
  }

  /** What a move of the holder has to establish when no report is pending. */
  ghost predicate Tells(s: Sys) {
    if s.lock.Held? then HolderReports(s) else AgreesNow(s)
  }

  ghost predicate MayTell(s: Sys) {
    TunnelInv(s) && SeqInv(s) && !s.flags.destroyed && !ReportPending(s) && s.lock.Held? && HolderReports(s)
  }

  lemma EnterTells(s: Sys, at: EntryStage)
    requires MayTell(s) && IsAt(s, Entering(at))
    ensures Tells(Enter(s, at))
  {
  }

  /** runStart up to the engine start: nothing is told, so the START must still be the one to tell. */
  lemma StartTells(s: Sys, c: Choice)
    requires MayTell(s) && (s.lock.at.Preparing? || s.lock.at.Replacing? || s.lock.at.Booting?)
    ensures Tells(Advance(s, c))
  {
    match s.lock.at
    case Preparing(at) => assert Advance(s, c) == Prepare(s, at, c);
    case Replacing(at, previous, fd) => assert Advance(s, c) == Replace(s, at, previous, fd);
    case Booting(at, fd) => assert Advance(s, c) == Boot(s, at, fd, c);
  }

  lemma FinishTells(s: Sys, at: FinishStage)
    requires MayTell(s) && IsAt(s, Finishing(at))
    ensures Tells(Finish(s, at))
  {
  }

  lemma FailTells(s: Sys, at: FailStage)
    requires MayTell(s) && IsAt(s, Failing(at))
    ensures Tells(Fail(s, at))
  {
  }

  lemma StopTells(s: Sys, at: StopStage, thenReject: bool, call: StopCall)
    requires MayTell(s) && IsAt(s, Stopping(at, thenReject))
    ensures Tells(Stop(s, at, thenReject, call))
  {
  }

  lemma DropTells(s: Sys, at: DropStage, thenReject: bool, pfd: Option<Fd>)
    requires MayTell(s) && IsAt(s, Dropping(at, thenReject, pfd)) && s.lock.worker != DestroyWorker
    ensures Tells(Drop(s, at, thenReject, pfd))
  {
  }

  lemma LeaveTells(s: Sys, at: LeaveStage)
    requires MayTell(s) && IsAt(s, Leaving(at))
    ensures Tells(Leave(s, at))
  {
  }

  lemma HolderTells(s: Sys, c: Choice)
    requires MayTell(s) && s.lock.worker != DestroyWorker
    ensures Tells(Advance(s, c))
  {
    match s.lock.at
    case Entering(at) => EnterTells(s, at);
    case Finishing(at) => FinishTells(s, at);
    case Failing(at) => FailTells(s, at);
    case Stopping(at, thenReject) => StopTells(s, at, thenReject, c.stop);
    case Dropping(at, thenReject, pfd) => DropTells(s, at, thenReject, pfd);
    case Leaving(at) => LeaveTells(s, at);
    case _ => StartTells(s, c);
  }

  lemma ReportsByHolder(s: Sys, c: Choice)
    requires TunnelInv(s) && SeqInv(s) && ReportInv(s) && Enabled(s, HolderMoves(c))
    ensures ReportInv(Advance(s, c))
  {
    HolderTouches(s, c);
    if !s.flags.destroyed {
      if ReportPending(s) {
        PendingStays(s, HolderMoves(c));
      } else {
        HolderTells(s, c);
      }
    }
  }

  lemma ReportStep(s: Sys, e: Step)
    requires TunnelInv(s) && SeqInv(s) && ReportInv(s) && Enabled(s, e)
    ensures SeqInv(Apply(s, e)) && ReportInv(Apply(s, e))
  {
    SeqKept(s, e);
    if e.HolderMoves? {
      ReportsByHolder(s, e.choice);
    } else if e.Acquire? {
      ReportsByAcquire(s, e.worker);
    } else {
      ReportsByOthers(s, e);
    }
  }

  lemma {:induction false} ReportRun(s: Sys, es: seq<Step>)
    requires TunnelInv(s) && SeqInv(s) && ReportInv(s) && Runs(s, es)
    ensures SeqInv(After(s, es)) && ReportInv(After(s, es)) && TunnelInv(After(s, es))
    decreases |es|
  {
    if es != [] {
      StepKeeps(s, es[0]);
      ReportStep(s, es[0]);
      ReportRun(Apply(s, es[0]), es[1..]);
    }
  }

  lemma Reached(es: seq<Step>)
    requires Runs(INIT, es)
    ensures TunnelInv(After(INIT, es)) && SeqInv(After(INIT, es)) && ReportInv(After(INIT, es))
  {
    InitHolds();
    ReportRun(INIT, es);
  }

  // --- what it means -------------------------------------------------------

  /** No command is being dispatched and no worker is left. */
  predicate AtRest(s: Sys) {
    s.main == Idle && s.queued == {} && s.lock == Free
  }

  /**
   * State agreement. In every run without a destroy, once nothing is left to do the last
   * emitted state says exactly what the tunnel and the engine flag are.
   */
  lemma LastReportIsTrue(es: seq<Step>)
    requires Runs(INIT, es) && AtRest(After(INIT, es)) && !After(INIT, es).flags.destroyed
    ensures var s := After(INIT, es);
      && (s.last == Connected <==> s.tun.isRunning && s.isEngineRunning)
      && (s.last == Blocked <==> s.tun.isRunning && !s.isEngineRunning)
      && (s.last in {Disconnected, Failed, Nothing} <==> !s.tun.isRunning)
      && (s.last == Connected ==> s.engine.running == s.tun.tunnel && !s.engine.isWedged)
  {
    Reached(es);
  }

  // --- the newest STOP -----------------------------------------------------

  /** A STOP that holds the lock has not cleared the flags yet. */
  predicate StillStopping(at: Stage) {
    match at
    case Entering(e) => e.CheckSeq?
    case Dropping(d, _, _) => !d.ReleaseFd?
    case Leaving(_) => false
    case _ => true
  }

  /** The newest command is a STOP that has not dropped the tunnel yet. */
  ghost predicate StopWaiting(s: Sys) {
    || s.main.StopNumbered? || s.main.StopTokened?
    || (exists w :: w in s.queued && w.StopWorker? && w.seqNo == s.flags.commandSeq)
    || (s.lock.Held? && s.lock.worker.StopWorker? && s.lock.worker.seqNo == s.flags.commandSeq
        && StillStopping(s.lock.at))
  }

  /** The tunnel is down, both flags are, and no START is past its sequence check. */
  predicate IsDown(s: Sys) {
    && s.tun.tunnel.None? && !s.tun.isRunning && !s.isEngineRunning
    && (s.lock.Held? && s.lock.worker.StartWorker? ==> s.lock.at.Entering?)
  }

  /** `e` is the main thread numbering a new START. */
  predicate DispatchesStart(s: Sys, e: Step) {
    e.MainMoves? && s.main.StartEmitted?
  }

  lemma DownHolder(s: Sys, c: Choice)
    requires TunnelInv(s) && SeqInv(s) && Enabled(s, HolderMoves(c))
    requires IsDown(s) && !s.flags.newest.StartCommand?
    ensures IsDown(Advance(s, c))
  {
    match s.lock.at
    case Entering(at) => assert Advance(s, c) == Enter(s, at);
    case Stopping(at, thenReject) => assert Advance(s, c) == Stop(s, at, thenReject, c.stop);
    case Dropping(at, thenReject, pfd) => assert Advance(s, c) == Drop(s, at, thenReject, pfd);
    case Leaving(at) => assert Advance(s, c) == Leave(s, at);
    case _ =>
  }

  /** Down stays down until a START is dispatched, however many older ones are queued. */
  lemma DownStays(s: Sys, e: Step)
    requires TunnelInv(s) && SeqInv(s) && Enabled(s, e) && !DispatchesStart(s, e)
    requires IsDown(s) && !s.flags.newest.StartCommand?
    ensures IsDown(Apply(s, e)) && !Apply(s, e).flags.newest.StartCommand?
  {
    if e.HolderMoves? {
      HolderTouches(s, e.choice);
      DownHolder(s, e.choice);
    } else if !e.Acquire? {
      OthersTouch(s, e);
    }
  }

  lemma StopProceeds(s: Sys, e: Step)
    requires TunnelInv(s) && SeqInv(s) && Enabled(s, e)
    requires StopWaiting(s) && s.flags.newest.StopCommand? && Apply(s, e).flags.newest.StopCommand?
    ensures StopWaiting(Apply(s, e)) || IsDown(Apply(s, e))
  {
    if s.main.StopNumbered? || s.main.StopTokened? {
      StopBeingDispatched(s, e);
    } else if w :| w in s.queued && w.StopWorker? && w.seqNo == s.flags.commandSeq {
      StopStaysQueued(s, e, w);
    } else if e.HolderMoves? {
      StopAtWork(s, e.choice);
    } else {
      OthersTouch(s, e);
    }
  }

  lemma StopBeingDispatched(s: Sys, e: Step)
    requires SeqInv(s) && Enabled(s, e) && (s.main.StopNumbered? || s.main.StopTokened?)
    ensures StopWaiting(Apply(s, e))
  {
    var s' := Apply(s, e);
    if e.HolderMoves? {
      HolderTouches(s, e.choice);
    } else if e.MainMoves? && s.main.StopTokened? {
      assert StopWorker(s.main.seqNo, s.main.token) in s'.queued;
    }
  }

  lemma StopStaysQueued(s: Sys, e: Step, w: Worker)
    requires SeqInv(s) && Enabled(s, e) && s.main != StopNumbered(s.flags.commandSeq)
    requires s.flags.newest.StopCommand? && Apply(s, e).flags.newest.StopCommand?
    requires w in s.queued && w.StopWorker? && w.seqNo == s.flags.commandSeq
    ensures StopWaiting(Apply(s, e))
  {
    var s' := Apply(s, e);
    if e.HolderMoves? {
      HolderTouches(s, e.choice);
    }
    assert w in s'.queued || s'.lock == Held(w, Entering(CheckSeq));
  }

  lemma StopAtWork(s: Sys, c: Choice)
    requires TunnelInv(s) && SeqInv(s) && Enabled(s, HolderMoves(c))
    requires s.lock.worker.StopWorker? && s.lock.worker.seqNo == s.flags.commandSeq && StillStopping(s.lock.at)
    ensures StopWaiting(Advance(s, c)) || IsDown(Advance(s, c))
  {
    match s.lock.at
    case Entering(at) => assert Advance(s, c) == Enter(s, at);
    case Stopping(at, thenReject) => assert Advance(s, c) == Stop(s, at, thenReject, c.stop);
    case Dropping(at, thenReject, pfd) => assert Advance(s, c) == Drop(s, at, thenReject, pfd);
    case _ =>
  }

  lemma StopInvStep(s: Sys, e: Step)
    requires TunnelInv(s) && SeqInv(s) && Enabled(s, e)
    requires s.flags.newest.StopCommand? ==> StopWaiting(s) || IsDown(s)
    ensures Apply(s, e).flags.newest.StopCommand? ==> StopWaiting(Apply(s, e)) || IsDown(Apply(s, e))
  {
    var s' := Apply(s, e);
    if s'.flags.newest.StopCommand? {
      if !s.flags.newest.StopCommand? {
        BecomesStop(s, e);
      } else if StopWaiting(s) {
        StopProceeds(s, e);
      } else if !DispatchesStart(s, e) {
        DownStays(s, e);
      }
    }
  }

  lemma BecomesStop(s: Sys, e: Step)
    requires Enabled(s, e) && !s.flags.newest.StopCommand? && Apply(s, e).flags.newest.StopCommand?
    ensures Apply(s, e).main.StopNumbered?
  {
    if e.HolderMoves? {
      HolderTouches(s, e.choice);
    }
  }

  lemma {:induction false} StopInvRun(s: Sys, es: seq<Step>)
    requires TunnelInv(s) && SeqInv(s) && ReportInv(s) && Runs(s, es)
    requires s.flags.newest.StopCommand? ==> StopWaiting(s) || IsDown(s)
    ensures After(s, es).flags.newest.StopCommand? ==> StopWaiting(After(s, es)) || IsDown(After(s, es))
    decreases |es|
  {
    if es != [] {
      StepKeeps(s, es[0]);
      ReportStep(s, es[0]);
      StopInvStep(s, es[0]);
      StopInvRun(Apply(s, es[0]), es[1..]);
    }
  }

  lemma {:induction false} DownUntilNextStart(s: Sys, es: seq<Step>)
    requires TunnelInv(s) && SeqInv(s) && ReportInv(s) && Runs(s, es)
    requires IsDown(s) && !s.flags.newest.StartCommand?
    requires NoStartDispatched(s, es)
    ensures IsDown(After(s, es))
    decreases |es|
  {
    if es != [] {
      StepKeeps(s, es[0]);
      ReportStep(s, es[0]);
      DownStays(s, es[0]);
      DownUntilNextStart(Apply(s, es[0]), es[1..]);
    }
  }

  predicate NoStartDispatched(s: Sys, es: seq<Step>)
    requires Runs(s, es)
    decreases |es|
  {
    es == [] || (!DispatchesStart(s, es[0]) && NoStartDispatched(Apply(s, es[0]), es[1..]))
  }

  /**
   * Newest STOP wins. Once the worker of the newest command, a STOP, has dropped the tunnel,
   * the tunnel is down and both flags are false; and they stay so until another START is
   * dispatched, however many older STARTs were queued.
   */
  lemma NewestStopWins(es: seq<Step>, later: seq<Step>)
    requires Runs(INIT, es)
    requires After(INIT, es).flags.newest.StopCommand? && !StopWaiting(After(INIT, es))
    requires Runs(After(INIT, es), later) && NoStartDispatched(After(INIT, es), later)
    ensures IsDown(After(INIT, es)) && IsDown(After(After(INIT, es), later))
  {
    Reached(es);
    InitHolds();
    StopInvRun(INIT, es);
    DownUntilNextStart(After(INIT, es), later);
  }
}
