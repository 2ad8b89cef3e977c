/**
 * The last report of a service that is destroyed: true when no START was under way, and otherwise
 * perhaps 'connected' for good, over a tunnel that is gone.
 */
module LastWord {
  import opened Options
  import opened StateBus
  import opened Engine
  import opened Protocol
  import opened Tunnel
  import opened StateReports
  import opened Undisturbed
  import Destroyed
  import Interference

  // --- no START under way ----------------------------------------------------

  /** No START has been taken by the main thread and not finished. */
  predicate NoStart(s: Sys) {
    && !s.main.StartEmitted? && !s.main.StartNumbered?
    && (forall w :: w in s.queued ==> !w.StartWorker?)
    && (s.lock.Held? ==> !s.lock.worker.StartWorker?)
  }

  predicate TakesStart(e: Step) {
    e.Deliver? && e.intent.StartIntent?
  }

  lemma NoStartStays(s: Sys, e: Step)
    requires NoStart(s) && SeqInv(s) && Enabled(s, e) && !TakesStart(e)
    ensures NoStart(Apply(s, e))
  {
    if e.HolderMoves? {
      HolderTouches(s, e.choice);
    }
  }

  // --- what is still to be told ----------------------------------------------

  /** What is true to say when there is no tunnel. */
  predicate SaysDown(last: Emitted) {
    last in {Disconnected, Failed, Nothing}
  }

  /** A STOP or a revoke that holds the lock and will report. */
  predicate WillReport(s: Sys) {
    s.lock.Held? && (s.lock.worker.StopWorker? || s.lock.worker.RevokeWorker?) &&
    match s.lock.at
    case Entering(at) => at.CheckSeq? && s.lock.worker.StopWorker? && s.lock.worker.seqNo == s.flags.commandSeq
    case Leaving(at) => !at.ResolveStopped?
    case _ => true
  }

  /** onDestroy has a tunnel to see, or has seen one. */
  predicate WillTell(s: Sys) {
    s.main == DestroyTold(true) || ((s.main.DestroyMarked? || s.main.DestroyPeeks?) && s.tun.tunnel.Some?)
  }

  /** After a destroy without a START: what was said last is that nothing is up, or will be. */
  ghost predicate WordInv(s: Sys) {
    NoStart(s) && s.flags.destroyed && (ReportPending(s) || WillReport(s) || WillTell(s) || SaysDown(s.last))
  }

  lemma WordAtDestroy(s: Sys)
    requires TunnelInv(s) && SeqInv(s) && ReportInv(s) && NoStart(s) && Enabled(s, Destroy)
    ensures WordInv(Apply(s, Destroy))
  {
    var s' := Apply(s, Destroy);
    if ReportPending(s) {
      var w :| w in s.queued && Reporter(w, s);
      assert w in s'.queued && Reporter(w, s');
    }
  }

  lemma WordByOthers(s: Sys, e: Step)
    requires TunnelInv(s) && SeqInv(s) && WordInv(s) && Enabled(s, e) && !TakesStart(e)
    requires !e.HolderMoves? && !e.Acquire? && !ReportPending(s)
    ensures WordInv(Apply(s, e))
  {
    NoStartStays(s, e);
    OthersTouch(s, e);
    if e.MainMoves? && !Destroying(s.main) {
      SpawnIsPending(s);
    }
  }

  lemma WordByAcquire(s: Sys, w: Worker)
    requires SeqInv(s) && WordInv(s) && Enabled(s, Acquire(w))
    ensures WordInv(TakeLock(s, w))
  {
    var s' := TakeLock(s, w);
    NoStartStays(s, Acquire(w));
    if ReportPending(s) && s.main == Idle {
      var r :| r in s.queued && Reporter(r, s);
      assert r == w || (r in s'.queued && Reporter(r, s'));
    } else if ReportPending(s) && Destroying(s.main) {
      var r :| r in s.queued && Reporter(r, s);
      assert r == w || (r in s'.queued && Reporter(r, s'));
    }
  }

  lemma ReporterGoesOn(s: Sys, c: Choice)
    requires TunnelInv(s) && WillReport(s)
    ensures WillReport(Advance(s, c)) || SaysDown(Advance(s, c).last)
  {
    match s.lock.at
    case Entering(at) => assert Advance(s, c) == Enter(s, at);
    case Stopping(at, thenReject) => assert Advance(s, c) == Stop(s, at, thenReject, c.stop);
    case Dropping(at, thenReject, pfd) => assert Advance(s, c) == Drop(s, at, thenReject, pfd);
    case Leaving(at) => assert Advance(s, c) == Leave(s, at);
    case _ =>
  }

  /** Any other holder is a stale STOP, a STOP or revoke that has reported, or onDestroy's thread. */
  lemma OtherHolder(s: Sys, c: Choice)
    requires TunnelInv(s) && NoStart(s) && s.lock.Held? && !WillReport(s)
    ensures var s' := Advance(s, c);
      s'.last == s.last && (s'.tun.tunnel == s.tun.tunnel || s.lock.worker.DestroyWorker?)
  {
    match s.lock.at
    case Entering(at) => assert Advance(s, c) == Enter(s, at);
    case Stopping(at, thenReject) => assert Advance(s, c) == Stop(s, at, thenReject, c.stop);
    case Dropping(at, thenReject, pfd) => assert Advance(s, c) == Drop(s, at, thenReject, pfd);
    case Leaving(at) => assert Advance(s, c) == Leave(s, at);
    case _ =>
  }

  lemma WordByHolder(s: Sys, c: Choice)
    requires TunnelInv(s) && SeqInv(s) && Destroyed.DestroyInv(s) && WordInv(s) && Enabled(s, HolderMoves(c))
    ensures WordInv(Advance(s, c))
  {
    NoStartStays(s, HolderMoves(c));
    HolderTouches(s, c);
    if ReportPending(s) {
      PendingStays(s, HolderMoves(c));
    } else if WillReport(s) {
      ReporterGoesOn(s, c);
    } else {
      OtherHolder(s, c);
    }
  }

  lemma WordStep(s: Sys, e: Step)
    requires TunnelInv(s) && SeqInv(s) && Destroyed.DestroyInv(s) && WordInv(s) && Enabled(s, e) && !TakesStart(e)
    ensures WordInv(Apply(s, e))
  {
    if e.HolderMoves? {
      WordByHolder(s, e.choice);
    } else if e.Acquire? {
      WordByAcquire(s, e.worker);
    } else if ReportPending(s) {
      PendingStays(s, e);
      NoStartStays(s, e);
      Interference.DestroyedForGood(s, e);
    } else {
      WordByOthers(s, e);
    }
  }

  predicate NoStartTaken(es: seq<Step>) {
    forall i :: 0 <= i < |es| ==> !TakesStart(es[i])
  }

  lemma {:induction false} WordRun(s: Sys, es: seq<Step>)
    requires TunnelInv(s) && SeqInv(s) && Destroyed.DestroyInv(s) && WordInv(s) && Runs(s, es) && NoStartTaken(es)
    ensures WordInv(After(s, es)) && TunnelInv(After(s, es)) && Destroyed.DestroyInv(After(s, es))
    decreases |es|
  {
    if es != [] {
      StepKeeps(s, es[0]);
      SeqKept(s, es[0]);
      Destroyed.DestroyStep(s, es[0]);
      WordStep(s, es[0]);
      WordRun(Apply(s, es[0]), es[1..]);
    }
  }

  /**
   * State agreement under a destroy. If no START is under way when the service is destroyed, and
   * none is taken up after that, then once no worker is left there is no tunnel and the last report
   * says so, however many STOPs, revokes and late native calls the destroy runs into.
   */
  lemma QuietDestroyIsTold(before: seq<Step>, es: seq<Step>)
    requires Runs(INIT, before) && Enabled(After(INIT, before), Destroy) && NoStart(After(INIT, before))
    requires Runs(Apply(After(INIT, before), Destroy), es) && NoStartTaken(es)
    requires AtRest(After(Apply(After(INIT, before), Destroy), es))
    ensures var s' := After(Apply(After(INIT, before), Destroy), es);
      TunnelIsDown(s') && s'.last in {Disconnected, Failed, Nothing}
  {
    var s := After(INIT, before);
    Reached(before);
    InitHolds();
    Destroyed.DestroyRun(INIT, before);
    WordAtDestroy(s);
    StepKeeps(s, Destroy);
    SeqKept(s, Destroy);
    Destroyed.DestroyStep(s, Destroy);
    WordRun(Apply(s, Destroy), es);
  }

  // --- a run in which the last report is false -------------------------------

  /** The START has its engine up, has found itself the newest command and the service alive, and reports next. */
  function AboutToReport(s: Sys, w: Worker): Sys
    requires w.StartWorker?
  {
    Started(s, w).(last := s.last, bus := s.bus, lock := Held(w, Finishing(AnnounceUp)))
  }

  lemma LooksAgain(s: Sys, w: Worker)
    requires Newest(s, w) && s.lock.at == Finishing(RecheckSeq)
    ensures GoOn(s, 2) == s.(lock := Held(w, Finishing(AnnounceUp)))
  {
    var alive := Goto(s, Finishing(RecheckAlive));
    OneMove(s, alive, 1);
    OneMove(alive, Advance(alive, GOOD), 0);
    NoMove(Advance(alive, GOOD));
  }

  lemma ReadyLooks(s: Sys, w: Worker, fd: Fd)
    requires Newest(s, w) && s.lock.at == Booting(CheckAlive, fd) && Halted(s.engine)
    ensures GoOn(s, 6) ==
      s.(engine := s.engine.(running := Some(fd)), isEngineRunning := true, lock := Held(w, Finishing(AnnounceUp)))
  {
    EngineComesUp(s, w, fd);
    LooksAgain(GoOn(s, 4), w);
    GoOnAdds(s, 4, 2);
  }

  lemma PlanLooks(s: Sys, w: Worker)
    requires Newest(s, w) && s.lock.at == Preparing(Plan) && Halted(s.engine)
    ensures GoOn(s, if Reusable(s, w.dns) then 7 else 12) == AboutToReport(s, w)
  {
    TunnelIsReady(s, w);
    ReadyLooks(Ready(s, w), w, FdFor(s, w.dns));
    GoOnAdds(s, if Reusable(s, w.dns) then 1 else 6, 6);
  }

  lemma StartLooks(s: Sys, w: Worker)
    requires Newest(s, w) && s.lock.at == Entering(CheckSeq) && !s.engine.isWedged
    ensures GoOn(s, if Reusable(s, w.dns) then 10 else 15) == AboutToReport(s, w)
  {
    OldEngineStops(s, w);
    PlanLooks(GoOn(s, 3), w);
    GoOnAdds(s, 3, if Reusable(s, w.dns) then 7 else 12);
  }

  /** onDestroy has run from its beginning to its end. */
  function DestroyHandled(s: Sys): Sys {
    s.(flags := s.flags.(destroyed := true), queued := s.queued + {DestroyWorker}, last := Disconnected)
  }

  lemma DestroyIsHandled(s: Sys)
    requires s.main == Idle && !s.flags.destroyed && s.tun.isRunning
    ensures Leads(s, [Destroy] + [MainMoves] + [MainMoves], DestroyHandled(s))
  {
    ThreeSteps(s, Destroy, MainMoves, MainMoves);
  }

  /** The START reports 'connected' after all, and resolves the start. */
  lemma ReportsAfterAll(s: Sys, w: Worker)
    requires s.lock == Held(w, Finishing(AnnounceUp))
    ensures GoOn(s, 2) == s.(last := Connected, bus := Resolve(s.bus, TokenOf(w), true), lock := Free)
  {
    var resolve := Goto(s.(last := Connected), Finishing(ResolveUp));
    OneMove(s, resolve, 1);
    OneMove(resolve, Advance(resolve, GOOD), 0);
    NoMove(Advance(resolve, GOOD));
  }

  /** onDestroy's thread takes everything down, and says nothing. */
  function SilentlyDown(s: Sys): Sys {
    Dropped(s).(queued := s.queued + {DestroyReport}, lock := Free)
  }

  lemma ThreadHalts(s: Sys)
    requires s.lock == Held(DestroyWorker, Stopping(StopFlag, false))
    ensures GoOn(s, 6) == SilentlyDown(s)
  {
    EngineHalts(s, DestroyWorker);
    ThreadDrops(GoOn(s, 2));
    GoOnAdds(s, 2, 4);
  }

  lemma ThreadClaims(s: Sys)
    requires s.lock == Held(DestroyWorker, Dropping(DropTunnel, false, None))
    ensures GoOn(s, 2) ==
      s.(tun := s.tun.(tunnel := None, activeDns := None, isRunning := false),
         lock := Held(DestroyWorker, Dropping(DropFlag, false, s.tun.tunnel)))
  {
    var unpublish := Advance(s, GOOD);
    OneMove(s, unpublish, 1);
    OneMove(unpublish, Advance(unpublish, GOOD), 0);
    NoMove(Advance(unpublish, GOOD));
  }

  lemma ThreadLeaves(s: Sys, pfd: Option<Fd>)
    requires s.lock == Held(DestroyWorker, Dropping(ReleaseFd, false, pfd))
    ensures GoOn(s, 1) == ReleaseDescriptor(s, pfd).(queued := s.queued + {DestroyReport}, lock := Free)
  {
    OneMove(s, Advance(s, GOOD), 0);
    NoMove(Advance(s, GOOD));
  }

  lemma ThreadReleases(s: Sys, pfd: Option<Fd>)
    requires s.lock == Held(DestroyWorker, Dropping(DropFlag, false, pfd)) && !s.isEngineRunning
    ensures GoOn(s, 2) == ReleaseDescriptor(s, pfd).(queued := s.queued + {DestroyReport}, lock := Free)
  {
    var release := s.(lock := Held(DestroyWorker, Dropping(ReleaseFd, false, pfd)));
    assert Advance(s, GOOD) == release;
    OneMove(s, release, 1);
    ThreadLeaves(release, pfd);
  }

  lemma ThreadDrops(s: Sys)
    requires s.lock == Held(DestroyWorker, Dropping(DropTunnel, false, None)) && !s.isEngineRunning
    ensures
      var cleared := s.(tun := s.tun.(tunnel := None, activeDns := None, isRunning := false));
      GoOn(s, 4) ==
        ReleaseDescriptor(cleared, s.tun.tunnel).(queued := s.queued + {DestroyReport}, lock := Free)
  {
    ThreadClaims(s);
    ThreadReleases(GoOn(s, 2), s.tun.tunnel);
    GoOnAdds(s, 2, 2);
  }

  lemma ThreadIsRun(s: Sys) returns (es: seq<Step>)
    requires s.main == Idle && s.queued == {DestroyWorker} && s.lock == Free
    ensures Leads(s, es, SilentlyDown(TakeLock(s, DestroyWorker)).(queued := {}, bus := ResolveStop(s.bus)))
  {
    var held := TakeLock(s, DestroyWorker);
    ThreadHalts(held);
    var down := SilentlyDown(held);
    var worked := GoingOnIsARun(held, 6);
    OneStep(s, Acquire(DestroyWorker));
    Joined(s, [Acquire(DestroyWorker)], held, worked, down);
    assert down.queued == {DestroyReport} && down.queued - {DestroyReport} == {};
    ThenStep(s, [Acquire(DestroyWorker)] + worked, down, ReportDestroyed, Apply(down, ReportDestroyed));
    es := [Acquire(DestroyWorker)] + worked + [ReportDestroyed];
  }

  /** The service is gone, the app has its promise resolved and has been told 'connected' last. */
  predicate LeftConnected(s: Sys, s': Sys) {
    var t := s.bus.startTokenSeq + 1;
    && AtRest(s') && s'.flags.destroyed && TunnelIsDown(s') && s'.last == Connected
    && s'.bus.settledOk[t] == s.bus.settledOk[t] + 1
  }

  lemma StartComesToReport(s: Sys, dns: Dns, w: Worker) returns (es: seq<Step>, mail: Mail)
    requires AtRest(s) && !s.flags.destroyed && !s.engine.isWedged
    requires var t := s.bus.startTokenSeq + 1; w == StartWorker(s.flags.commandSeq + 1, t, Some(t), dns, false)
    ensures Leads(s, es, AboutToReport(StartAtWork(StartTaken(s, StartIntent(w.forToken, dns, false), mail), w), w))
  {
    var i := StartIntent(w.forToken, dns, false);
    var delivered;
    delivered, mail := StartIsDelivered(s, dns);
    var taken := StartTaken(s, i, mail);
    var dispatched := StartGetsLock(taken, i, w);
    var work := StartAtWork(taken, w);
    StartLooks(work, w);
    var worked := GoingOnIsARun(work, if Reusable(work, dns) then 10 else 15);
    Joined(s, delivered, taken, dispatched, work);
    Joined(s, delivered + dispatched, work, worked, AboutToReport(work, w));
    es := delivered + dispatched + worked;
  }

  /** What the destroy, the report and the thread of onDestroy make of it. */
  function Overtaken(s: Sys, w: Worker): Sys {
    var told := DestroyHandled(s).(last := Connected, bus := Resolve(s.bus, TokenOf(w), true), lock := Free);
    SilentlyDown(TakeLock(told, DestroyWorker)).(queued := {}, bus := ResolveStop(told.bus))
  }

  lemma DestroyComesBetween(s: Sys, w: Worker) returns (es: seq<Step>)
    requires s.lock == Held(w, Finishing(AnnounceUp)) && s.main == Idle && s.queued == {}
    requires !s.flags.destroyed && s.tun.isRunning
    ensures Leads(s, es, Overtaken(s, w))
  {
    var handled := DestroyHandled(s);
    DestroyIsHandled(s);
    ReportsAfterAll(handled, w);
    var reported := GoingOnIsARun(handled, 2);
    var told := handled.(last := Connected, bus := Resolve(handled.bus, TokenOf(w), true), lock := Free);
    assert told.queued == {DestroyWorker};
    var down := ThreadIsRun(told);
    Joined(s, [Destroy] + [MainMoves] + [MainMoves], handled, reported, told);
    Joined(s, [Destroy] + [MainMoves] + [MainMoves] + reported, told, down, Overtaken(s, w));
    es := [Destroy] + [MainMoves] + [MainMoves] + reported + down;
  }

  lemma DroppedIsDown(s: Sys)
    ensures TunnelIsDown(Dropped(s)) && Dropped(s).last == s.last && Dropped(s).bus == s.bus
    ensures Dropped(s).main == s.main && Dropped(s).flags == s.flags
  {
  }

  lemma OvertakenIsDown(s: Sys, w: Worker)
    requires s.main == Idle
    ensures var s' := Overtaken(s, w);
      && AtRest(s') && s'.flags.destroyed && TunnelIsDown(s') && s'.last == Connected
      && s'.bus.settledOk == Resolve(s.bus, TokenOf(w), true).settledOk
  {
    var told := DestroyHandled(s).(last := Connected, bus := Resolve(s.bus, TokenOf(w), true), lock := Free);
    DroppedIsDown(TakeLock(told, DestroyWorker));
  }

  lemma AboutToReportIs(s: Sys, w: Worker, i: Intent, mail: Mail)
    requires AtRest(s) && TunnelInv(s) && w.StartWorker?
    ensures var about := AboutToReport(StartAtWork(StartTaken(s, i, mail), w), w);
      && about.lock == Held(w, Finishing(AnnounceUp)) && about.main == Idle && about.queued == {}
      && about.flags.destroyed == s.flags.destroyed && about.tun.isRunning && about.bus == Arm(s.bus)
  {
  }

  lemma ArmedIsResolved(b: Bus)
    ensures var t := b.startTokenSeq + 1; Resolve(Arm(b), t, true).settledOk[t] == b.settledOk[t] + 1
  {
  }

  /**
   * From every state at rest of a live service: `startXray` brings the engine up and looks for a
   * destroy; the service is destroyed and reports 'disconnected'; the START reports 'connected' and
   * the promise resolves; then everything is torn down, and nothing more is said.
   */
  lemma DestroyLeavesConnected(s: Sys, dns: Dns) returns (es: seq<Step>)
    requires AtRest(s) && TunnelInv(s) && !s.flags.destroyed && !s.engine.isWedged
    ensures Runs(s, es) && LeftConnected(s, After(s, es))
  {
    var t := s.bus.startTokenSeq + 1;
    var w := StartWorker(s.flags.commandSeq + 1, t, Some(t), dns, false);
    var started, mail := StartComesToReport(s, dns, w);
    var work := StartAtWork(StartTaken(s, StartIntent(Some(t), dns, false), mail), w);
    var about := AboutToReport(work, w);
    AboutToReportIs(s, w, StartIntent(Some(t), dns, false), mail);
    ArmedIsResolved(s.bus);
    var rest := DestroyComesBetween(about, w);
    Joined(s, started, about, rest, Overtaken(about, w));
    OvertakenIsDown(about, w);
    es := started + rest;
  }
}
