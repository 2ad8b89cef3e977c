/**
 * A condition on the commands under which no sample of an engine is accepted in front of its
 * 'connected': no START is delivered while another command is still at work.
 */
module Overlaps {
  import opened Options
  import opened Engine
  import opened Protocol
  import opened Tunnel
  import opened StateReports
  import opened Undisturbed
  import opened Metering
  import opened Punctual
  import S = Session

  // --- one START at a time -------------------------------------------------

  /** The START is on its way to 'connected'. */
  predicate AtWork(at: Stage) {
    at.Preparing? || at.Replacing? || at.Booting? || (at.Finishing? && !at.finish.ResolveUp?)
  }

  predicate Frozen(m: Meter) {
    S.Run(m.events).suspended
  }

  /** A START that may still come up finds the session frozen and nobody else alive. */
  predicate StartFits(m: Meter, w: Worker) {
    w.StartWorker? && w.seqNo == m.sys.flags.commandSeq ==> Frozen(m) && m.sys.queued <= {w}
  }

  ghost predicate QuietInv(m: Meter) {
    && (m.sys.isEngineRunning && !m.announced ==> Frozen(m))
    && (m.sys.main.StartEmitted? || m.sys.main.StartNumbered? ==> Frozen(m) && m.sys.queued == {} && m.sys.lock == Free)
    && (m.sys.lock.Held? && AtWork(m.sys.lock.at) ==> Frozen(m))
    && (m.sys.lock.Held? && m.sys.lock.at == Entering(CheckSeq) ==> StartFits(m, m.sys.lock.worker))
    && (forall w :: w in m.sys.queued ==>
          StartFits(m, w) && (w.StartWorker? && w.seqNo == m.sys.flags.commandSeq ==> m.sys.lock == Free))
  }

  /**
   * A START is delivered only to a service with no command at work, nothing destroys the service, and
   * a reply that is accepted comes in front of the next terminal state and of later replies.
   */
  predicate Quiet(m: Meter, a: Act)
    requires CanDo(m, a)
  {
    match a
    case Move(e) =>
      e != Destroy && (e.Deliver? && e.intent.StartIntent? ==> m.sys.queued == {} && m.sys.lock == Free)
    case Read(_) => true
    case Feed(k) => Frozen(m) || (!m.replies[k].stale && !m.replies[k].overtaken)
  }

  predicate QuietRun(m: Meter, acts: seq<Act>)
    requires Goes(m, acts)
    decreases |acts|
  {
    acts == [] || (Quiet(m, acts[0]) && QuietRun(Do(m, acts[0]), acts[1..]))
  }

  /** A reply of an engine that has not been announced came from a frozen session, and finds it so. */
  predicate EarlyInv(m: Meter) {
    forall i :: 0 <= i < |m.replies| && m.replies[i].early && !m.replies[i].stale ==> Frozen(m)
  }

  ghost predicate CalmInv(m: Meter) {
    PunctualInv(m) && SeqInv(m.sys) && QuietInv(m)
  }

  lemma FrozenOnceTold(events: seq<S.Event>, told: seq<S.Event>)
    requires told == [] || told == [S.Suspend] || told == [S.CommitRestart]
    ensures S.Run(events + told).suspended == if told == [] then S.Run(events).suspended else told == [S.Suspend]
  {
    if told == [] {
      assert events + told == events;
    } else {
      S.OneMore(events, told[0]);
    }
  }

  lemma FrozenAfter(m: Meter, e: Step)
    requires Enabled(m.sys, e)
    ensures var told := S.Told(Emission(m.sys, e));
      Frozen(Moved(m, e)) == if told == [] then Frozen(m) else told == [S.Suspend]
  {
    FrozenOnceTold(m.events, S.Told(Emission(m.sys, e)));
  }

  lemma QuietHolder(m: Meter, c: Choice)
    requires CalmInv(m) && Enabled(m.sys, HolderMoves(c))
    ensures QuietInv(Moved(m, HolderMoves(c)))
  {
    match m.sys.lock.at
    case Entering(at) => QuietEnter(m, at, c);
    case Finishing(at) => QuietFinish(m, at, c);
    case Failing(at) => QuietFail(m, at, c);
    case Stopping(at, thenReject) => QuietStopping(m, at, thenReject, c);
    case Dropping(at, thenReject, pfd) => QuietDropping(m, at, thenReject, pfd, c);
    case Leaving(at) => QuietLeaving(m, at, c);
    case _ => QuietStart(m, c);
  }

  lemma QuietEnter(m: Meter, at: EntryStage, c: Choice)
    requires CalmInv(m) && IsAt(m.sys, Entering(at)) && Enabled(m.sys, HolderMoves(c))
    ensures QuietInv(Moved(m, HolderMoves(c)))
  {
    HolderTouches(m.sys, c);
    FrozenAfter(m, HolderMoves(c));
    assert Advance(m.sys, c) == Enter(m.sys, at);
  }

  /** Once a worker that is not on its way to 'connected' holds the lock, no START can still come up. */
  lemma NobodyStarting(m: Meter)
    requires CalmInv(m) && m.sys.lock.Held? && m.sys.lock.at != Entering(CheckSeq)
    ensures !m.sys.main.StartEmitted? && !m.sys.main.StartNumbered?
    ensures forall w :: w in m.sys.queued ==> !(w.StartWorker? && w.seqNo == m.sys.flags.commandSeq)
  {
  }

  /** The next state has the flag down, nothing new queued and the holder on its way out. */
  predicate WindsDown(s: Sys, s': Sys) {
    && !s'.isEngineRunning && s'.main == s.main && s'.flags.commandSeq == s.flags.commandSeq
    && s'.queued <= s.queued + {DestroyReport}
    && (s'.lock.Held? ==> !AtWork(s'.lock.at) && !s'.lock.at.Entering?)
  }

  lemma QuietOnceDown(m: Meter, m': Meter)
    requires CalmInv(m) && m.sys.lock.Held? && m.sys.lock.at != Entering(CheckSeq) && WindsDown(m.sys, m'.sys)
    ensures QuietInv(m')
  {
    NobodyStarting(m);
  }

  /** The session stays frozen, and nobody else has got any further. */
  lemma QuietWhileFrozen(m: Meter, m': Meter)
    requires CalmInv(m) && m.sys.lock.Held? && m.sys.lock.at != Entering(CheckSeq) && Frozen(m)
    requires m'.events == m.events && m'.sys.main == m.sys.main && m'.sys.queued == m.sys.queued
    requires m'.sys.flags.commandSeq == m.sys.flags.commandSeq
    requires m'.sys.lock.Held? && !m'.sys.lock.at.Entering?
    ensures QuietInv(m')
  {
    NobodyStarting(m);
  }

  predicate GoesOn(s: Sys, s': Sys) {
    && s'.main == s.main && s'.queued == s.queued && s'.flags.commandSeq == s.flags.commandSeq
    && s'.lock.Held? && !s'.lock.at.Entering?
  }

  lemma StartGoesOn(s: Sys, c: Choice)
    requires StageFits(s) && s.lock.Held? && (s.lock.at.Preparing? || s.lock.at.Replacing? || s.lock.at.Booting?)
    ensures GoesOn(s, Advance(s, c)) && Emission(s, HolderMoves(c)) == Nothing
  {
    HolderTouches(s, c);
    match s.lock.at
    case Preparing(at) => assert Advance(s, c) == Prepare(s, at, c);
    case Replacing(at, previous, fd) => assert Advance(s, c) == Replace(s, at, previous, fd);
    case Booting(at, fd) => assert Advance(s, c) == Boot(s, at, fd, c);
  }

  lemma QuietStart(m: Meter, c: Choice)
    requires CalmInv(m) && Enabled(m.sys, HolderMoves(c))
    requires m.sys.lock.at.Preparing? || m.sys.lock.at.Replacing? || m.sys.lock.at.Booting?
    ensures QuietInv(Moved(m, HolderMoves(c)))
  {
    StartGoesOn(m.sys, c);
    assert m.events + [] == m.events;
    QuietWhileFrozen(m, Moved(m, HolderMoves(c)));
  }

  lemma QuietFail(m: Meter, at: FailStage, c: Choice)
    requires CalmInv(m) && IsAt(m.sys, Failing(at)) && Enabled(m.sys, HolderMoves(c))
    ensures QuietInv(Moved(m, HolderMoves(c)))
  {
    assert WindsDown(m.sys, Fail(m.sys, at));
    QuietOnceDown(m, Moved(m, HolderMoves(c)));
  }

  lemma QuietPreempt(m: Meter, thenReject: bool, c: Choice)
    requires CalmInv(m) && IsAt(m.sys, Stopping(PreemptStart, thenReject)) && Enabled(m.sys, HolderMoves(c))
    ensures QuietInv(Moved(m, HolderMoves(c)))
  {
    NobodyStarting(m);
    assert m.events + [] == m.events;
    assert Advance(m.sys, c) == Goto(Settle(m.sys, false), Stopping(StopFlag, false));
  }

  lemma QuietStopping(m: Meter, at: StopStage, thenReject: bool, c: Choice)
    requires CalmInv(m) && IsAt(m.sys, Stopping(at, thenReject)) && Enabled(m.sys, HolderMoves(c))
    ensures QuietInv(Moved(m, HolderMoves(c)))
  {
    if at.PreemptStart? {
      QuietPreempt(m, thenReject, c);
    } else {
      assert WindsDown(m.sys, Stop(m.sys, at, thenReject, c.stop));
      QuietOnceDown(m, Moved(m, HolderMoves(c)));
    }
  }

  lemma DroppingWindsDown(s: Sys, at: DropStage, thenReject: bool, pfd: Option<Fd>)
    requires IsAt(s, Dropping(at, thenReject, pfd)) && !s.isEngineRunning
    ensures WindsDown(s, Drop(s, at, thenReject, pfd))
  {
    if at.ReleaseFd? {
      var released := ReleaseDescriptor(s, pfd);
      assert released == s.(tun := released.tun);
    }
  }

  lemma QuietDropping(m: Meter, at: DropStage, thenReject: bool, pfd: Option<Fd>, c: Choice)
    requires CalmInv(m) && IsAt(m.sys, Dropping(at, thenReject, pfd)) && Enabled(m.sys, HolderMoves(c))
    ensures QuietInv(Moved(m, HolderMoves(c)))
  {
    DroppingWindsDown(m.sys, at, thenReject, pfd);
    QuietOnceDown(m, Moved(m, HolderMoves(c)));
  }

  lemma QuietLeaving(m: Meter, at: LeaveStage, c: Choice)
    requires CalmInv(m) && IsAt(m.sys, Leaving(at)) && Enabled(m.sys, HolderMoves(c))
    ensures QuietInv(Moved(m, HolderMoves(c)))
  {
    assert WindsDown(m.sys, Leave(m.sys, at));
    QuietOnceDown(m, Moved(m, HolderMoves(c)));
  }

  /** 'connected' lifts the freeze, and the engine is announced by it. */
  lemma QuietAnnounce(m: Meter, c: Choice)
    requires CalmInv(m) && IsAt(m.sys, Finishing(AnnounceUp)) && Enabled(m.sys, HolderMoves(c))
    ensures QuietInv(Moved(m, HolderMoves(c)))
  {
    NobodyStarting(m);
    assert Advance(m.sys, c) == Goto(m.sys.(last := Connected), Finishing(ResolveUp));
  }

  lemma QuietFinish(m: Meter, at: FinishStage, c: Choice)
    requires CalmInv(m) && IsAt(m.sys, Finishing(at)) && Enabled(m.sys, HolderMoves(c))
    ensures QuietInv(Moved(m, HolderMoves(c)))
  {
    if at.AnnounceUp? {
      QuietAnnounce(m, c);
    } else {
      NobodyStarting(m);
      assert m.events + [] == m.events;
      assert Advance(m.sys, c) == Finish(m.sys, at);
    }
  }

  lemma QuietMain(m: Meter)
    requires CalmInv(m) && m.sys.main != Idle
    ensures QuietInv(Moved(m, MainMoves))
  {
    FrozenAfter(m, MainMoves);
  }

  lemma QuietDelivery(m: Meter, i: Intent)
    requires CalmInv(m) && Enabled(m.sys, Deliver(i)) && (i.StartIntent? ==> m.sys.queued == {} && m.sys.lock == Free)
    ensures QuietInv(Moved(m, Deliver(i)))
  {
    FrozenAfter(m, Deliver(i));
  }

  /** Nothing that QuietInv looks at has changed, except that threads have ended. */
  predicate StaysQuiet(m: Meter, m': Meter) {
    && m'.sys.isEngineRunning == m.sys.isEngineRunning && m'.announced == m.announced && Frozen(m') == Frozen(m)
    && m'.sys.main == m.sys.main && m'.sys.lock == m.sys.lock && m'.sys.queued <= m.sys.queued
    && m'.sys.flags.commandSeq == m.sys.flags.commandSeq
  }

  lemma QuietUnchanged(m: Meter, m': Meter)
    requires CalmInv(m) && StaysQuiet(m, m')
    ensures QuietInv(m')
  {
  }

  lemma QuietRevoke(m: Meter)
    requires CalmInv(m) && Enabled(m.sys, Revoke)
    ensures QuietInv(Moved(m, Revoke))
  {
    FrozenAfter(m, Revoke);
  }

  lemma QuietOthers(m: Meter, e: Step)
    requires CalmInv(m) && Enabled(m.sys, e) && e != Destroy && e != Revoke
    requires !e.HolderMoves? && !e.MainMoves? && !e.Deliver? && !e.Acquire?
    ensures QuietInv(Moved(m, e))
  {
    OthersTouch(m.sys, e);
    assert m.events + [] == m.events;
    assert StaysQuiet(m, Moved(m, e));
    QuietUnchanged(m, Moved(m, e));
  }

  lemma QuietAcquire(m: Meter, w: Worker)
    requires CalmInv(m) && Enabled(m.sys, Acquire(w))
    ensures QuietInv(Moved(m, Acquire(w)))
  {
    FrozenAfter(m, Acquire(w));
  }

  lemma QuietMove(m: Meter, e: Step)
    requires CalmInv(m) && Enabled(m.sys, e) && Quiet(m, Move(e))
    ensures QuietInv(Moved(m, e))
  {
    if e.HolderMoves? {
      QuietHolder(m, e.choice);
    } else if e.MainMoves? {
      QuietMain(m);
    } else if e.Deliver? {
      QuietDelivery(m, e.intent);
    } else if e.Acquire? {
      QuietAcquire(m, e.worker);
    } else if e == Revoke {
      QuietRevoke(m);
    } else {
      QuietOthers(m, e);
    }
  }

  lemma EarlyByMoving(m: Meter, e: Step)
    requires EarlyInv(m) && Enabled(m.sys, e)
    ensures EarlyInv(Moved(m, e))
  {
    FrozenAfter(m, e);
  }

  lemma EarlyByReading(m: Meter, counters: S.Traffic)
    requires EarlyInv(m) && QuietInv(m) && CanDo(m, Read(counters))
    ensures EarlyInv(Do(m, Read(counters)))
  {
  }

  lemma EarlyByFeeding(m: Meter, k: nat)
    requires EarlyInv(m) && CanDo(m, Feed(k))
    ensures EarlyInv(Do(m, Feed(k))) && Frozen(Do(m, Feed(k))) == Frozen(m)
  {
    S.OneMore(m.events, SampleOf(m.replies[k]));
  }

  lemma EarlyStays(m: Meter, a: Act)
    requires EarlyInv(m) && QuietInv(m) && CanDo(m, a)
    ensures EarlyInv(Do(m, a))
  {
    match a
    case Move(e) => EarlyByMoving(m, e);
    case Read(counters) => EarlyByReading(m, counters);
    case Feed(k) => EarlyByFeeding(m, k);
  }

  lemma QuietStays(m: Meter, a: Act)
    requires CalmInv(m) && EarlyInv(m) && CanDo(m, a) && Quiet(m, a)
    ensures SeqInv(Do(m, a).sys) && QuietInv(Do(m, a))
  {
    match a
    case Move(e) =>
      SeqKept(m.sys, e);
      QuietMove(m, e);
    case Read(counters) => QuietUnchanged(m, Do(m, a));
    case Feed(k) =>
      EarlyByFeeding(m, k);
      QuietUnchanged(m, Do(m, a));
  }

  lemma QuietStep(m: Meter, a: Act)
    requires CalmInv(m) && EarlyInv(m) && CanDo(m, a) && Quiet(m, a)
    ensures CalmInv(Do(m, a)) && EarlyInv(Do(m, a)) && !Unpunctual(m, a)
  {
    ActKeeps(m, a);
    QuietStays(m, a);
    EarlyStays(m, a);
  }

  lemma {:induction false} QuietIsPunctual(m: Meter, acts: seq<Act>)
    requires CalmInv(m) && EarlyInv(m) && Goes(m, acts) && QuietRun(m, acts)
    ensures IsPunctual(m, acts)
    decreases |acts|
  {
    if acts != [] {
      QuietStep(m, acts[0]);
      QuietIsPunctual(Do(m, acts[0]), acts[1..]);
    }
  }

  /**
   * The total is exact all along every run without a destroy in which each START is delivered after
   * the commands before it have finished, and each accepted reply in front of the next terminal state
   * and of later replies, however samples, STOPs, revokes and failures fall.
   */
  lemma QuietIsExact(acts: seq<Act>)
    requires Goes(START, acts) && QuietRun(START, acts)
    ensures AlwaysExact(START, acts)
  {
    StartHolds();
    QuietIsPunctual(START, acts);
    PunctualIsExact(acts);
  }
}
