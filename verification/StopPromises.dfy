/**
 * Stop completions over every interleaving. None is left hanging; but the slot has no token, so a
 * completion may be run by a STOP other than its own, and then it does not mean what it should.
 */
module StopPromises {
  import opened Options
  import opened StateBus
  import opened Engine
  import opened Protocol
  import opened Tunnel
  import opened Promises
  import opened StateReports
  import opened Undisturbed

  /** A STOP is undelivered, being dispatched or alive. */
  ghost predicate StopUnderway(s: Sys) {
    || StopIntent in s.mail.intents
    || s.main.StopNumbered? || s.main.StopTokened?
    || (exists w :: w in s.queued && w.StopWorker?)
    || (s.lock.Held? && s.lock.worker.StopWorker?)
  }

  /** A pending stop completion has its call still to send the STOP, or a STOP under way, or that call has failed. */
  ghost predicate StopInv(s: Sys) {
    s.bus.pendingStop.Some? ==>
      var t := s.bus.pendingStop.value;
      t in s.mail.stopping || t in s.mail.abandoned || StopUnderway(s)
  }

  /** Only arming makes a stop completion pending. */
  lemma StillPendingStop(s: Sys, e: Step)
    requires Enabled(s, e) && !e.ArmStopCallback? && Apply(s, e).bus.pendingStop.Some?
    ensures s.bus.pendingStop == Apply(s, e).bus.pendingStop
  {
    if e.HolderMoves? {
      HolderOnBus(s, e.choice);
    }
  }

  /** A STOP gives up the lock only by running the completion in the slot. */
  lemma StopRunsCompletion(s: Sys, c: Choice)
    requires StageFits(s) && s.lock.Held? && s.lock.worker.StopWorker?
    ensures var s' := Advance(s, c); s'.bus.pendingStop.None? || (s'.lock.Held? && s'.lock.worker == s.lock.worker)
  {
    HolderOnBus(s, c);
    match s.lock.at
    case Entering(at) => assert Advance(s, c) == Enter(s, at);
    case Stopping(at, thenReject) => assert Advance(s, c) == Stop(s, at, thenReject, c.stop);
    case Dropping(at, thenReject, pfd) => assert Advance(s, c) == Drop(s, at, thenReject, pfd);
    case Leaving(at) => assert Advance(s, c) == Leave(s, at);
    case _ =>
  }

  lemma UnderwayOnMain(s: Sys)
    requires s.main.StopNumbered? || s.main.StopTokened?
    ensures StopUnderway(MainStep(s))
  {
    if s.main.StopTokened? {
      assert StopWorker(s.main.seqNo, s.main.token) in MainStep(s).queued;
    }
  }

  /** A STOP stays under way until its worker has run the completion in the slot. */
  lemma UnderwayStays(s: Sys, e: Step)
    requires StageFits(s) && Enabled(s, e) && StopUnderway(s)
    ensures StopUnderway(Apply(s, e)) || Apply(s, e).bus.pendingStop.None?
  {
    var s' := Apply(s, e);
    if e.HolderMoves? {
      HolderTouches(s, e.choice);
      if s.lock.worker.StopWorker? {
        StopRunsCompletion(s, e.choice);
      }
      assert forall w :: w in s.queued ==> w in s'.queued;
    } else if e.MainMoves? {
      if s.main.StopNumbered? || s.main.StopTokened? {
        UnderwayOnMain(s);
      }
      assert forall w :: w in s.queued ==> w in s'.queued;
    } else if e.Acquire? {
      assert forall w :: w in s.queued ==> w in s'.queued || s'.lock.worker == w;
    } else {
      UnderwayWithOthers(s, e);
    }
  }

  lemma UnderwayWithOthers(s: Sys, e: Step)
    requires Enabled(s, e) && StopUnderway(s)
    requires !e.HolderMoves? && !e.MainMoves? && !e.Acquire?
    ensures StopUnderway(Apply(s, e))
  {
    var s' := Apply(s, e);
    OthersTouch(s, e);
    assert forall w :: w in s.queued && w.StopWorker? ==> w in s'.queued;
  }

  /** The call that armed completion `t` has not sent its STOP, or could not. */
  predicate Unsent(s: Sys, t: nat) {
    t in s.mail.stopping || t in s.mail.abandoned
  }

  lemma UnsentStays(s: Sys, e: Step, t: nat)
    requires Enabled(s, e) && Unsent(s, t)
    ensures Unsent(Apply(s, e), t) || StopUnderway(Apply(s, e))
  {
    if e.HolderMoves? {
      HolderTouches(s, e.choice);
    } else if e.SendStop? {
      assert StopIntent in Apply(s, e).mail.intents;
    }
  }

  lemma StopStep(s: Sys, e: Step)
    requires StageFits(s) && StopInv(s) && Enabled(s, e)
    ensures StopInv(Apply(s, e))
  {
    var s' := Apply(s, e);
    if !e.ArmStopCallback? && s'.bus.pendingStop.Some? {
      StillPendingStop(s, e);
      if Unsent(s, s'.bus.pendingStop.value) {
        UnsentStays(s, e, s'.bus.pendingStop.value);
      } else {
        UnderwayStays(s, e);
      }
    }
  }

  lemma {:induction false} StopRun(s: Sys, es: seq<Step>)
    requires TunnelInv(s) && StopInv(s) && Runs(s, es)
    ensures StopInv(After(s, es))
    decreases |es|
  {
    if es != [] {
      StepKeeps(s, es[0]);
      StopStep(s, es[0]);
      StopRun(Apply(s, es[0]), es[1..]);
    }
  }

  /**
   * With no STOP unsent, undelivered or alive, every stop completion ever armed has been run,
   * once, unless its own call could not send the STOP (and resumed its promise itself).
   */
  lemma NoStopLeftHanging(es: seq<Step>, t: nat)
    requires Runs(INIT, es)
    requires After(INIT, es).mail.stopping == {} && !StopUnderway(After(INIT, es))
    ensures var s := After(INIT, es);
      1 <= t <= s.bus.stopsArmed && t !in s.mail.abandoned ==> s.bus.pendingStop != Some(t) && s.bus.stopsRun[t] == 1
  {
    Promises.Reached(es);
    InitHolds();
    StopRun(INIT, es);
    var b := After(INIT, es).bus;
    assert StopPlaces(b, t) == if 1 <= t <= b.stopsArmed then 1 else 0;
  }

  // --- what it means that a stop completion is run --------------------------

  /** The step takes whatever is in the stop slot and runs it. */
  predicate RunsCompletion(s: Sys, e: Step) {
    match e
    case ArmStopCallback => true
    case ReportDestroyed => true
    case HolderMoves(_) => s.lock.Held? && ReleasesStop(s.lock.at)
    case _ => false
  }

  /**
   * Exactly when a stop completion is run: when it is in the slot and a newer stop is armed, a
   * superseded STOP gives up, a STOP or a revoke ends, or onDestroy's thread reports.
   */
  lemma WhoReleases(s: Sys, e: Step, t: nat)
    requires Enabled(s, e)
    ensures Apply(s, e).bus.stopsRun[t] != s.bus.stopsRun[t] <==> s.bus.pendingStop == Some(t) && RunsCompletion(s, e)
  {
    if e.HolderMoves? {
      HolderOnBus(s, e.choice);
    }
  }

  /**
   * What `stopXray` is told. Its completion is run by the end of a teardown, and then the tunnel is
   * down; or by a newer stop, a superseded STOP or the report of a destroy, and then nothing is said.
   */
  lemma ReleasedMeansDown(es: seq<Step>, e: Step, t: nat)
    requires Runs(INIT, es) && Enabled(After(INIT, es), e)
    requires Apply(After(INIT, es), e).bus.stopsRun[t] != After(INIT, es).bus.stopsRun[t]
    ensures var s := After(INIT, es);
      || (IsAt(s, Leaving(ResolveStopped)) && e.HolderMoves? && TunnelIsDown(s) && TunnelIsDown(Apply(s, e)))
      || (IsAt(s, Entering(ReleaseStale)) && e.HolderMoves? && s.lock.worker.StopWorker?)
      || e == ArmStopCallback
      || e == ReportDestroyed
  {
    InitHolds();
    RunKeeps(INIT, es);
    WhoReleases(After(INIT, es), e, t);
  }

  // --- a run in which it means nothing ---------------------------------------

  lemma TwoStopsAreSent(s: Sys) returns (es: seq<Step>, mail: Mail)
    requires AtRest(s)
    ensures Leads(s, es, s.(bus := ArmStop(ArmStop(s.bus)), mail := mail))
    ensures mail.intents == s.mail.intents + multiset{StopIntent, StopIntent}
  {
    var t := s.bus.stopsArmed + 1;
    var first := Apply(Apply(s, ArmStopCallback), SendStop(t));
    var second := Apply(Apply(first, ArmStopCallback), SendStop(t + 1));
    mail := second.mail;
    es := [ArmStopCallback] + [SendStop(t)] + [ArmStopCallback];
    ThreeSteps(s, ArmStopCallback, SendStop(t), ArmStopCallback);
    ThenStep(s, es, Apply(first, ArmStopCallback), SendStop(t + 1), second);
    es := es + [SendStop(t + 1)];
  }

  /** One of the intents has been dispatched. */
  function Dispatched(s: Sys, w: Worker, mail: Mail): Sys {
    s.(mail := mail, queued := s.queued + {w}, last := Disconnecting,
       flags := s.flags.(commandSeq := s.flags.commandSeq + 1, newest := StopCommand))
  }

  lemma StopIsDispatched(s: Sys, w: Worker) returns (es: seq<Step>, mail: Mail)
    requires s.main == Idle && StopIntent in s.mail.intents
    requires w == StopWorker(s.flags.commandSeq + 1, s.bus.pendingStartToken)
    ensures Leads(s, es, Dispatched(s, w, mail)) && mail.intents == s.mail.intents - multiset{StopIntent}
  {
    mail := Apply(s, Deliver(StopIntent)).mail;
    es := [Deliver(StopIntent)] + [MainMoves] + [MainMoves];
    ThreeSteps(s, Deliver(StopIntent), MainMoves, MainMoves);
  }

  lemma StaleStopGivesUp(s: Sys, w: Worker) returns (es: seq<Step>)
    requires s.lock == Free && w in s.queued && w.StopWorker? && w.seqNo != s.flags.commandSeq
    ensures Leads(s, es, s.(queued := s.queued - {w}, bus := ResolveStop(s.bus)))
  {
    var held := TakeLock(s, w);
    es := [Acquire(w)] + [HolderMoves(GOOD)] + [HolderMoves(GOOD)];
    ThreeSteps(s, Acquire(w), HolderMoves(GOOD), HolderMoves(GOOD));
  }

  /** The completion of the newer stop has been run, its STOP is still queued, and nothing has been stopped. */
  predicate ReleasedTooEarly(s: Sys, s': Sys) {
    var t := s.bus.stopsArmed + 2;
    && s'.bus.stopsRun[t] == ArmStop(ArmStop(s.bus)).stopsRun[t] + 1
    && StopWorker(s'.flags.commandSeq, s.bus.pendingStartToken) in s'.queued
    && s'.tun == s.tun && s'.engine == s.engine && s'.isEngineRunning == s.isEngineRunning
  }

  /** Both STOPs have been dispatched, and the older one holds a stale number. */
  lemma TwoStopsAreQueued(s: Sys, v: Worker, w: Worker) returns (es: seq<Step>, mail: Mail)
    requires AtRest(s)
    requires v == StopWorker(s.flags.commandSeq + 1, s.bus.pendingStartToken)
    requires w == StopWorker(s.flags.commandSeq + 2, s.bus.pendingStartToken)
    ensures Leads(s, es, Dispatched(Dispatched(s.(bus := ArmStop(ArmStop(s.bus))), v, mail), w, mail))
  {
    var sent, twice := TwoStopsAreSent(s);
    var armed := s.(bus := ArmStop(ArmStop(s.bus)), mail := twice);
    var once, mail1 := StopIsDispatched(armed, v);
    var one := Dispatched(armed, v, mail1);
    var again, mail2 := StopIsDispatched(one, w);
    Joined(s, sent, armed, once, one);
    Joined(s, sent + once, one, again, Dispatched(one, w, mail2));
    es, mail := sent + once + again, mail2;
    assert Dispatched(Dispatched(s.(bus := ArmStop(ArmStop(s.bus))), v, mail), w, mail) == Dispatched(one, w, mail2);
  }

  function GivenUp(s: Sys, v: Worker): Sys {
    s.(queued := s.queued - {v}, bus := ResolveStop(s.bus))
  }

  lemma TooEarly(s: Sys, v: Worker, w: Worker, mail: Mail)
    requires AtRest(s)
    requires v == StopWorker(s.flags.commandSeq + 1, s.bus.pendingStartToken)
    requires w == StopWorker(s.flags.commandSeq + 2, s.bus.pendingStartToken)
    ensures ReleasedTooEarly(s, GivenUp(Dispatched(Dispatched(s.(bus := ArmStop(ArmStop(s.bus))), v, mail), w, mail), v))
  {
  }

  /**
   * From every state at rest, a connected one included: two calls of `stopXray`, and the worker of
   * the first, superseded by the second, runs the completion of the second.
   */
  lemma StaleStopReleasesNewer(s: Sys) returns (es: seq<Step>)
    requires AtRest(s)
    ensures Runs(s, es) && ReleasedTooEarly(s, After(s, es))
  {
    var v := StopWorker(s.flags.commandSeq + 1, s.bus.pendingStartToken);
    var w := StopWorker(s.flags.commandSeq + 2, s.bus.pendingStartToken);
    var queued, mail := TwoStopsAreQueued(s, v, w);
    var two := Dispatched(Dispatched(s.(bus := ArmStop(ArmStop(s.bus))), v, mail), w, mail);
    var given := StaleStopGivesUp(two, v);
    Joined(s, queued, two, given, GivenUp(two, v));
    TooEarly(s, v, w, mail);
    es := queued + given;
  }
}
