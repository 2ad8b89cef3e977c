/**
 * Start and stop completions over every interleaving: each is settled at most once, by
 * nobody but a command that captured its token, and never left hanging; and whose success it is
 * that resolves a start.
 */
module Promises {
  import opened Options
  import opened StateBus
  import opened Engine
  import opened Protocol
  import opened Tunnel

  // --- the invariant -------------------------------------------------------

  predicate Sends(i: Intent, t: nat) {
    i.StartIntent? && i.forToken == Some(t)
  }

  /** A START that holds the lock at `at` has its captured start still to settle. */
  predicate WillSettle(at: Stage) {
    match at
    case Finishing(f) => !f.LateAlive?
    case Stopping(_, thenReject) => thenReject
    case Dropping(_, thenReject, _) => thenReject
    case _ => true
  }

  /** Somebody still has to settle start `t`: a caller, an undelivered intent, the main thread, a START. */
  ghost predicate Carried(s: Sys, t: nat) {
    || t in s.mail.arming
    || (exists i :: i in s.mail.intents && Sends(i, t))
    || (s.main.StartEmitted? && Sends(s.main.intent, t))
    || (s.main.StartNumbered? && Sends(s.main.intent, t))
    || (exists w :: w in s.queued && w.StartWorker? && w.token == t)
    || (s.lock.Held? && s.lock.worker.StartWorker? && s.lock.worker.token == t && WillSettle(s.lock.at))
  }

  ghost predicate TokensDealt(s: Sys) {
    && (forall w :: w in s.queued ==> TokenOf(w) <= s.bus.startTokenSeq)
    && (s.lock.Held? ==> TokenOf(s.lock.worker) <= s.bus.startTokenSeq)
    && (s.main.StopTokened? ==> s.main.token <= s.bus.startTokenSeq)
  }

  ghost predicate PromiseInv(s: Sys) {
    && BusInv(s.bus)
    && TokensDealt(s)
    && (s.bus.pendingStart.Some? ==> Carried(s, s.bus.pendingStart.value))
  }

  // --- every step keeps it -------------------------------------------------

  /** The stages in which the lock holder settles the start it captured, and how. */
  predicate Rejects(at: Stage) {
    match at
    case Entering(e) => e.RejectStale?
    case Finishing(f) => f.LateResolve?
    case Failing(f) => f.ResolveHold? || f.ResolveError?
    case Stopping(t, _) => t.PreemptStart?
    case Leaving(l) => l.RejectDestroyed?
    case _ => false
  }

  predicate ReleasesStop(at: Stage) {
    at == Entering(ReleaseStale) || at == Leaving(ResolveStopped)
  }

  /** All a lock holder does to the bus: settle the start it captured, run the stop callback, or nothing. */
  ghost function HolderBus(s: Sys): Bus
    requires s.lock.Held?
  {
    if s.lock.at == Finishing(ResolveUp) then Resolve(s.bus, TokenOf(s.lock.worker), true)
    else if Rejects(s.lock.at) then Resolve(s.bus, TokenOf(s.lock.worker), false)
    else if ReleasesStop(s.lock.at) then ResolveStop(s.bus)
    else s.bus
  }

  lemma FinishOnBus(s: Sys, at: FinishStage)
    requires IsAt(s, Finishing(at))
    ensures Finish(s, at).bus == HolderBus(s)
  {
  }

  lemma FailOnBus(s: Sys, at: FailStage)
    requires IsAt(s, Failing(at))
    ensures Fail(s, at).bus == HolderBus(s)
  {
  }

  lemma LeaveOnBus(s: Sys, at: LeaveStage)
    requires IsAt(s, Leaving(at))
    ensures Leave(s, at).bus == HolderBus(s)
  {
  }

  lemma DropOnBus(s: Sys, at: DropStage, thenReject: bool, pfd: Option<Fd>)
    requires IsAt(s, Dropping(at, thenReject, pfd))
    ensures Drop(s, at, thenReject, pfd).bus == HolderBus(s)
  {
  }

  lemma HolderOnBus(s: Sys, c: Choice)
    requires s.lock.Held?
    ensures Advance(s, c).bus == HolderBus(s)
  {
    match s.lock.at
    case Finishing(at) => FinishOnBus(s, at);
    case Failing(at) => FailOnBus(s, at);
    case Leaving(at) => LeaveOnBus(s, at);
    case Dropping(at, thenReject, pfd) => DropOnBus(s, at, thenReject, pfd);
    case _ =>
  }

  lemma HolderKeepsBus(s: Sys, c: Choice)
    requires s.lock.Held? && BusInv(s.bus)
    ensures BusInv(Advance(s, c).bus) && Advance(s, c).bus.startTokenSeq == s.bus.startTokenSeq
  {
    HolderOnBus(s, c);
    ResolveKeeps(s.bus, TokenOf(s.lock.worker), true);
    ResolveKeeps(s.bus, TokenOf(s.lock.worker), false);
    StopOpsKeep(s.bus);
  }

  lemma BusKept(s: Sys, e: Step)
    requires BusInv(s.bus) && Enabled(s, e)
    ensures BusInv(Apply(s, e).bus) && Apply(s, e).bus.startTokenSeq >= s.bus.startTokenSeq
  {
    match e
    case ArmStart => ArmKeeps(s.bus);
    case ArmStopCallback => StopOpsKeep(s.bus);
    case SendStartFails(t) => ResolveKeeps(s.bus, t, false);
    case ReportDestroyed => StopOpsKeep(s.bus);
    case HolderMoves(c) => HolderKeepsBus(s, c);
    case _ =>
  }

  // Start `t` stays carried, by cases on who carries it.

  lemma CarriedByArming(s: Sys, e: Step, t: nat)
    requires Enabled(s, e) && t in s.mail.arming && Apply(s, e).bus.pendingStart == Some(t) == s.bus.pendingStart
    requires s.bus.pendingStartToken == t
    ensures Carried(Apply(s, e), t)
  {
    var s' := Apply(s, e);
    if e.HolderMoves? {
      HolderTouches(s, e.choice);
    } else if e.SendStart? && e.token == t {
      assert StartIntent(Some(t), e.dns, false) in s'.mail.intents;
    }
  }

  lemma CarriedByIntent(s: Sys, e: Step, t: nat, i: Intent)
    requires Enabled(s, e) && i in s.mail.intents && Sends(i, t)
    ensures Carried(Apply(s, e), t)
  {
    var s' := Apply(s, e);
    if e.HolderMoves? {
      HolderTouches(s, e.choice);
    }
    assert i in s'.mail.intents || s'.main == StartEmitted(i);
  }

  lemma CarriedByMain(s: Sys, e: Step, t: nat)
    requires Enabled(s, e) && s.bus.pendingStartToken == t
    requires (s.main.StartEmitted? || s.main.StartNumbered?) && Sends(s.main.intent, t)
    ensures Carried(Apply(s, e), t)
  {
    var s' := Apply(s, e);
    if e.HolderMoves? {
      HolderTouches(s, e.choice);
    } else if e.MainMoves? && s.main.StartNumbered? {
      assert SpawnedStart(s) in s'.queued && SpawnedStart(s).token == t;
    }
  }

  lemma CarriedByQueue(s: Sys, e: Step, t: nat, w: Worker)
    requires Enabled(s, e) && w in s.queued && w.StartWorker? && w.token == t
    ensures Carried(Apply(s, e), t)
  {
    var s' := Apply(s, e);
    if e.HolderMoves? {
      HolderTouches(s, e.choice);
    }
    assert w in s'.queued || s'.lock == Held(w, Entering(CheckSeq));
  }

  /** A START gives up the lock, or passes the stages that owe a settlement, only by settling. */
  lemma SettlesBeforeLeaving(s: Sys, c: Choice)
    requires StageFits(s) && s.lock.Held? && s.lock.worker.StartWorker? && WillSettle(s.lock.at)
    requires s.lock.at != Finishing(ResolveUp) && !Rejects(s.lock.at)
    ensures var lock := Advance(s, c).lock; lock.Held? && lock.worker == s.lock.worker && WillSettle(lock.at)
  {
  }

  lemma CarriedByHolder(s: Sys, e: Step, t: nat)
    requires StageFits(s) && s.bus.pendingStartToken == t && s.bus.pendingStart == Some(t) && Enabled(s, e)
    requires s.lock.Held? && s.lock.worker.StartWorker? && s.lock.worker.token == t && WillSettle(s.lock.at)
    requires Apply(s, e).bus.pendingStart == Some(t)
    ensures Carried(Apply(s, e), t)
  {
    if e.HolderMoves? {
      HolderOnBus(s, e.choice);
      SettlesBeforeLeaving(s, e.choice);
    } else {
      OthersTouch(s, e);
    }
  }

  lemma CarriedKept(s: Sys, e: Step)
    requires StageFits(s) && PromiseInv(s) && Enabled(s, e)
    requires Apply(s, e).bus.pendingStart.Some?
    ensures Carried(Apply(s, e), Apply(s, e).bus.pendingStart.value)
  {
    var t := Apply(s, e).bus.pendingStart.value;
    if !e.ArmStart? {
      StillPending(s, e);
      if w :| w in s.queued && w.StartWorker? && w.token == t {
        CarriedByQueue(s, e, t, w);
      } else if i :| i in s.mail.intents && Sends(i, t) {
        CarriedByIntent(s, e, t, i);
      } else if t in s.mail.arming {
        CarriedByArming(s, e, t);
      } else if (s.main.StartEmitted? || s.main.StartNumbered?) && Sends(s.main.intent, t) {
        CarriedByMain(s, e, t);
      } else {
        CarriedByHolder(s, e, t);
      }
    }
  }

  /** Only arming makes a start pending. */
  lemma StillPending(s: Sys, e: Step)
    requires Enabled(s, e) && !e.ArmStart? && Apply(s, e).bus.pendingStart.Some?
    ensures s.bus.pendingStart == Apply(s, e).bus.pendingStart
  {
    if e.HolderMoves? {
      HolderOnBus(s, e.choice);
    }
  }

  lemma TokenIsDealt(b: Bus)
    requires BusInv(b)
    ensures b.pendingStartToken <= b.startTokenSeq
  {
    assert StartPlaces(b, b.pendingStartToken) >= 0;
  }

  lemma TokensKept(s: Sys, e: Step)
    requires PromiseInv(s) && Enabled(s, e)
    ensures TokensDealt(Apply(s, e))
  {
    BusKept(s, e);
    TokenIsDealt(s.bus);
    if e.HolderMoves? {
      HolderTouches(s, e.choice);
    }
  }

  lemma PromiseStep(s: Sys, e: Step)
    requires StageFits(s) && PromiseInv(s) && Enabled(s, e)
    ensures PromiseInv(Apply(s, e))
  {
    BusKept(s, e);
    TokensKept(s, e);
    if Apply(s, e).bus.pendingStart.Some? {
      CarriedKept(s, e);
    }
  }

  lemma {:induction false} PromiseRun(s: Sys, es: seq<Step>)
    requires TunnelInv(s) && PromiseInv(s) && Runs(s, es)
    ensures PromiseInv(After(s, es)) && TunnelInv(After(s, es))
    decreases |es|
  {
    if es != [] {
      StepKeeps(s, es[0]);
      PromiseStep(s, es[0]);
      PromiseRun(Apply(s, es[0]), es[1..]);
    }
  }

  lemma InitPromises()
    ensures TunnelInv(INIT) && PromiseInv(INIT)
  {
    InitHolds();
    assert BusInv(INIT.bus) by {
      forall t: nat ensures StartPlaces(INIT.bus, t) == 0 && StopPlaces(INIT.bus, t) == 0 {}
    }
  }

  lemma Reached(es: seq<Step>)
    requires Runs(INIT, es)
    ensures TunnelInv(After(INIT, es)) && PromiseInv(After(INIT, es))
  {
    InitPromises();
    PromiseRun(INIT, es);
  }

  // --- settlement ----------------------------------------------------------

  /** No start and no stop completion is ever invoked twice, and none that was not armed. */
  lemma SettledAtMostOnce(es: seq<Step>, t: nat)
    requires Runs(INIT, es)
    ensures var b := After(INIT, es).bus;
      && b.settledOk[t] + b.settledFailed[t] <= (if 1 <= t <= b.startTokenSeq then 1 else 0)
      && b.stopsRun[t] <= (if 1 <= t <= b.stopsArmed then 1 else 0)
  {
    Reached(es);
    var b := After(INIT, es).bus;
    assert StartPlaces(b, t) <= 1 && StopPlaces(b, t) <= 1;
  }

  predicate NoStartUnderway(s: Sys) {
    && s.mail.arming == {}
    && (forall i :: i in s.mail.intents ==> i.StopIntent?)
    && !s.main.StartEmitted? && !s.main.StartNumbered?
    && (forall w :: w in s.queued ==> !w.StartWorker?)
    && (s.lock.Held? ==> !s.lock.worker.StartWorker?)
  }

  /** With no start intent undelivered and no START alive, every start ever armed has been settled, once. */
  lemma NoStartLeftHanging(es: seq<Step>, t: nat)
    requires Runs(INIT, es) && NoStartUnderway(After(INIT, es))
    ensures var b := After(INIT, es).bus;
      && b.pendingStart.None?
      && (1 <= t <= b.startTokenSeq ==> b.settledOk[t] + b.settledFailed[t] == 1)
  {
    Reached(es);
    var b := After(INIT, es).bus;
    assert StartPlaces(b, t) == if 1 <= t <= b.startTokenSeq then 1 else 0;
  }

  ghost function TimesSettled(s: Sys, t: nat): nat {
    s.bus.settledOk[t] + s.bus.settledFailed[t]
  }

  /**
   * Only three things settle start `t`: a newer start being armed over it, its own caller
   * failing to send it, or a worker that captured exactly this token when it was dispatched.
   */
  lemma WhoSettles(s: Sys, e: Step, t: nat)
    requires PromiseInv(s) && Enabled(s, e)
    requires TimesSettled(Apply(s, e), t) != TimesSettled(s, t)
    ensures s.bus.pendingStart == Some(t) && TimesSettled(Apply(s, e), t) == 1
    ensures e.ArmStart? || e == SendStartFails(t) || (e.HolderMoves? && TokenOf(s.lock.worker) == t)
  {
    assert StartPlaces(s.bus, t) <= 1;
    if e.HolderMoves? {
      HolderOnBus(s, e.choice);
    }
  }

  /** A worker never settles a start armed after the worker was dispatched, whatever happens in between. */
  lemma LaterStartsAreSafe(before: seq<Step>, between: seq<Step>, c: Choice, t: nat)
    requires Runs(INIT, before) && Runs(After(INIT, before), between)
    requires var s := After(After(INIT, before), between);
      && s.lock.Held? && Enabled(s, HolderMoves(c)) && s.lock.worker in After(INIT, before).queued
    requires t > After(INIT, before).bus.startTokenSeq
    ensures var s := After(After(INIT, before), between);
      TimesSettled(Advance(s, c), t) == TimesSettled(s, t)
  {
    Reached(before);
    var s0 := After(INIT, before);
    var s := After(s0, between);
    PromiseRun(s0, between);
    assert TokenOf(s.lock.worker) <= s0.bus.startTokenSeq;
    if TimesSettled(Advance(s, c), t) != TimesSettled(s, t) {
      WhoSettles(s, HolderMoves(c), t);
    }
  }
}
