/**
 * What becomes of a service that is destroyed, in every run: its teardown is never forgotten, and
 * after it no START leaves a tunnel behind.
 */
module Destroyed {
  import opened Options
  import opened Engine
  import opened Protocol
  import opened Tunnel

  /** onDestroy has still to spawn its thread. */
  predicate Unspawned(s: Sys) {
    s.main.DestroyMarked? || s.main.DestroyPeeks?
  }

  predicate AtWork(s: Sys) {
    s.lock.Held? && s.lock.worker.DestroyWorker?
  }

  /** The thread of onDestroy has still to be spawned, to get the lock, or to tear down. */
  predicate TeardownDue(s: Sys) {
    Unspawned(s) || DestroyWorker in s.queued || AtWork(s)
  }

  /** A lock holder that keeps no tunnel, because it has found the service destroyed or has still to look. */
  predicate LeavesNothing(s: Sys)
    requires s.lock.Held?
  {
    match s.lock.at
    case Entering(_) => s.tun.tunnel.None?
    case Preparing(_) => s.tun.tunnel.None?
    case Replacing(_, _, _) => true
    case Booting(at, _) => at.CheckAlive?
    case Finishing(_) => false
    case Failing(at) => s.tun.tunnel.None? && (at.FailKillSwitch? || at.AnnounceError? || at.ResolveError?)
    case Stopping(_, _) => !s.isEngineRunning && StoppedOrWedged(s.engine)
    case Dropping(_, _, _) => true
    case Leaving(_) => true
  }

  /** The service is destroyed and owes no teardown. */
  predicate Done(s: Sys) {
    s.flags.destroyed && !TeardownDue(s)
  }

  /** There is one such thread at most; once it is done nothing is up, and nothing will come up and stay. */
  predicate DestroyInv(s: Sys) {
    && (TeardownDue(s) ==> s.flags.destroyed)
    && (DestroyWorker in s.queued ==> !Unspawned(s))
    && (AtWork(s) ==> !Unspawned(s) && DestroyWorker !in s.queued)
    && (DestroyReport in s.queued ==> Done(s))
    && (Done(s) ==> if s.lock.Held? then LeavesNothing(s) else s.tun.tunnel.None?)
  }

  // --- every step keeps it ---------------------------------------------------

  lemma ThreadByMain(s: Sys)
    requires DestroyInv(s) && s.main != Idle
    ensures DestroyInv(MainStep(s))
  {
  }

  lemma ThreadByOthers(s: Sys, e: Step)
    requires DestroyInv(s) && Enabled(s, e) && !e.HolderMoves? && !e.Acquire? && !e.MainMoves?
    ensures DestroyInv(Apply(s, e))
  {
    OthersTouch(s, e);
  }

  lemma ThreadByAcquire(s: Sys, w: Worker)
    requires TunnelInv(s) && DestroyInv(s) && Enabled(s, Acquire(w))
    ensures DestroyInv(TakeLock(s, w))
  {
  }

  /** What the holder leaves behind. */
  predicate Left(s: Sys) {
    if s.lock.Held? then LeavesNothing(s) else s.tun.tunnel.None?
  }

  /** runStart up to the look for a destroy. */
  lemma StartLeavesNothing(s: Sys, c: Choice)
    requires TunnelInv(s) && s.lock.Held? && LeavesNothing(s) && s.flags.destroyed
    requires s.lock.at.Preparing? || s.lock.at.Replacing? || s.lock.at.Booting?
    ensures Left(Advance(s, c))
  {
    match s.lock.at
    case Preparing(at) => assert Advance(s, c) == Prepare(s, at, c);
    case Replacing(at, previous, fd) => assert Advance(s, c) == Replace(s, at, previous, fd);
    case Booting(at, fd) => assert Advance(s, c) == Boot(s, at, fd, c);
  }

  lemma FailureLeavesNothing(s: Sys, c: Choice)
    requires TunnelInv(s) && s.lock.Held? && LeavesNothing(s) && s.flags.destroyed
    requires s.lock.at.Entering? || s.lock.at.Failing?
    ensures Left(Advance(s, c))
  {
    match s.lock.at
    case Entering(at) => assert Advance(s, c) == Enter(s, at);
    case Failing(at) => assert Advance(s, c) == Fail(s, at);
  }

  lemma TeardownLeavesNothing(s: Sys, c: Choice)
    requires TunnelInv(s) && s.lock.Held? && LeavesNothing(s) && s.flags.destroyed
    requires s.lock.at.Stopping? || s.lock.at.Dropping? || s.lock.at.Leaving?
    ensures Left(Advance(s, c))
  {
    match s.lock.at
    case Stopping(at, thenReject) => assert Advance(s, c) == Stop(s, at, thenReject, c.stop);
    case Dropping(at, thenReject, pfd) => assert Advance(s, c) == Drop(s, at, thenReject, pfd);
    case Leaving(at) => assert Advance(s, c) == Leave(s, at);
  }

  lemma HolderLeavesNothing(s: Sys, c: Choice)
    requires TunnelInv(s) && s.lock.Held? && LeavesNothing(s) && s.flags.destroyed
    ensures Left(Advance(s, c))
  {
    if s.lock.at.Preparing? || s.lock.at.Replacing? || s.lock.at.Booting? {
      StartLeavesNothing(s, c);
    } else if s.lock.at.Entering? || s.lock.at.Failing? {
      FailureLeavesNothing(s, c);
    } else {
      TeardownLeavesNothing(s, c);
    }
  }

  /** onDestroy's thread tears down, and reports when it has left the lock. */
  lemma ThreadTearsDown(s: Sys, c: Choice)
    requires TunnelInv(s) && AtWork(s)
    ensures var s' := Advance(s, c);
      if s'.lock.Held? then s'.lock.worker == DestroyWorker && s'.queued == s.queued
      else s'.queued == s.queued + {DestroyReport} && s'.tun.tunnel.None?
    ensures Advance(s, c).main == s.main && Advance(s, c).flags == s.flags
  {
    match s.lock.at
    case Stopping(at, thenReject) => assert Advance(s, c) == Stop(s, at, thenReject, c.stop);
    case Dropping(at, thenReject, pfd) => assert Advance(s, c) == Drop(s, at, thenReject, pfd);
  }

  lemma ThreadByHolder(s: Sys, c: Choice)
    requires TunnelInv(s) && DestroyInv(s) && s.lock.Held?
    ensures DestroyInv(Advance(s, c))
  {
    if AtWork(s) {
      ThreadTearsDown(s, c);
    } else {
      HolderTouches(s, c);
      if Done(s) {
        HolderLeavesNothing(s, c);
      }
    }
  }

  lemma DestroyStep(s: Sys, e: Step)
    requires TunnelInv(s) && DestroyInv(s) && Enabled(s, e)
    ensures DestroyInv(Apply(s, e))
  {
    if e.HolderMoves? {
      ThreadByHolder(s, e.choice);
    } else if e.Acquire? {
      ThreadByAcquire(s, e.worker);
    } else if e.MainMoves? {
      ThreadByMain(s);
    } else {
      ThreadByOthers(s, e);
    }
  }

  lemma {:induction false} DestroyRun(s: Sys, es: seq<Step>)
    requires TunnelInv(s) && DestroyInv(s) && Runs(s, es)
    ensures TunnelInv(After(s, es)) && DestroyInv(After(s, es))
    decreases |es|
  {
    if es != [] {
      StepKeeps(s, es[0]);
      DestroyStep(s, es[0]);
      DestroyRun(Apply(s, es[0]), es[1..]);
    }
  }

  // --- what it means ---------------------------------------------------------

  /**
   * A destroyed service goes down and stays down. In every run, once onDestroy has spawned its
   * thread and that has torn down, whenever the lock is free there is no tunnel, both flags are down
   * and the engine is stopped or wedged, however many STARTs come later; and nobody holds the lock
   * who would start the engine, or report 'connected' or 'blocked'.
   */
  lemma DestroyedIsDown(es: seq<Step>)
    requires Runs(INIT, es) && After(INIT, es).flags.destroyed
    requires var s := After(INIT, es);
      && s.main != DestroyMarked && s.main != DestroyPeeks && DestroyWorker !in s.queued
      && (s.lock.Held? ==> s.lock.worker != DestroyWorker)
    ensures var s := After(INIT, es);
      && (s.lock == Free ==> TunnelIsDown(s))
      && (s.lock.Held? ==> !s.isEngineRunning && StoppedOrWedged(s.engine))
      && (s.lock.Held? ==> Announces(s.lock.at) != Connected && Announces(s.lock.at) != Blocked)
  {
    InitHolds();
    DestroyRun(INIT, es);
  }

  /** onDestroy's thread runs the stop completion when its teardown is over, and then the same holds. */
  lemma DestroyReportsDown(es: seq<Step>)
    requires Runs(INIT, es) && Enabled(After(INIT, es), ReportDestroyed)
    ensures After(INIT, es).flags.destroyed && !TeardownDue(After(INIT, es))
    ensures After(INIT, es).lock == Free ==> TunnelIsDown(After(INIT, es))
  {
    InitHolds();
    DestroyRun(INIT, es);
  }

  // --- what onDestroy tells --------------------------------------------------

  /** Step `j` is onDestroy's look at `isRunning`, and unless that was up step `k` is its look at the tunnel. */
  predicate Looked(s: Sys, es: seq<Step>, j: nat, k: nat)
    requires Runs(s, es)
  {
    && j <= k < |es| && es[j] == MainMoves && StateAt(s, es, j).main == DestroyMarked
    && if StateAt(s, es, j).tun.isRunning then k == j else j < k && Peeked(s, es, k)
  }

  predicate Peeked(s: Sys, es: seq<Step>, k: nat)
    requires Runs(s, es)
  {
    k < |es| && es[k] == MainMoves && StateAt(s, es, k).main == DestroyPeeks
  }

  /** How much of it lies behind: both looks, the second one, or neither. */
  datatype Sighting = Both(j: nat, k: nat) | Second(k: nat) | Neither

  /** The looks made on the way to DestroyTold(hadTunnel), and that it says what was seen. */
  predicate Saw(s: Sys, es: seq<Step>, x: Sighting, hadTunnel: bool)
    requires Runs(s, es)
  {
    match x
    case Both(j, k) =>
      Looked(s, es, j, k) && hadTunnel == (StateAt(s, es, j).tun.isRunning || StateAt(s, es, k).tun.tunnel.Some?)
    case Second(k) => s.main == DestroyPeeks && Peeked(s, es, k) && hadTunnel == StateAt(s, es, k).tun.tunnel.Some?
    case Neither => s.main == DestroyTold(hadTunnel)
  }

  lemma ComesToPeek(s: Sys, e: Step)
    requires Enabled(s, e) && Apply(s, e).main == DestroyPeeks
    ensures s.main == DestroyPeeks || (e == MainMoves && s.main == DestroyMarked && !s.tun.isRunning)
  {
    if e.HolderMoves? {
      HolderTouches(s, e.choice);
    }
  }

  lemma ComesToTell(s: Sys, e: Step, hadTunnel: bool)
    requires Enabled(s, e) && Apply(s, e).main == DestroyTold(hadTunnel)
    ensures
      || s.main == DestroyTold(hadTunnel)
      || (e == MainMoves && s.main == DestroyMarked && s.tun.isRunning && hadTunnel)
      || (e == MainMoves && s.main == DestroyPeeks && hadTunnel == s.tun.tunnel.Some?)
  {
    if e.HolderMoves? {
      HolderTouches(s, e.choice);
    }
  }

  lemma SecondShifts(s: Sys, es: seq<Step>, k: nat, hadTunnel: bool) returns (x: Sighting)
    requires es != [] && Runs(s, es) && Saw(Apply(s, es[0]), es[1..], Second(k), hadTunnel)
    ensures Saw(s, es, x, hadTunnel)
  {
    ComesToPeek(s, es[0]);
    x := if s.main == DestroyPeeks then Second(k + 1) else Both(0, k + 1);
  }

  lemma BothShift(s: Sys, es: seq<Step>, j: nat, k: nat, hadTunnel: bool)
    requires es != [] && Runs(s, es) && Saw(Apply(s, es[0]), es[1..], Both(j, k), hadTunnel)
    ensures Saw(s, es, Both(j + 1, k + 1), hadTunnel)
  {
  }

  lemma FirstSeen(s: Sys, es: seq<Step>, hadTunnel: bool) returns (x: Sighting)
    requires es != [] && Runs(s, es) && Apply(s, es[0]).main == DestroyTold(hadTunnel)
    ensures Saw(s, es, x, hadTunnel)
  {
    ComesToTell(s, es[0], hadTunnel);
    x := if s.main == DestroyTold(hadTunnel) then Neither else if s.main == DestroyPeeks then Second(0) else Both(0, 0);
  }

  lemma {:induction false} TellsAfterLook(s: Sys, es: seq<Step>, hadTunnel: bool) returns (x: Sighting)
    requires Runs(s, es) && After(s, es).main == DestroyTold(hadTunnel)
    ensures Saw(s, es, x, hadTunnel)
    decreases |es|
  {
    x := Neither;
    if es != [] {
      x := TellsAfterLook(Apply(s, es[0]), es[1..], hadTunnel);
      match x
      case Both(j, k) =>
        BothShift(s, es, j, k, hadTunnel);
        x := Both(j + 1, k + 1);
      case Second(k) => x := SecondShifts(s, es, k, hadTunnel);
      case Neither => x := FirstSeen(s, es, hadTunnel);
    }
  }

  /** The emission says what was seen at the two looks. */
  predicate TellsOf(s: Sys, atFlag: Sys, atTunnel: Sys)
    requires s.main != Idle
  {
    Apply(s, MainMoves).last ==
      if atFlag.tun.isRunning || atTunnel.tun.tunnel.Some? then Disconnected else s.last
  }

  /** In every run: onDestroy reports 'disconnected' if and only if it has seen `isRunning` or else the tunnel up. */
  lemma DestroyTells(es: seq<Step>)
    requires Runs(INIT, es) && After(INIT, es).main.DestroyTold?
    ensures exists j: nat, k: nat ::
      Looked(INIT, es, j, k) && TellsOf(After(INIT, es), StateAt(INIT, es, j), StateAt(INIT, es, k))
  {
    var x := TellsAfterLook(INIT, es, After(INIT, es).main.hadTunnel);
    assert Looked(INIT, es, x.j, x.k);
  }
}
