/**
 * When the tunnel may not go away: the kill switch fails closed, and a switch between
 * servers with the same resolvers keeps one descriptor.
 */
module Continuity {
  import opened Options
  import opened Engine
  import opened Protocol
  import opened Tunnel

  /** A STOP that is still the newest command finds it is, and goes on to tear down. */
  predicate StopGoesThrough(s: Sys, e: Step) {
    e.HolderMoves? && IsAt(s, Entering(CheckSeq)) && s.lock.worker.StopWorker?
    && s.lock.worker.seqNo == s.flags.commandSeq
  }

  /** No revoke and no destroy is in progress, and no STOP is past its sequence check. */
  ghost predicate NobodyTearsDown(s: Sys) {
    && !s.flags.tunnelRevoked && !s.flags.destroyed
    && !s.main.RevokeNumbered? && !s.main.DestroyMarked? && !s.main.DestroyPeeks? && !s.main.DestroyTold?
    && (forall w :: w in s.queued ==> !w.RevokeWorker? && w != DestroyWorker)
    && (s.lock.Held? ==> !s.lock.worker.RevokeWorker? && s.lock.worker != DestroyWorker
                         && (s.lock.worker.StopWorker? ==> s.lock.at.Entering?))
  }

  /** The stages in which a failed START gives the tunnel up. */
  predicate GivesUp(at: Stage) {
    at == Failing(AnnounceError) || at == Failing(ResolveError) || at.Stopping? || at.Dropping? ||
    at == Leaving(RejectDestroyed)
  }

  predicate Leaves(s: Sys, e: Step) {
    e.Revoke? || e.Destroy? || StopGoesThrough(s, e)
  }

  /** The run from `s` has no revoke, no destroy, and no STOP that goes through. */
  predicate NothingLeaves(s: Sys, es: seq<Step>)
    requires Runs(s, es)
    decreases |es|
  {
    es == [] || (!Leaves(s, es[0]) && NothingLeaves(Apply(s, es[0]), es[1..]))
  }

  lemma NobodyStarts(s: Sys, e: Step)
    requires TunnelInv(s) && NobodyTearsDown(s) && Enabled(s, e) && !Leaves(s, e)
    ensures NobodyTearsDown(Apply(s, e))
  {
    if e.HolderMoves? {
      HolderTouches(s, e.choice);
    } else if !e.Acquire? {
      OthersTouch(s, e);
    }
  }

  // --- the kill switch -----------------------------------------------------

  /** The kill switch is on and, if there is a tunnel, no START has given it up. */
  ghost predicate Guarded(s: Sys) {
    && NobodyTearsDown(s) && s.flags.killSwitch
    && (s.tun.tunnel.Some? && s.lock.Held? ==> !GivesUp(s.lock.at))
  }

  predicate SwitchStaysOn(es: seq<Step>) {
    SetKillSwitch(false) !in es
  }

  lemma GuardedStep(s: Sys, e: Step)
    requires TunnelInv(s) && Guarded(s) && Enabled(s, e) && !Leaves(s, e) && e != SetKillSwitch(false)
    ensures Guarded(Apply(s, e))
    ensures s.tun.tunnel.Some? ==> Apply(s, e).tun.tunnel.Some? && (s.tun.isRunning ==> Apply(s, e).tun.isRunning)
  {
    NobodyStarts(s, e);
    if e.HolderMoves? {
      HolderTouches(s, e.choice);
      GuardedHolder(s, e.choice);
    } else if !e.Acquire? {
      OthersTouch(s, e);
    }
  }

  /** The holder's next state keeps the tunnel there is, and heads for no teardown with it. */
  predicate KeepsTunnel(s: Sys, s': Sys) {
    && (s'.tun.tunnel.Some? && s'.lock.Held? ==> !GivesUp(s'.lock.at))
    && (s.tun.tunnel.Some? ==> s'.tun.tunnel.Some? && (s.tun.isRunning ==> s'.tun.isRunning))
  }

  lemma GuardedHolder(s: Sys, c: Choice)
    requires TunnelInv(s) && Guarded(s) && Enabled(s, HolderMoves(c)) && !StopGoesThrough(s, HolderMoves(c))
    ensures KeepsTunnel(s, Advance(s, c))
  {
    if s.lock.at.Entering? || s.lock.at.Preparing? || s.lock.at.Replacing? || s.lock.at.Booting? {
      GuardedStart(s, c);
    } else {
      GuardedEnd(s, c);
    }
  }

  lemma GuardedStart(s: Sys, c: Choice)
    requires TunnelInv(s) && Guarded(s) && Enabled(s, HolderMoves(c)) && !StopGoesThrough(s, HolderMoves(c))
    requires s.lock.at.Entering? || s.lock.at.Preparing? || s.lock.at.Replacing? || s.lock.at.Booting?
    ensures KeepsTunnel(s, Advance(s, c))
  {
    match s.lock.at
    case Entering(at) => assert Advance(s, c) == Enter(s, at);
    case Preparing(at) => assert Advance(s, c) == Prepare(s, at, c);
    case Replacing(at, previous, fd) => assert Advance(s, c) == Replace(s, at, previous, fd);
    case Booting(at, fd) => assert Advance(s, c) == Boot(s, at, fd, c);
  }

  lemma GuardedEnd(s: Sys, c: Choice)
    requires TunnelInv(s) && Guarded(s) && Enabled(s, HolderMoves(c))
    requires s.lock.at.Finishing? || s.lock.at.Failing? || s.lock.at.Stopping? || s.lock.at.Dropping? ||
             s.lock.at.Leaving?
    ensures KeepsTunnel(s, Advance(s, c))
  {
    match s.lock.at
    case Finishing(at) => assert Advance(s, c) == Finish(s, at);
    case Failing(at) => assert Advance(s, c) == Fail(s, at);
    case Stopping(at, thenReject) => assert Advance(s, c) == Stop(s, at, thenReject, c.stop);
    case Dropping(at, thenReject, pfd) => assert Advance(s, c) == Drop(s, at, thenReject, pfd);
    case Leaving(at) => assert Advance(s, c) == Leave(s, at);
  }

  lemma {:induction false} GuardedRun(s: Sys, es: seq<Step>)
    requires TunnelInv(s) && Guarded(s) && Runs(s, es) && NothingLeaves(s, es) && SwitchStaysOn(es)
    ensures Guarded(After(s, es)) && TunnelInv(After(s, es))
    ensures s.tun.tunnel.Some? ==> After(s, es).tun.tunnel.Some? && (s.tun.isRunning ==> After(s, es).tun.isRunning)
    decreases |es|
  {
    if es != [] {
      GuardedStep(s, es[0]);
      StepKeeps(s, es[0]);
      GuardedRun(Apply(s, es[0]), es[1..]);
    }
  }

  /**
   * Fail-closed kill switch. While it stays on and there is no revoke and no destroy, a tunnel
   * once established is there at every instant until a STOP that is still the newest command
   * gets the lock, whatever sequence of STARTs succeeds, fails or wedges the engine.
   */
  lemma KillSwitchFailsClosed(before: seq<Step>, es: seq<Step>)
    requires Runs(INIT, before) && Guarded(After(INIT, before))
    requires Runs(After(INIT, before), es) && NothingLeaves(After(INIT, before), es) && SwitchStaysOn(es)
    ensures var s, s' := After(INIT, before), After(After(INIT, before), es);
      && (s.tun.tunnel.Some? ==> s'.tun.tunnel.Some?)
      && (s.tun.tunnel.Some? && s.tun.isRunning ==> s'.tun.isRunning)
      && Guarded(s')
  {
    InitHolds();
    RunKeeps(INIT, before);
    GuardedRun(After(INIT, before), es);
  }

  // --- switching servers ---------------------------------------------------

  predicate AsksFor(i: Intent, dns: Dns) {
    i.StartIntent? ==> i.dns == dns
  }

  /** Every START that has been dispatched and not finished asks for `dns`. */
  ghost predicate AllAskFor(s: Sys, dns: Dns) {
    && (s.main.StartEmitted? ==> AsksFor(s.main.intent, dns))
    && (s.main.StartNumbered? ==> AsksFor(s.main.intent, dns))
    && (forall w :: w in s.queued && w.StartWorker? ==> w.dns == dns)
    && (s.lock.Held? && s.lock.worker.StartWorker? ==> s.lock.worker.dns == dns)
  }

  /** The holder is neither replacing the tunnel nor giving it up. */
  predicate Undecided(at: Stage) {
    at == Failing(AnnounceError) ||
    (!at.Replacing? && !GivesUp(at) && (at.Preparing? ==> !at.prepare.Establish?))
  }

  /** The tunnel is `fd`, and nobody is replacing it or tearing it down. */
  ghost predicate Steady(s: Sys, fd: Fd) {
    && NobodyTearsDown(s)
    && s.tun.tunnel == Some(fd) && fd < |s.tun.built| && AllAskFor(s, s.tun.built[fd])
    && (s.lock.Held? ==> Undecided(s.lock.at))
  }

  /** A START that failed tears down instead of holding. */
  predicate FailureTearsDown(s: Sys, e: Step) {
    e.HolderMoves? && IsAt(s, Failing(AnnounceError))
  }

  /** Besides NothingLeaves: only STARTs with these resolvers are delivered, and no failure tears down. */
  predicate OnlySwitches(s: Sys, es: seq<Step>, dns: Dns)
    requires Runs(s, es)
    decreases |es|
  {
    es == [] ||
    (!Leaves(s, es[0]) && !FailureTearsDown(s, es[0])
     && (es[0].Deliver? ==> AsksFor(es[0].intent, dns))
     && OnlySwitches(Apply(s, es[0]), es[1..], dns))
  }

  /** Nothing has been established, closed, parked or exchanged. */
  predicate SameTunnel(t: Tun, t': Tun) {
    t' == t.(revoked := t'.revoked)
  }

  lemma SteadyHolder(s: Sys, c: Choice, fd: Fd)
    requires TunnelInv(s) && Steady(s, fd) && Enabled(s, HolderMoves(c))
    requires !StopGoesThrough(s, HolderMoves(c)) && !FailureTearsDown(s, HolderMoves(c))
    ensures Advance(s, c).tun == s.tun && (Advance(s, c).lock.Held? ==> Undecided(Advance(s, c).lock.at))
  {
    match s.lock.at
    case Entering(at) => assert Advance(s, c) == Enter(s, at);
    case Preparing(at) => assert Advance(s, c) == Prepare(s, at, c);
    case Booting(at, pfd) => assert Advance(s, c) == Boot(s, at, pfd, c);
    case Finishing(at) => assert Advance(s, c) == Finish(s, at);
    case Failing(at) => assert Advance(s, c) == Fail(s, at);
    case _ =>
  }

  lemma SteadyStep(s: Sys, e: Step, fd: Fd)
    requires TunnelInv(s) && Steady(s, fd) && Enabled(s, e) && !Leaves(s, e) && !FailureTearsDown(s, e)
    requires e.Deliver? ==> AsksFor(e.intent, s.tun.built[fd])
    ensures Steady(Apply(s, e), fd) && SameTunnel(s.tun, Apply(s, e).tun)
  {
    NobodyStarts(s, e);
    if e.HolderMoves? {
      HolderTouches(s, e.choice);
      SteadyHolder(s, e.choice, fd);
    } else if !e.Acquire? {
      OthersTouch(s, e);
    }
  }

  lemma {:induction false} SteadyRun(s: Sys, es: seq<Step>, fd: Fd)
    requires TunnelInv(s) && Steady(s, fd) && Runs(s, es) && OnlySwitches(s, es, s.tun.built[fd])
    ensures SameTunnel(s.tun, After(s, es).tun) && Steady(After(s, es), fd)
    decreases |es|
  {
    if es != [] {
      SteadyStep(s, es[0], fd);
      StepKeeps(s, es[0]);
      SteadyRun(Apply(s, es[0]), es[1..], fd);
    }
  }

  /**
   * Switch continuity. Any run of STARTs with the resolvers the tunnel was built with, and no
   * stop, revoke, destroy or failure teardown, keeps that one descriptor: nothing is
   * established, closed or parked, at any instant.
   */
  lemma SwitchKeepsTunnel(before: seq<Step>, es: seq<Step>, fd: Fd)
    requires Runs(INIT, before) && Steady(After(INIT, before), fd)
    requires var s := After(INIT, before); Runs(s, es) && OnlySwitches(s, es, s.tun.built[fd])
    ensures var s, s' := After(INIT, before), After(After(INIT, before), es);
      && SameTunnel(s.tun, s'.tun) && s'.tun.tunnel == Some(fd) && s'.tun.activeDns == Some(s.tun.built[fd])
  {
    InitHolds();
    RunKeeps(INIT, before);
    SteadyRun(After(INIT, before), es, fd);
  }
}
