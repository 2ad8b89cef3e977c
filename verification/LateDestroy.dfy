/**
 * A START that has brought its engine up looks a second time for newer commands and for a destroy:
 * in every run, exactly when it connects, and what it does otherwise.
 */
module LateDestroy {
  import opened Options
  import opened StateBus
  import opened Engine
  import opened Protocol
  import opened Tunnel
  import opened Promises
  import opened Interference
  import opened Ownership
  import opened FailedStart
  import opened Tenure

  /** The engine is up on the tunnel there was. */
  predicate LeftUp(fd: Option<Fd>, s: Sys) {
    s.tun.tunnel == fd && fd.Some? && s.isEngineRunning && s.engine.running == fd && !s.engine.isWedged
  }

  /** How a START ends that is giving way: with everything down if it finds the service destroyed. */
  predicate GivesWay(s: Sys, es: seq<Step>, down: bool)
    requires Runs(s, es) && s.lock.Held?
  {
    var s' := After(s, es);
    && s'.bus.settledOk == s.bus.settledOk && IsSettled(s'.bus, TokenOf(s.lock.worker)) && Reported(s, es) == []
    && if down then GivenUp(s.tun.tunnel, s') else LeftUp(s.tun.tunnel, s')
  }

  lemma LateIsLooked(s: Sys, c: Choice)
    requires IsAt(s, Finishing(LateAlive))
    ensures Advance(s, c) ==
      s.(lock := if s.flags.destroyed then Held(s.lock.worker, Stopping(StopFlag, false)) else Free)
    ensures ReportsNow(s, HolderMoves(c)) == []
  {
    assert Advance(s, c) == Finish(s, LateAlive);
  }

  lemma LooksOnceMore(s: Sys, es: seq<Step>)
    requires Sound(s) && UntilFree(s, es) && IsAt(s, Finishing(LateAlive))
    requires IsSettled(s.bus, TokenOf(s.lock.worker))
    ensures GivesWay(s, es, AtMove(s, es, 0).flags.destroyed)
  {
    var c, rest := NextMove(s, es);
    var mid := AtMove(s, es, 0);
    var s1 := Advance(mid, c);
    SoundStep(mid, HolderMoves(c));
    LateIsLooked(mid, c);
    if mid.flags.destroyed {
      TeardownEnds(s1, rest, s.tun.tunnel);
    } else {
      NothingMore(s1, rest);
    }
  }

  lemma LateIsRejected(s: Sys, c: Choice)
    requires Sound(s) && IsAt(s, Finishing(LateResolve))
    ensures Advance(s, c) == s.(bus := Settle(s, false).bus, lock := Held(s.lock.worker, Finishing(LateAlive)))
    ensures IsSettled(Advance(s, c).bus, TokenOf(s.lock.worker)) && Advance(s, c).bus.settledOk == s.bus.settledOk
  {
    Rejected(s);
    assert Advance(s, c) == Finish(s, LateResolve);
  }

  lemma GivesWayLate(s: Sys, es: seq<Step>)
    requires Sound(s) && UntilFree(s, es) && IsAt(s, Finishing(LateResolve))
    ensures GivesWay(s, es, AtMove(s, es, 1).flags.destroyed)
  {
    var c, rest := NextMove(s, es);
    var mid := AtMove(s, es, 0);
    LateIsRejected(mid, c);
    SoundStep(mid, HolderMoves(c));
    assert AtMove(s, es, 0 + 1) == AtMove(Advance(mid, c), rest, 0);
    LooksOnceMore(Advance(mid, c), rest);
  }

  /** What a START does that has its engine up: with success, or giving way. */
  predicate Finishes(s: Sys, es: seq<Step>, connects: bool, resolves: bool, down: bool)
    requires Runs(s, es) && s.lock.Held?
  {
    var s', t := After(s, es), TokenOf(s.lock.worker);
    && Reported(s, es) == (if connects then [Connected] else [])
    && s'.bus.settledOk == s.bus.settledOk + (if resolves then multiset{t} else multiset{}) && IsSettled(s'.bus, t)
    && if down then GivenUp(s.tun.tunnel, s') else LeftUp(s.tun.tunnel, s')
  }

  /** The start that the worker took along is armed still. */
  predicate StillArmed(s: Sys) {
    s.lock.Held? && s.bus.pendingStart == Some(TokenOf(s.lock.worker))
  }

  lemma ResolvesIfArmed(s: Sys, c: Choice)
    requires Sound(s) && IsAt(s, Finishing(ResolveUp))
    ensures var s', t := Advance(s, c), TokenOf(s.lock.worker);
      && s' == s.(bus := s'.bus, lock := Free) && IsSettled(s'.bus, t)
      && s'.bus.settledOk == s.bus.settledOk + (if StillArmed(s) then multiset{t} else multiset{})
  {
    assert StartPlaces(s.bus, 0) == 0;
    assert Advance(s, c) == Finish(s, ResolveUp);
  }

  lemma Resolves(s: Sys, es: seq<Step>)
    requires Sound(s) && UntilFree(s, es) && IsAt(s, Finishing(ResolveUp))
    ensures var s', t := After(s, es), TokenOf(s.lock.worker);
      && Reported(s, es) == [] && LeftUp(s.tun.tunnel, s') && IsSettled(s'.bus, t)
      && s'.bus.settledOk == s.bus.settledOk + (if StillArmed(AtMove(s, es, 0)) then multiset{t} else multiset{})
  {
    var c, rest := NextMove(s, es);
    ResolvesIfArmed(AtMove(s, es, 0), c);
    NothingMore(Advance(AtMove(s, es, 0), c), rest);
  }

  lemma ConnectedIsReported(s: Sys, c: Choice)
    requires IsAt(s, Finishing(AnnounceUp))
    ensures Advance(s, c) == s.(last := Connected, lock := Held(s.lock.worker, Finishing(ResolveUp)))
    ensures ReportsNow(s, HolderMoves(c)) == [Connected]
  {
  }

  lemma Connects(s: Sys, es: seq<Step>)
    requires Sound(s) && UntilFree(s, es) && IsAt(s, Finishing(AnnounceUp))
    ensures Finishes(s, es, true, StillArmed(AtMove(s, es, 1)), false)
  {
    var c, rest := NextMove(s, es);
    var mid := AtMove(s, es, 0);
    var s1 := Advance(mid, c);
    SoundStep(mid, HolderMoves(c));
    ConnectedIsReported(mid, c);
    assert AtMove(s, es, 0 + 1) == AtMove(s1, rest, 0);
    Resolves(s1, rest);
  }

  lemma LooksForDestroy(s: Sys, es: seq<Step>)
    requires Sound(s) && UntilFree(s, es) && IsAt(s, Finishing(RecheckAlive))
    ensures var alive := !AtMove(s, es, 0).flags.destroyed;
      Finishes(s, es, alive, alive && StillArmed(AtMove(s, es, 2)), !alive)
  {
    var c, rest := NextMove(s, es);
    var mid := AtMove(s, es, 0);
    var s1 := Advance(mid, c);
    SoundStep(mid, HolderMoves(c));
    assert s1 == Finish(mid, RecheckAlive);
    assert AtMove(s, es, 1 + 1) == AtMove(s1, rest, 1);
    if mid.flags.destroyed {
      StaysDestroyed(s1, rest, 1);
      GivesWayLate(s1, rest);
    } else {
      Connects(s1, rest);
    }
  }

  lemma LooksForNewer(s: Sys, es: seq<Step>)
    requires Sound(s) && UntilFree(s, es) && IsAt(s, Finishing(RecheckSeq))
    ensures var newest := AtMove(s, es, 0).flags.commandSeq == SeqOf(s.lock.worker);
      var connects := newest && !AtMove(s, es, 1).flags.destroyed;
      var dead := AtMove(s, es, if newest then 1 else 2).flags.destroyed;
      Finishes(s, es, connects, connects && StillArmed(AtMove(s, es, 3)), dead)
  {
    var c, rest := NextMove(s, es);
    var mid := AtMove(s, es, 0);
    var s1 := Advance(mid, c);
    SoundStep(mid, HolderMoves(c));
    assert s1 == Finish(mid, RecheckSeq);
    assert AtMove(s, es, 0 + 1) == AtMove(s1, rest, 0) && AtMove(s, es, 1 + 1) == AtMove(s1, rest, 1);
    assert AtMove(s, es, 2 + 1) == AtMove(s1, rest, 2);
    if mid.flags.commandSeq == SeqOf(s.lock.worker) {
      LooksForDestroy(s1, rest);
    } else {
      GivesWayLate(s1, rest);
    }
  }

  /** The engine start of this move goes through. */
  predicate ComesUp(s: Sys, c: Choice) {
    s.lock.Held? && s.lock.at.Booting? && s.lock.at.boot.Launch? && !Fails(s, c)
  }

  lemma EngineIsUp(s: Sys, c: Choice)
    requires Sound(s) && Enabled(s, HolderMoves(c)) && ComesUp(s, c)
    ensures var s1 := Advance(s, c);
      s1 == s.(engine := s1.engine, lock := Held(s.lock.worker, Booting(RaiseFlag, s.lock.at.fd)))
  {
    assert Advance(s, c) == LaunchEngine(s, s.lock.at.fd, c.start);
  }

  lemma FlagIsRaised(s: Sys, c: Choice, fd: Fd)
    requires IsAt(s, Booting(RaiseFlag, fd))
    ensures Advance(s, c) == s.(isEngineRunning := true, lock := Held(s.lock.worker, Finishing(RecheckSeq)))
  {
    assert Advance(s, c) == Boot(s, RaiseFlag, fd, c);
  }

  /** By what it finds at its next five moves. */
  predicate FinishesBy(s: Sys, es: seq<Step>)
    requires Runs(s, es) && s.lock.Held?
  {
    var newest := AtMove(s, es, 1).flags.commandSeq == SeqOf(s.lock.worker);
    var connects := newest && !AtMove(s, es, 2).flags.destroyed;
    var dead := AtMove(s, es, if newest then 2 else 3).flags.destroyed;
    Finishes(s, es, connects, connects && StillArmed(AtMove(s, es, 4)), dead)
  }

  lemma RaisesFlag(s: Sys, es: seq<Step>, fd: Fd)
    requires Sound(s) && UntilFree(s, es) && IsAt(s, Booting(RaiseFlag, fd))
    ensures FinishesBy(s, es)
  {
    var c, rest := NextMove(s, es);
    var mid := AtMove(s, es, 0);
    FlagIsRaised(mid, c, fd);
    var s1 := Advance(mid, c);
    SoundStep(mid, HolderMoves(c));
    assert AtMove(s, es, 0 + 1) == AtMove(s1, rest, 0) && AtMove(s, es, 1 + 1) == AtMove(s1, rest, 1);
    assert AtMove(s, es, 2 + 1) == AtMove(s1, rest, 2) && AtMove(s, es, 3 + 1) == AtMove(s1, rest, 3);
    LooksForNewer(s1, rest);
  }

  /**
   * What a START does whose engine has come up, whatever the others do. It reports 'connected' if
   * and only if, when it looks again, it is still the newest command, and then the service is not
   * destroyed; only then does it resolve a start, the one it took along, if that is armed still. A
   * START that finds the service destroyed leaves everything down; any other leaves the engine up.
   */
  lemma ConnectsExactly(before: seq<Step>, s: Sys, c: Choice, es: seq<Step>)
    requires Leads(INIT, before, s) && Enabled(s, HolderMoves(c)) && ComesUp(s, c) && UntilFree(Advance(s, c), es)
    ensures var s1 := Advance(s, c);
      var s', w := After(s1, es), s.lock.worker;
      var newest := AtMove(s1, es, 1).flags.commandSeq == SeqOf(w);
      var connects := newest && !AtMove(s1, es, 2).flags.destroyed;
      var dead := AtMove(s1, es, if newest then 2 else 3).flags.destroyed;
      var resolves := connects && StillArmed(AtMove(s1, es, 4));
      && Reported(s1, es) == (if connects then [Connected] else [])
      && s'.bus.settledOk == s.bus.settledOk + (if resolves then multiset{TokenOf(w)} else multiset{})
      && IsSettled(s'.bus, TokenOf(w))
      && if dead then GivenUp(s.tun.tunnel, s') else LeftUp(s.tun.tunnel, s')
  {
    Reached(before);
    EngineIsUp(s, c);
    SoundStep(s, HolderMoves(c));
    RaisesFlag(Advance(s, c), es, s.lock.at.fd);
  }

  /** A START that has its tunnel and finds the service destroyed starts no engine: all it does is tear down. */
  lemma DestroyedMidStart(before: seq<Step>, s: Sys, es: seq<Step>)
    requires Leads(INIT, before, s) && UntilFree(s, es) && AtMove(s, es, 0).flags.destroyed
    requires s.lock.Held? && s.lock.at.Booting? && s.lock.at.boot.CheckAlive?
    ensures var s' := After(s, es);
      && Reported(s, es) == [] && GivenUp(s.tun.tunnel, s')
      && s'.bus.settledOk == s.bus.settledOk && IsSettled(s'.bus, TokenOf(s.lock.worker))
  {
    Reached(before);
    var c, rest := NextMove(s, es);
    var mid := AtMove(s, es, 0);
    assert Advance(mid, c) == Goto(mid, Stopping(StopFlag, true));
    SoundStep(mid, HolderMoves(c));
    TeardownEnds(Advance(mid, c), rest, s.tun.tunnel);
  }

  // --- looking back ----------------------------------------------------------

  lemma OnlyFromAlive(s: Sys, c: Choice)
    requires s.lock.Held? && Advance(s, c).lock.Held? && Advance(s, c).lock.at == Finishing(AnnounceUp)
    ensures s.lock == Held(Advance(s, c).lock.worker, Finishing(RecheckAlive)) && !s.flags.destroyed
  {
    match s.lock.at
    case Finishing(at) => assert Advance(s, c) == Finish(s, at);
    case _ =>
  }

  lemma OnlyFromAnnounced(s: Sys, c: Choice)
    requires s.lock.Held? && Advance(s, c).lock.Held? && Advance(s, c).lock.at == Finishing(ResolveUp)
    ensures s.lock == Held(Advance(s, c).lock.worker, Finishing(AnnounceUp))
  {
    match s.lock.at
    case Finishing(at) => assert Advance(s, c) == Finish(s, at);
    case _ =>
  }

  /** At step `k` the START looks for a destroy with its engine up, and finds none. */
  predicate FindsAlive(es: seq<Step>, k: nat, w: Worker)
    requires Runs(INIT, es)
  {
    k < |es| && es[k].HolderMoves? &&
    var s := StateAt(INIT, es, k);
    s.lock == Held(w, Finishing(RecheckAlive)) && !s.flags.destroyed && LeftUp(s.tun.tunnel, s)
  }

  lemma AnnouncedAlive(es: seq<Step>, n: nat) returns (k: nat)
    requires Runs(INIT, es) && n <= |es| && IsAt(StateAt(INIT, es, n), Finishing(AnnounceUp))
    ensures k < n && FindsAlive(es, k, StateAt(INIT, es, n).lock.worker)
  {
    k := CameByMove(INIT, es, n);
    StateStep(INIT, es, k);
    InitPromises();
    SoundAt(INIT, es, k);
    OnlyFromAlive(StateAt(INIT, es, k), es[k].choice);
  }

  lemma ResolvedAlive(es: seq<Step>, n: nat) returns (k: nat)
    requires Runs(INIT, es) && n <= |es| && IsAt(StateAt(INIT, es, n), Finishing(ResolveUp))
    ensures k < n && FindsAlive(es, k, StateAt(INIT, es, n).lock.worker)
  {
    var j := CameByMove(INIT, es, n);
    StateStep(INIT, es, j);
    OnlyFromAnnounced(StateAt(INIT, es, j), es[j].choice);
    k := AnnouncedAlive(es, j);
  }

  /**
   * In every run: whoever reports 'connected', or resolves a start, has looked for a destroy since
   * its engine came up on the tunnel, and has found the service alive.
   */
  lemma ConnectedOnlyAlive(es: seq<Step>, e: Step, t: nat)
    requires Runs(INIT, es) && Enabled(After(INIT, es), e)
    requires ReportsNow(After(INIT, es), e) == [Connected] || Succeeds(After(INIT, es), e, t)
    ensures After(INIT, es).lock.Held? && exists k: nat :: FindsAlive(es, k, After(INIT, es).lock.worker)
  {
    var s := After(INIT, es);
    InitPromises();
    StateAtKeeps(INIT, es, |es|);
    if ReportsNow(s, e) == [Connected] {
      var k := AnnouncedAlive(es, |es|);
    } else {
      WhoSucceeds(s, e, t);
      var k := ResolvedAlive(es, |es|);
    }
  }
}
