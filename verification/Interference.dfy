/**
 * What a thread can rely on while the others move: steps of the protocol that are not its own.
 */
module Interference {
  import opened Options
  import opened Engine
  import opened StateBus
  import opened Promises
  import opened Protocol
  import opened Tunnel

  /** The lock holder, the main thread, a caller between arming and sending, onDestroy's thread after its lock. */
  datatype Thread = Holder | MainLooper | Starter(token: nat) | Stopper(callback: nat) | Reporter

  predicate IsOwn(me: Thread, e: Step) {
    match me
    case Holder => e.HolderMoves?
    case MainLooper => e.Deliver? || e.Revoke? || e.Destroy? || e.MainMoves?
    case Starter(t) => (e.SendStart? && e.token == t) || (e.SendStartFails? && e.token == t)
    case Stopper(t) => (e.SendStop? && e.callback == t) || (e.SendStopFails? && e.callback == t)
    case Reporter => e.ReportDestroyed?
  }

  /** The thread has got so far. */
  predicate Underway(me: Thread, s: Sys) {
    match me
    case Holder => s.lock.Held?
    case MainLooper => true
    case Starter(t) => t in s.mail.arming
    case Stopper(t) => t in s.mail.stopping
    case Reporter => DestroyReport in s.queued
  }

  /** Nobody but a lock holder changes the tunnel or the engine, except that a wedged engine may stop late. */
  predicate SameTunnel(s: Sys, s': Sys) {
    && s'.tun == s.tun.(revoked := s'.tun.revoked) && s'.isEngineRunning == s.isEngineRunning
    && s'.engine.isWedged == s.engine.isWedged
    && (s'.engine.running == s.engine.running || (s.engine.isWedged && s'.engine.running.None?))
  }

  predicate SameForMain(s: Sys, s': Sys) {
    && s'.main == s.main && s'.flags.commandSeq == s.flags.commandSeq && s'.flags.destroyed == s.flags.destroyed
    && s.mail.intents <= s'.mail.intents
  }

  predicate ReliesOn(me: Thread, s: Sys, s': Sys) {
    && Underway(me, s')
    && (me.Holder? ==> s'.lock == s.lock && SameTunnel(s, s'))
    && (me.MainLooper? ==> SameForMain(s, s'))
  }

  /** Start `t` has been armed and is not pending any more: it never will be again. */
  predicate IsSettled(b: Bus, t: nat) {
    t <= b.startTokenSeq && b.pendingStart != Some(t)
  }

  predicate StaysSettled(b: Bus, b': Bus, t: nat) {
    IsSettled(b, t) ==> IsSettled(b', t)
  }

  lemma StepOnStart(s: Sys, e: Step, t: nat)
    requires Enabled(s, e)
    ensures StaysSettled(s.bus, Apply(s, e).bus, t) && Apply(s, e).bus.startTokenSeq >= s.bus.startTokenSeq
  {
    if e.HolderMoves? {
      HolderOnBus(s, e.choice);
    }
  }

  lemma DestroyedForGood(s: Sys, e: Step)
    requires Enabled(s, e) && s.flags.destroyed
    ensures Apply(s, e).flags.destroyed
  {
    if e.HolderMoves? {
      HolderTouches(s, e.choice);
    }
  }

  lemma StaysUnderway(me: Thread, s: Sys, e: Step)
    requires Enabled(s, e) && Underway(me, s) && !IsOwn(me, e) && !e.HolderMoves? && !e.Acquire?
    ensures !me.Holder? ==> Underway(me, Apply(s, e))
  {
  }

  lemma OthersForMain(s: Sys, e: Step)
    requires Enabled(s, e) && !IsOwn(MainLooper, e) && !e.HolderMoves? && !e.Acquire?
    ensures SameForMain(s, Apply(s, e))
  {
  }

  lemma OtherThanHolder(me: Thread, s: Sys, e: Step)
    requires Enabled(s, e) && Underway(me, s) && !IsOwn(me, e) && !e.HolderMoves? && !e.Acquire?
    ensures ReliesOn(me, s, Apply(s, e))
  {
    if me.Holder? {
      OthersTouch(s, e);
    } else {
      StaysUnderway(me, s, e);
      if me.MainLooper? {
        OthersForMain(s, e);
      }
    }
  }

  lemma HolderForOthers(me: Thread, s: Sys, c: Choice)
    requires s.lock.Held? && Underway(me, s) && !me.Holder?
    ensures ReliesOn(me, s, Advance(s, c))
  {
    HolderTouches(s, c);
  }

  lemma OneOther(me: Thread, s: Sys, e: Step)
    requires Enabled(s, e) && Underway(me, s) && !IsOwn(me, e)
    ensures ReliesOn(me, s, Apply(s, e))
  {
    if e.HolderMoves? {
      HolderForOthers(me, s, e.choice);
    } else if !e.Acquire? {
      OtherThanHolder(me, s, e);
    }
  }

  /** `es` can be taken from `s` without a step of `me`. */
  predicate ByOthers(me: Thread, s: Sys, es: seq<Step>) {
    Runs(s, es) && forall i :: 0 <= i < |es| ==> !IsOwn(me, es[i])
  }

  /** However long the others go on, the thread finds what it relies on. */
  lemma {:induction false} OthersGoOn(me: Thread, s: Sys, es: seq<Step>, t: nat)
    requires Underway(me, s) && ByOthers(me, s, es)
    ensures ReliesOn(me, s, After(s, es)) && StaysSettled(s.bus, After(s, es).bus, t)
    ensures After(s, es).bus.startTokenSeq >= s.bus.startTokenSeq
    ensures s.flags.destroyed ==> After(s, es).flags.destroyed
    decreases |es|
  {
    if es != [] {
      if s.flags.destroyed {
        DestroyedForGood(s, es[0]);
      }
      OneOther(me, s, es[0]);
      StepOnStart(s, es[0], t);
      OthersGoOn(me, Apply(s, es[0]), es[1..], t);
    }
  }

  // --- how far a history has come ------------------------------------------

  /** The service has run from its beginning through `history` to `s`. */
  predicate HasRun(history: seq<Step>, s: Sys) {
    Leads(INIT, history, s)
  }

  /** One more step. */
  lemma RanOn(history: seq<Step>, s: Sys, e: Step, s': Sys)
    requires HasRun(history, s) && Enabled(s, e) && Apply(s, e) == s'
    ensures HasRun(history + [e], s')
  {
    ThenStep(INIT, history, s, e, s');
  }

  lemma {:induction false} RunSplits(s0: Sys, a: seq<Step>, b: seq<Step>)
    requires Runs(s0, a + b) && Runs(s0, a)
    ensures Leads(After(s0, a), b, After(s0, a + b))
    decreases |a|
  {
    if a == [] {
      assert a + b == b;
    } else {
      assert (a + b)[1..] == a[1..] + b;
      RunSplits(Apply(s0, a[0]), a[1..], b);
    }
  }

  /** From one point of a history to a later one the protocol has made a run. */
  lemma RunBetween(h: seq<Step>, s: Sys, h': seq<Step>, s': Sys)
    requires HasRun(h, s) && HasRun(h', s') && h <= h'
    ensures Leads(s, h'[|h|..], s')
  {
    assert h' == h + h'[|h|..];
    RunSplits(INIT, h, h'[|h|..]);
  }
}
