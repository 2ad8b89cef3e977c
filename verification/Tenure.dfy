/**
 * The time a worker holds the lock: its moves in order, what the others may do in between, what it
 * emits on the way, and which move brought it where it stands.
 */
module Tenure {
  import opened Options
  import opened StateBus
  import opened Engine
  import opened Protocol
  import opened Tunnel
  import opened Promises
  import opened Interference

  // --- forwards: until the lock is given up ----------------------------------

  /** `es` is what happens from `s` until the lock is free, and no longer. */
  predicate UntilFree(s: Sys, es: seq<Step>): (r: bool)
    ensures r ==> Runs(s, es)
    decreases |es|
  {
    if es == [] then s.lock == Free
    else s.lock.Held? && Enabled(s, es[0]) && UntilFree(Apply(s, es[0]), es[1..])
  }

  /** The state that the lock holder finds at its `n`-th move in `es`, counted from 0. */
  function AtMove(s: Sys, es: seq<Step>, n: nat): Sys
    requires Runs(s, es)
    decreases |es|
  {
    if es == [] || (n == 0 && es[0].HolderMoves?) then s
    else AtMove(Apply(s, es[0]), es[1..], if es[0].HolderMoves? then n - 1 else n)
  }

  /** What the lock holder emits in the course of `es`. */
  function Reported(s: Sys, es: seq<Step>): seq<Emitted>
    requires Runs(s, es)
    decreases |es|
  {
    if es == [] then []
    else ReportsNow(s, es[0]) + Reported(Apply(s, es[0]), es[1..])
  }

  function ReportsNow(s: Sys, e: Step): seq<Emitted> {
    if e.HolderMoves? && s.lock.Held? && Announces(s.lock.at) != Nothing then [Announces(s.lock.at)] else []
  }

  /** With the lock free it is over. */
  lemma NothingMore(s: Sys, es: seq<Step>)
    requires UntilFree(s, es) && s.lock == Free
    ensures After(s, es) == s && Reported(s, es) == []
  {
  }

  ghost predicate Sound(s: Sys) {
    TunnelInv(s) && PromiseInv(s)
  }

  lemma SoundStep(s: Sys, e: Step)
    requires Sound(s) && Enabled(s, e)
    ensures Sound(Apply(s, e))
  {
    StepKeeps(s, e);
    PromiseStep(s, e);
  }

  /** The holder stands where it stood, with what it alone can change. */
  predicate SameForHolder(s: Sys, s': Sys)
    requires s.lock.Held?
  {
    && s'.lock == s.lock && SameTunnel(s, s')
    && s'.bus.settledOk == s.bus.settledOk && StaysSettled(s.bus, s'.bus, TokenOf(s.lock.worker))
    && (s.flags.destroyed ==> s'.flags.destroyed)
  }

  lemma OthersForHolder(s: Sys, e: Step)
    requires Enabled(s, e) && s.lock.Held? && !e.HolderMoves?
    ensures SameForHolder(s, Apply(s, e))
  {
    OthersTouch(s, e);
    StepOnStart(s, e, TokenOf(s.lock.worker));
  }

  /** The holder's next move, and what is left after it. */
  lemma {:induction false} NextMove(s: Sys, es: seq<Step>) returns (c: Choice, rest: seq<Step>)
    requires Sound(s) && UntilFree(s, es) && s.lock.Held?
    ensures |rest| < |es|
    ensures var mid := AtMove(s, es, 0);
      && Sound(mid) && SameForHolder(s, mid) && Enabled(mid, HolderMoves(c)) && UntilFree(Advance(mid, c), rest)
      && After(Advance(mid, c), rest) == After(s, es)
      && Reported(s, es) == ReportsNow(mid, HolderMoves(c)) + Reported(Advance(mid, c), rest)
      && forall n: nat :: AtMove(s, es, n + 1) == AtMove(Advance(mid, c), rest, n)
    decreases |es|
  {
    var e, s' := es[0], Apply(s, es[0]);
    if e.HolderMoves? {
      c, rest := e.choice, es[1..];
    } else {
      OthersForHolder(s, e);
      SoundStep(s, e);
      c, rest := NextMove(s', es[1..]);
    }
  }

  lemma {:induction false} StaysDestroyed(s: Sys, es: seq<Step>, n: nat)
    requires Runs(s, es) && s.flags.destroyed
    ensures AtMove(s, es, n).flags.destroyed
    decreases |es|
  {
    if es != [] && !(n == 0 && es[0].HolderMoves?) {
      DestroyedForGood(s, es[0]);
      StaysDestroyed(Apply(s, es[0]), es[1..], if es[0].HolderMoves? then n - 1 else n);
    }
  }

  // --- backwards: which move brought the holder here -------------------------

  lemma {:induction false} StateStep(s: Sys, es: seq<Step>, k: nat)
    requires Runs(s, es) && k < |es|
    ensures Enabled(StateAt(s, es, k), es[k]) && StateAt(s, es, k + 1) == Apply(StateAt(s, es, k), es[k])
    decreases k
  {
    if k > 0 {
      StateStep(Apply(s, es[0]), es[1..], k - 1);
    }
  }

  lemma {:induction false} SoundAt(s: Sys, es: seq<Step>, k: nat)
    requires Sound(s) && Runs(s, es) && k <= |es|
    ensures Sound(StateAt(s, es, k))
    decreases k
  {
    if k > 0 {
      SoundStep(s, es[0]);
      SoundAt(Apply(s, es[0]), es[1..], k - 1);
    }
  }

  /** Step `k` is the last move that the holder made before step `n`, and took it to where it stands there. */
  predicate LastMove(s: Sys, es: seq<Step>, n: nat, k: nat)
    requires Runs(s, es) && n <= |es|
  {
    && k < n && es[k].HolderMoves? && StateAt(s, es, k).lock.Held?
    && StateAt(s, es, k + 1).lock == StateAt(s, es, n).lock
    && forall m :: k < m < n ==> !es[m].HolderMoves?
  }

  lemma LockByStep(s: Sys, e: Step)
    requires Enabled(s, e) && !e.HolderMoves?
    ensures var lock := Apply(s, e).lock; lock == s.lock || lock == Held(lock.worker, FirstStage(lock.worker))
  {
    if !e.Acquire? {
      OthersTouch(s, e);
    }
  }

  predicate NoMoves(es: seq<Step>, n: nat)
    requires n <= |es|
  {
    forall m :: 0 <= m < n ==> !es[m].HolderMoves?
  }

  lemma LastMoveShifts(s: Sys, es: seq<Step>, n: nat, k: nat)
    requires Runs(s, es) && 0 < n <= |es| && LastMove(Apply(s, es[0]), es[1..], n - 1, k)
    ensures LastMove(s, es, n, k + 1)
  {
  }

  lemma FirstIsLast(s: Sys, es: seq<Step>, n: nat)
    requires Runs(s, es) && 0 < n <= |es| && NoMoves(es[1..], n - 1) && es[0].HolderMoves?
    requires StateAt(s, es, n).lock == Apply(s, es[0]).lock
    ensures LastMove(s, es, n, 0)
  {
    assert StateAt(s, es, 1) == Apply(s, es[0]);
    assert forall m :: 0 < m < n ==> es[m] == es[1..][m - 1];
  }

  /** The holder's last move, or none since `s`. */
  lemma {:induction false} MoveBefore(s: Sys, es: seq<Step>, n: nat) returns (k: Option<nat>)
    requires Runs(s, es) && n <= |es|
    requires var lock := StateAt(s, es, n).lock; lock.Held? && lock.at != FirstStage(lock.worker)
    ensures if k.Some? then LastMove(s, es, n, k.value) else StateAt(s, es, n).lock == s.lock && NoMoves(es, n)
    decreases n
  {
    k := None;
    if n > 0 {
      var s', rest := Apply(s, es[0]), es[1..];
      k := MoveBefore(s', rest, n - 1);
      if k.Some? {
        LastMoveShifts(s, es, n, k.value);
        k := Some(k.value + 1);
      } else if es[0].HolderMoves? {
        FirstIsLast(s, es, n);
        k := Some(0);
      } else {
        LockByStep(s, es[0]);
        assert forall m :: 0 < m < n ==> es[m] == rest[m - 1];
      }
    }
  }

  /** Unless it has just got the lock, the holder has come to where it stands by a move of its own. */
  lemma CameByMove(s: Sys, es: seq<Step>, n: nat) returns (k: nat)
    requires s.lock == Free && Runs(s, es) && n <= |es|
    requires var lock := StateAt(s, es, n).lock; lock.Held? && lock.at != FirstStage(lock.worker)
    ensures LastMove(s, es, n, k)
  {
    var last := MoveBefore(s, es, n);
    k := last.value;
  }
}
