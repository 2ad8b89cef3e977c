/**
 * createSerialLock: a chain of promises on which every operation waits for the one before.
 *
 * Promises and the job queue are modelled as ECMAScript defines them: a reaction registered on
 * a pending promise is kept with it, one registered on a settled promise becomes a job, and
 * settling a promise turns its reactions into jobs. Call n owns promise runs[n], what withLock
 * returned; chains[k] is the value the variable `chain` had after k calls.
 */
module SerialLock {
  datatype Outcome = Fulfilled(value: int) | Rejected(reason: int)

  /** StartOp(n) runs the operation of call n; PassOn(k) settles chains[k] with undefined. */
  datatype Job = StartOp(call: nat) | PassOn(chain: nat)

  datatype Promise = Pending(reactions: seq<Job>) | Settled(outcome: Outcome)

  const UNDEFINED := Fulfilled(0)

  datatype Lock = Lock(
    chain: nat,
    chains: seq<Promise>,
    runs: seq<Promise>,
    jobs: seq<Job>,
    running: set<nat>,
    started: seq<nat>,
    ended: seq<(nat, Outcome)>)

  /** createSerialLock: `chain` is a resolved promise. */
  const NEW_LOCK := Lock(0, [Settled(UNDEFINED)], [], [], {}, [], [])

  /** then(): the promise with the reaction registered, and the jobs that makes. */
  function Then(p: Promise, j: Job): (Promise, seq<Job>) {
    if p.Pending? then (Pending(p.reactions + [j]), []) else (p, [j])
  }

  function Reactions(p: Promise): seq<Job> {
    if p.Pending? then p.reactions else []
  }

  datatype Step = Call | RunJob | EndOp(call: nat, outcome: Outcome)

  predicate Enabled(s: Lock, e: Step) {
    match e
    case Call => s.chain < |s.chains|
    case RunJob => s.jobs != [] && (s.jobs[0].PassOn? ==> s.jobs[0].chain < |s.chains|)
    case EndOp(n, _) => n in s.running && n < |s.runs|
  }

  function Apply(s: Lock, e: Step): Lock
    requires Enabled(s, e)
  {
    match e
    case Call => WithLock(s)
    case RunJob => NextJob(s)
    case EndOp(n, outcome) => OpSettles(s, n, outcome)
  }

  /** withLock: run = chain.then(op, op); chain = run.then(ignore, ignore). */
  function WithLock(s: Lock): Lock
    requires s.chain < |s.chains|
  {
    var (waited, jobs) := Then(s.chains[s.chain], StartOp(|s.runs|));
    var (run, _) := Then(Pending([]), PassOn(|s.chains|));
    s.(chains := s.chains[s.chain := waited] + [Pending([])],
       runs := s.runs + [run],
       jobs := s.jobs + jobs,
       chain := |s.chains|)
  }

  function NextJob(s: Lock): Lock
    requires Enabled(s, RunJob)
  {
    match s.jobs[0]
    case StartOp(n) => s.(jobs := s.jobs[1..], running := s.running + {n}, started := s.started + [n])
    case PassOn(k) =>
      s.(chains := s.chains[k := Settled(UNDEFINED)], jobs := s.jobs[1..] + Reactions(s.chains[k]))
  }

  /** The promise the operation of call `n` returned settles, and with it what withLock returned. */
  function OpSettles(s: Lock, n: nat, outcome: Outcome): Lock
    requires n < |s.runs|
  {
    s.(runs := s.runs[n := Settled(outcome)],
       jobs := s.jobs + Reactions(s.runs[n]),
       running := s.running - {n},
       ended := s.ended + [(n, outcome)])
  }

  predicate Runs(s: Lock, es: seq<Step>)
    decreases |es|
  {
    es == [] || (Enabled(s, es[0]) && Runs(Apply(s, es[0]), es[1..]))
  }

  function After(s: Lock, es: seq<Step>): Lock
    requires Runs(s, es)
    decreases |es|
  {
    if es == [] then s else After(Apply(s, es[0]), es[1..])
  }

  // --- the invariant -------------------------------------------------------

  /** How many chain promises are settled: one more than operations ended, but for the moment in between. */
  function Passed(s: Lock): nat {
    |s.ended| + if s.jobs == [PassOn(|s.ended|)] then 0 else 1
  }

  ghost predicate Ordered(s: Lock) {
    && (forall i :: 0 <= i < |s.started| ==> s.started[i] == i)
    && (forall i :: 0 <= i < |s.ended| ==> s.ended[i].0 == i)
  }

  ghost predicate Wired(s: Lock) {
    && |s.chains| == |s.runs| + 1 && s.chain == |s.runs| && |s.ended| <= |s.runs|
    && (forall i :: 0 <= i < |s.ended| ==> s.runs[i] == Settled(s.ended[i].1))
    && (forall i :: |s.ended| <= i < |s.runs| ==> s.runs[i] == Pending([PassOn(i + 1)]))
    && (forall k :: 0 <= k < |s.chains| && k < Passed(s) ==> s.chains[k].Settled?)
    && (forall k :: Passed(s) <= k < |s.chains| ==>
          s.chains[k] == Pending(if k < |s.runs| then [StartOp(k)] else []))
  }

  /** The one thing that is going on: an operation, a job that leads to the next one, or nothing. */
  ghost predicate OneThing(s: Lock) {
    var f := |s.ended|;
    || (s.running == {f} && s.jobs == [] && |s.started| == f + 1 && f < |s.runs|)
    || (s.running == {} && s.jobs == [StartOp(f)] && |s.started| == f && f < |s.runs|)
    || (s.running == {} && s.jobs == [PassOn(f)] && |s.started| == f && f > 0)
    || (s.running == {} && s.jobs == [] && |s.started| == f && f == |s.runs|)
  }

  ghost predicate LockInv(s: Lock) {
    Ordered(s) && Wired(s) && OneThing(s)
  }

  lemma CallKeeps(s: Lock)
    requires LockInv(s)
    ensures Enabled(s, Call) && LockInv(WithLock(s))
  {
    var none: seq<Job> := [];
    assert forall j: Job :: none + [j] == [j];
    assert s.jobs + none == s.jobs;
    var s' := WithLock(s);
    if s.chains[s.chain].Pending? {
      assert s'.jobs == s.jobs && s'.chains[s.chain] == Pending([StartOp(|s.runs|)]);
    } else {
      assert s.jobs == [] && s'.jobs == [StartOp(|s.runs|)];
    }
  }

  lemma JobKeeps(s: Lock)
    requires LockInv(s) && Enabled(s, RunJob)
    ensures LockInv(NextJob(s))
  {
  }

  lemma EndKeeps(s: Lock, n: nat, outcome: Outcome)
    requires LockInv(s) && Enabled(s, EndOp(n, outcome))
    ensures n == |s.ended| && LockInv(OpSettles(s, n, outcome))
  {
  }

  lemma {:induction false} RunKeeps(s: Lock, es: seq<Step>)
    requires LockInv(s) && Runs(s, es)
    ensures LockInv(After(s, es))
    decreases |es|
  {
    if es != [] {
      match es[0] {
        case Call => CallKeeps(s);
        case RunJob => JobKeeps(s);
        case EndOp(n, outcome) => EndKeeps(s, n, outcome);
      }
      RunKeeps(Apply(s, es[0]), es[1..]);
    }
  }

  // --- what it means -------------------------------------------------------

  /** Operations run one at a time, in call order, whenever the calls are made. */
  lemma OneAtATime(es: seq<Step>)
    requires Runs(NEW_LOCK, es)
    ensures var s := After(NEW_LOCK, es);
      && |s.running| <= 1 && |s.started| == |s.ended| + |s.running|
      && (forall i :: 0 <= i < |s.started| ==> s.started[i] == i)
      && (forall i :: 0 <= i < |s.ended| ==> s.ended[i].0 == i)
      && (forall n :: n in s.running ==> n == |s.ended|)
  {
    RunKeeps(NEW_LOCK, es);
  }

  /** What withLock returned to call `n` settles with the outcome of operation `n`, and with nothing else. */
  lemma OwnOutcome(es: seq<Step>, n: nat)
    requires Runs(NEW_LOCK, es) && n < |After(NEW_LOCK, es).runs|
    ensures var s := After(NEW_LOCK, es);
      && (n < |s.ended| ==> s.runs[n] == Settled(s.ended[n].1))
      && (n >= |s.ended| ==> s.runs[n].Pending?)
  {
    RunKeeps(NEW_LOCK, es);
  }

  /**
   * A rejection never blocks: as long as a call has not been served and no operation runs, the
   * job queue leads to the next operation in at most two jobs, however the earlier ones ended.
   */
  lemma NextAlwaysStarts(es: seq<Step>)
    requires Runs(NEW_LOCK, es)
    ensures var s := After(NEW_LOCK, es);
      |s.ended| < |s.runs| && s.running == {} ==>
        && Enabled(s, RunJob)
        && (NextJob(s).running == {|s.ended|}
            || (Enabled(NextJob(s), RunJob) && NextJob(NextJob(s)).running == {|s.ended|}))
  {
    RunKeeps(NEW_LOCK, es);
  }

  /** With every started operation settled and no job left, every call ever made has its outcome. */
  lemma AllServed(es: seq<Step>)
    requires Runs(NEW_LOCK, es)
    requires After(NEW_LOCK, es).running == {} && After(NEW_LOCK, es).jobs == []
    ensures var s := After(NEW_LOCK, es);
      |s.ended| == |s.runs| && forall n :: 0 <= n < |s.runs| ==> s.runs[n] == Settled(s.ended[n].1)
  {
    RunKeeps(NEW_LOCK, es);
  }

  // --- the closure ---------------------------------------------------------

  /** The closure variable `chain` and the runtime's promises and job queue. */
  class Serializer {
    var chain: nat
    var chains: seq<Promise>
    var runs: seq<Promise>
    var jobs: seq<Job>
    var running: set<nat>
    ghost var started: seq<nat>
    ghost var ended: seq<(nat, Outcome)>

    ghost function View(): Lock
      reads this
    {
      Lock(chain, chains, runs, jobs, running, started, ended)
    }

    constructor ()
      ensures View() == NEW_LOCK && LockInv(View())
    {
      chain, chains, runs, jobs, running := 0, [Settled(UNDEFINED)], [], [], {};
      started, ended := [], [];
    }

    method Register(j: Job)
      requires chain < |chains|
      modifies `chains, `jobs
      ensures var (p, more) := Then(old(chains[chain]), j); chains == old(chains)[chain := p] && jobs == old(jobs) + more
    {
      if chains[chain].Pending? {
        chains := chains[chain := Pending(chains[chain].reactions + [j])];
      } else {
        jobs := jobs + [j];
      }
    }

    method CallWithLock() returns (call: nat)
      requires LockInv(View())
      modifies this
      ensures View() == WithLock(old(View())) && LockInv(View())
      ensures call == |old(runs)| && runs[call].Pending?
    {
      CallKeeps(View());
      call := |runs|;
      Register(StartOp(call));
      runs := runs + [Pending([PassOn(|chains|)])];
      chain := |chains|;
      chains := chains + [Pending([])];
    }

    method RunNextJob()
      requires LockInv(View()) && Enabled(View(), RunJob)
      modifies this
      ensures View() == NextJob(old(View())) && LockInv(View())
    {
      JobKeeps(View());
      var job := jobs[0];
      jobs := jobs[1..];
      match job
      case StartOp(n) =>
        running := running + {n};
        started := started + [n];
      case PassOn(k) =>
        jobs := jobs + Reactions(chains[k]);
        chains := chains[k := Settled(UNDEFINED)];
    }

    method OperationSettles(n: nat, outcome: Outcome)
      requires LockInv(View()) && n in running
      modifies this
      ensures View() == OpSettles(old(View()), n, outcome) && LockInv(View())
    {
      EndKeeps(View(), n, outcome);
      jobs := jobs + Reactions(runs[n]);
      runs := runs[n := Settled(outcome)];
      running := running - {n};
      ended := ended + [(n, outcome)];
    }
  }
}
