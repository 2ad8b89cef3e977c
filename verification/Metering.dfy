/**
 * Traffic accounting over runs of the command protocol: the states the service emits, the counters
 * the app reads, and the replies that reach the session, in whatever order they come. When exactly
 * the total is right, for every run.
 */
module Metering {
  import opened Options
  import opened Engine
  import opened Protocol
  import opened Tunnel
  import S = Session

  // --- the model -----------------------------------------------------------

  /**
   * One step of the protocol, a call of stats() that reads the counters, or the reply of such a call
   * reaching the session. `counters` is what a live engine has counted.
   */
  datatype Act = Move(step: Step) | Read(counters: S.Traffic) | Feed(index: nat)

  /**
   * A reply on its way to the session: read before 'connected' had been emitted for its engine
   * (`early`), with a terminal state emitted since (`stale`), with a later one fed before it (`overtaken`).
   */
  datatype Reply = Reply(raw: S.Traffic, generation: nat, early: bool, stale: bool, overtaken: bool)

  /**
   * `generation` numbers the periods in which an engine is up (odd) or none is (even), `reading` is
   * the last reading of the period, `announced` whether 'connected' has been emitted for it,
   * `replies` are on their way, and `events` is what the traffic session has been told.
   */
  datatype Meter =
    Meter(sys: Sys, generation: nat, reading: S.Traffic, announced: bool, replies: seq<Reply>, events: seq<S.Event>)

  const START := Meter(INIT, 0, S.ZERO, false, [], [])

  /** What a step emits. */
  function Emission(s: Sys, e: Step): Emitted {
    match e
    case Deliver(i) => if i.StartIntent? then Connecting else Nothing
    case MainMoves =>
      if s.main.StopTokened? then Disconnecting
      else if s.main.DestroyTold? && s.main.hadTunnel then Disconnected
      else Nothing
    case HolderMoves(_) => if s.lock.Held? then Announces(s.lock.at) else Nothing
    case _ => Nothing
  }

  lemma HolderEmits(s: Sys, c: Choice)
    requires s.lock.Held?
    ensures var x := Announces(s.lock.at); Advance(s, c).last == if x == Nothing then s.last else x
  {
    match s.lock.at
    case Entering(at) => assert Advance(s, c) == Enter(s, at);
    case Preparing(at) => assert Advance(s, c) == Prepare(s, at, c);
    case Replacing(at, previous, fd) => assert Advance(s, c) == Replace(s, at, previous, fd);
    case Booting(at, fd) => assert Advance(s, c) == Boot(s, at, fd, c);
    case Finishing(at) => assert Advance(s, c) == Finish(s, at);
    case Failing(at) => assert Advance(s, c) == Fail(s, at);
    case Stopping(at, thenReject) => assert Advance(s, c) == Stop(s, at, thenReject, c.stop);
    case Dropping(at, thenReject, pfd) => assert Advance(s, c) == Drop(s, at, thenReject, pfd);
    case Leaving(at) => assert Advance(s, c) == Leave(s, at);
  }

  /** Nothing else is emitted: the last emitted state changes by exactly these. */
  lemma EmissionIsLast(s: Sys, e: Step)
    requires Enabled(s, e)
    ensures Apply(s, e).last == if Emission(s, e) == Nothing then s.last else Emission(s, e)
  {
    if e.HolderMoves? {
      HolderEmits(s, e.choice);
    }
  }

  /** getStats: zeros without an engine, its counters with one. */
  function Reading(s: Sys, counters: S.Traffic): S.Traffic {
    if s.isEngineRunning then counters else S.ZERO
  }

  function SampleOf(r: Reply): S.Event {
    S.Update(r.raw, r.generation)
  }

  /** A terminal state has been emitted while these were on their way. */
  function Staled(rs: seq<Reply>): (r: seq<Reply>)
    ensures |r| == |rs| && forall i :: 0 <= i < |rs| ==> r[i] == rs[i].(stale := true)
  {
    seq(|rs|, i requires 0 <= i < |rs| => rs[i].(stale := true))
  }

  /** The reply at `k` is fed; those in front of it have been overtaken. */
  function Without(rs: seq<Reply>, k: nat): (r: seq<Reply>)
    requires k < |rs|
    ensures |r| == |rs| - 1
    ensures forall i :: 0 <= i < |r| ==> r[i] == if i < k then rs[i].(overtaken := true) else rs[i + 1]
  {
    seq(|rs| - 1, i requires 0 <= i < |rs| - 1 => if i < k then rs[i].(overtaken := true) else rs[i + 1])
  }

  /** The counters of a live engine only grow. */
  predicate CanDo(m: Meter, a: Act) {
    match a
    case Move(e) => Enabled(m.sys, e)
    case Read(counters) => m.sys.isEngineRunning ==> S.AtMost(m.reading, counters)
    case Feed(k) => k < |m.replies|
  }

  function Do(m: Meter, a: Act): Meter
    requires CanDo(m, a)
  {
    match a
    case Move(e) => Moved(m, e)
    case Read(counters) =>
      var raw := Reading(m.sys, counters);
      var early := m.sys.isEngineRunning && !m.announced;
      m.(reading := raw, replies := m.replies + [Reply(raw, m.generation, early, false, false)])
    case Feed(k) => m.(events := m.events + [SampleOf(m.replies[k])], replies := Without(m.replies, k))
  }

  function Moved(m: Meter, e: Step): Meter
    requires Enabled(m.sys, e)
  {
    var s', x := Apply(m.sys, e), Emission(m.sys, e);
    var told := m.events + S.Told(x);
    var replies := if S.Told(x) == [S.CommitRestart] then Staled(m.replies) else m.replies;
    if s'.isEngineRunning == m.sys.isEngineRunning then
      Meter(s', m.generation, m.reading, m.announced || x == Connected, replies, told)
    else Meter(s', m.generation + 1, S.ZERO, false, replies, told)
  }

  predicate Goes(m: Meter, acts: seq<Act>)
    decreases |acts|
  {
    acts == [] || (CanDo(m, acts[0]) && Goes(Do(m, acts[0]), acts[1..]))
  }

  function Finally(m: Meter, acts: seq<Act>): Meter
    requires Goes(m, acts)
    decreases |acts|
  {
    if acts == [] then m else Finally(Do(m, acts[0]), acts[1..])
  }

  /** The total is the sum over all engines of the most that an accepted sample of each has shown. */
  ghost predicate IsExact(m: Meter) {
    S.Total(S.Run(m.events)) == S.TrueSum(S.Accepted(m.events), m.generation + 1)
  }

  // --- every run -----------------------------------------------------------

  predicate RepliesBelow(rs: seq<Reply>, n: nat) {
    forall i :: 0 <= i < |rs| ==> rs[i].generation < n
  }

  /** No sample comes from a period that has not begun. */
  predicate PastOnly(m: Meter) {
    S.GenerationsBelow(S.Accepted(m.events), m.generation + 1) && RepliesBelow(m.replies, m.generation + 1)
  }

  lemma WithoutBelow(rs: seq<Reply>, k: nat, n: nat)
    requires RepliesBelow(rs, n) && k < |rs|
    ensures RepliesBelow(Without(rs, k), n)
  {
  }

  lemma ToldAddsNoSample(events: seq<S.Event>, x: Emitted)
    ensures S.Accepted(events + S.Told(x)) == S.Accepted(events)
  {
    if S.Told(x) == [] {
      assert events + [] == events;
    } else {
      S.OneMore(events, S.Told(x)[0]);
    }
  }

  lemma OneMoreBelow(samples: seq<S.Event>, e: S.Event, n: nat)
    requires (forall x :: x in samples ==> x.Update?) && e.Update? && S.GenerationsBelow(samples, n) && e.generation < n
    ensures S.GenerationsBelow(samples + [e], n)
  {
  }

  lemma PastByFeeding(m: Meter, k: nat)
    requires PastOnly(m) && k < |m.replies|
    ensures PastOnly(Do(m, Feed(k)))
  {
    WithoutBelow(m.replies, k, m.generation + 1);
    S.OneMore(m.events, SampleOf(m.replies[k]));
    OneMoreBelow(S.Accepted(m.events), SampleOf(m.replies[k]), m.generation + 1);
  }

  lemma PastByMoving(m: Meter, e: Step)
    requires PastOnly(m) && Enabled(m.sys, e)
    ensures PastOnly(Moved(m, e))
  {
    ToldAddsNoSample(m.events, Emission(m.sys, e));
  }

  lemma PastStays(m: Meter, a: Act)
    requires PastOnly(m) && CanDo(m, a)
    ensures PastOnly(Do(m, a))
  {
    match a
    case Move(e) => PastByMoving(m, e);
    case Read(_) =>
    case Feed(k) => PastByFeeding(m, k);
  }

  lemma {:induction false} PastAlong(m: Meter, acts: seq<Act>)
    requires PastOnly(m) && Goes(m, acts)
    ensures PastOnly(Finally(m, acts))
    decreases |acts|
  {
    if acts != [] {
      PastStays(m, acts[0]);
      PastAlong(Do(m, acts[0]), acts[1..]);
    }
  }

  lemma ExactHere(m: Meter)
    requires PastOnly(m)
    ensures IsExact(m) <==> S.Book(m.events).missed == S.Book(m.events).recounted
  {
    S.ExactIff(m.events, m.generation + 1);
  }

  /**
   * In every run of the protocol, destroys and overlapping commands included, with replies in any
   * order: the total is exact if and only if what it has missed and what it has counted again agree.
   */
  lemma ExactInEveryRun(acts: seq<Act>)
    requires Goes(START, acts)
    ensures var m := Finally(START, acts); IsExact(m) <==> S.Book(m.events).missed == S.Book(m.events).recounted
  {
    PastAlong(START, acts);
    ExactHere(Finally(START, acts));
  }

  // --- exact all along -----------------------------------------------------

  ghost predicate AlwaysExact(m: Meter, acts: seq<Act>)
    requires Goes(m, acts)
    decreases |acts|
  {
    IsExact(m) && (acts == [] || AlwaysExact(Do(m, acts[0]), acts[1..]))
  }

  /** The reply is accepted, and the session does not replace exactly what was known of it. */
  predicate Miscounts(m: Meter, a: Act)
    requires CanDo(m, a)
  {
    a.Feed? && S.Miscounts(m.events, SampleOf(m.replies[a.index]))
  }

  predicate NoneMiscounted(m: Meter, acts: seq<Act>)
    requires Goes(m, acts)
    decreases |acts|
  {
    acts == [] || (!Miscounts(m, acts[0]) && NoneMiscounted(Do(m, acts[0]), acts[1..]))
  }

  lemma EvenByMoving(m: Meter, e: Step)
    requires Enabled(m.sys, e)
    ensures var l, l' := S.Book(m.events), S.Book(Moved(m, e).events);
      l'.missed == l.missed && l'.recounted == l.recounted
  {
    var told := S.Told(Emission(m.sys, e));
    if told == [] {
      assert m.events + [] == m.events;
    } else {
      S.OneMoreInBook(m.events, told[0]);
    }
  }

  lemma StaysExactIff(m: Meter, a: Act)
    requires PastOnly(m) && IsExact(m) && CanDo(m, a)
    ensures IsExact(Do(m, a)) <==> !Miscounts(m, a)
  {
    ExactHere(m);
    PastStays(m, a);
    ExactHere(Do(m, a));
    match a
    case Move(e) => EvenByMoving(m, e);
    case Read(_) =>
    case Feed(k) => S.StaysExactIff(m.events, SampleOf(m.replies[k]));
  }

  lemma {:induction false} ExactAlong(m: Meter, acts: seq<Act>)
    requires PastOnly(m) && IsExact(m) && Goes(m, acts)
    ensures AlwaysExact(m, acts) <==> NoneMiscounted(m, acts)
    decreases |acts|
  {
    if acts != [] {
      StaysExactIff(m, acts[0]);
      PastStays(m, acts[0]);
      if IsExact(Do(m, acts[0])) {
        ExactAlong(Do(m, acts[0]), acts[1..]);
      } else {
        assert !AlwaysExact(Do(m, acts[0]), acts[1..]);
      }
    }
  }

  lemma StartIsExact()
    ensures PastOnly(START) && IsExact(START)
  {
    ExactHere(START);
  }

  /** Exactly when the total is right all along a run: when no reply is accepted and miscounted. */
  lemma AlwaysExactIff(acts: seq<Act>)
    requires Goes(START, acts)
    ensures AlwaysExact(START, acts) <==> NoneMiscounted(START, acts)
  {
    StartIsExact();
    ExactAlong(START, acts);
  }

  // --- replies in order ----------------------------------------------------

  /** Every reply reaches the session in front of those read after it. */
  predicate InOrder(acts: seq<Act>) {
    forall i :: 0 <= i < |acts| && acts[i].Feed? ==> acts[i].index == 0
  }

  function Samples(rs: seq<Reply>): (es: seq<S.Event>)
    ensures |es| == |rs| && forall i :: 0 <= i < |rs| ==> es[i] == SampleOf(rs[i])
  {
    seq(|rs|, i requires 0 <= i < |rs| => SampleOf(rs[i]))
  }

  /** What the session has accepted and what is still on its way to it, as it was read. */
  function Line(m: Meter): (es: seq<S.Event>)
    ensures forall e :: e in es ==> e.Update?
  {
    S.Accepted(m.events) + Samples(m.replies)
  }

  predicate AllBefore(samples: seq<S.Event>, generation: nat, reading: S.Traffic)
    requires forall e :: e in samples ==> e.Update?
  {
    forall i :: 0 <= i < |samples| ==> S.Follows(samples[i], S.Update(reading, generation))
  }

  /** The next reading of this period follows all of them. */
  ghost predicate LineFits(m: Meter) {
    S.PerGeneration(Line(m), m.generation + 1) && AllBefore(Line(m), m.generation, m.reading)
  }

  lemma LineByReading(m: Meter, counters: S.Traffic)
    requires LineFits(m) && CanDo(m, Read(counters)) && (!m.sys.isEngineRunning ==> m.reading == S.ZERO)
    ensures LineFits(Do(m, Read(counters)))
  {
    var m' := Do(m, Read(counters));
    assert Line(m') == Line(m) + [S.Update(m'.reading, m.generation)];
  }

  /** What remains of a line without its `k`-th sample. */
  lemma LineWithout(line: seq<S.Event>, rest: seq<S.Event>, k: nat, generation: nat, reading: S.Traffic)
    requires forall x :: x in line ==> x.Update?
    requires S.PerGeneration(line, generation + 1) && AllBefore(line, generation, reading)
    requires k < |line| && rest == line[..k] + line[k + 1..]
    ensures forall x :: x in rest ==> x.Update?
    ensures S.PerGeneration(rest, generation + 1) && AllBefore(rest, generation, reading)
  {
    assert forall i :: 0 <= i < |rest| ==> rest[i] == if i < k then line[i] else line[i + 1];
  }

  lemma FirstOfReplies(m: Meter)
    requires m.replies != []
    ensures Samples(m.replies) == [SampleOf(m.replies[0])] + Samples(Without(m.replies, 0))
  {
  }

  lemma Regroup(a: seq<S.Event>, e: S.Event, rest: seq<S.Event>)
    ensures a + ([e] + rest) == a + [e] + rest
    ensures (a + ([e] + rest))[..|a|] + (a + ([e] + rest))[|a| + 1..] == a + rest
  {
  }

  lemma LineOfFed(m: Meter)
    requires m.replies != []
    ensures var m', a := Do(m, Feed(0)), |S.Accepted(m.events)|;
      Line(m') == if S.Run(m.events).suspended then Line(m)[..a] + Line(m)[a + 1..] else Line(m)
  {
    var accepted, e := S.Accepted(m.events), SampleOf(m.replies[0]);
    S.OneMore(m.events, e);
    FirstOfReplies(m);
    Regroup(accepted, e, Samples(Without(m.replies, 0)));
  }

  lemma LineByFeeding(m: Meter)
    requires LineFits(m) && m.replies != []
    ensures LineFits(Do(m, Feed(0)))
  {
    LineOfFed(m);
    if S.Run(m.events).suspended {
      LineWithout(Line(m), Line(Do(m, Feed(0))), |S.Accepted(m.events)|, m.generation, m.reading);
    }
  }

  lemma StaleOrNot(rs: seq<Reply>)
    ensures Samples(Staled(rs)) == Samples(rs)
  {
  }

  lemma NextPeriod(line: seq<S.Event>, generation: nat)
    requires forall x :: x in line ==> x.Update?
    requires S.PerGeneration(line, generation + 1)
    ensures S.PerGeneration(line, generation + 2) && AllBefore(line, generation + 1, S.ZERO)
  {
  }

  lemma LineByMoving(m: Meter, e: Step)
    requires LineFits(m) && Enabled(m.sys, e)
    ensures LineFits(Moved(m, e))
  {
    var m' := Moved(m, e);
    ToldAddsNoSample(m.events, Emission(m.sys, e));
    StaleOrNot(m.replies);
    assert Line(m') == Line(m);
    NextPeriod(Line(m), m.generation);
  }

  /** Without an engine the reading of the period is zero. */
  predicate ZeroWhenDown(m: Meter) {
    !m.sys.isEngineRunning ==> m.reading == S.ZERO
  }

  lemma LineStays(m: Meter, a: Act)
    requires LineFits(m) && ZeroWhenDown(m) && CanDo(m, a) && (a.Feed? ==> a.index == 0)
    ensures LineFits(Do(m, a)) && ZeroWhenDown(Do(m, a))
  {
    match a
    case Move(e) => LineByMoving(m, e);
    case Read(counters) => LineByReading(m, counters);
    case Feed(_) => LineByFeeding(m);
  }

  /** The sample is accepted and meets one of the two guards, after a sample that is not zero. */
  predicate MeetsGuard(m: Meter, a: Act)
    requires CanDo(m, a)
  {
    a.Feed? && !S.Run(m.events).suspended && S.MeetsGuard(S.Book(m.events), SampleOf(m.replies[a.index]))
  }

  predicate NoGuardMet(m: Meter, acts: seq<Act>)
    requires Goes(m, acts)
    decreases |acts|
  {
    acts == [] || (!MeetsGuard(m, acts[0]) && NoGuardMet(Do(m, acts[0]), acts[1..]))
  }

  lemma FirstOfLine(m: Meter)
    requires LineFits(m) && m.replies != []
    ensures S.PerGeneration(S.Accepted(m.events) + [SampleOf(m.replies[0])], m.generation + 1)
  {
    var first := S.Accepted(m.events) + [SampleOf(m.replies[0])];
    assert forall i :: 0 <= i < |first| ==> first[i] == Line(m)[i];
  }

  lemma {:induction false} GuardsAlong(m: Meter, acts: seq<Act>)
    requires LineFits(m) && ZeroWhenDown(m) && Goes(m, acts) && InOrder(acts)
    ensures NoneMiscounted(m, acts) <==> NoGuardMet(m, acts)
    decreases |acts|
  {
    if acts != [] {
      if acts[0].Feed? {
        FirstOfLine(m);
        S.MiscountsInOrder(m.events, SampleOf(m.replies[0]), m.generation + 1);
      }
      LineStays(m, acts[0]);
      GuardsAlong(Do(m, acts[0]), acts[1..]);
    }
  }

  /**
   * With replies in order, and in every run: the total is exact all along if and only if no accepted
   * sample comes, after a sample that is not zero, from the same engine with a commit in between, or
   * from another engine with no commit in between and no counter that goes backwards.
   */
  lemma InOrderExactIff(acts: seq<Act>)
    requires Goes(START, acts) && InOrder(acts)
    ensures AlwaysExact(START, acts) <==> NoGuardMet(START, acts)
  {
    AlwaysExactIff(acts);
    GuardsAlong(START, acts);
  }
}
