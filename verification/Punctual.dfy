/**
 * What is enough for the traffic total to be exact all along, in terms of when replies are read and
 * fed: nothing accepted from an engine in front of its 'connected', and every reply fed in front of
 * the next terminal state and of the replies read after it.
 */
module Punctual {
  import opened Options
  import opened Engine
  import opened Protocol
  import opened Tunnel
  import opened Metering
  import S = Session

  /** The reply is accepted although it was early, is stale or has been overtaken. */
  predicate Unpunctual(m: Meter, a: Act)
    requires CanDo(m, a)
  {
    a.Feed? && !S.Run(m.events).suspended &&
    var r := m.replies[a.index]; r.early || r.stale || r.overtaken
  }

  /** The run destroys nothing and accepts only punctual replies. */
  predicate IsPunctual(m: Meter, acts: seq<Act>)
    requires Goes(m, acts)
    decreases |acts|
  {
    acts == [] ||
    (acts[0] != Move(Destroy) && !Unpunctual(m, acts[0]) && IsPunctual(Do(m, acts[0]), acts[1..]))
  }

  // --- the invariant -------------------------------------------------------

  predicate NotDestroyed(s: Sys) {
    && !s.flags.destroyed && !s.main.DestroyMarked? && !s.main.DestroyPeeks? && !s.main.DestroyTold?
  }

  /** Until 'connected' has been emitted, the holder has not announced the engine. */
  predicate Unannounced(m: Meter) {
    m.sys.lock.Held? && m.sys.lock.at.Finishing? && m.sys.lock.at != Finishing(ResolveUp) ==> !m.announced
  }

  predicate IsUp(generation: nat) {
    generation % 2 == 1
  }

  /** The last accepted sample and the ledger fit the period the meter is in. */
  predicate PeriodFits(m: Meter, l: S.Ledger)
    requires S.FitsLedger(l)
  {
    && (m.sys.isEngineRunning <==> IsUp(m.generation))
    && (!m.sys.isEngineRunning ==> m.reading == S.ZERO && !m.announced)
    && (l.prev.Some? ==>
          var p := l.prev.value;
          && p.generation <= m.generation && (!IsUp(p.generation) ==> p.raw == S.ZERO)
          && (p.generation == m.generation ==> S.AtMost(p.raw, m.reading))
          && (m.sys.isEngineRunning && !m.announced ==> p.generation < m.generation)
          && (m.sys.isEngineRunning && m.announced ==> (l.committed <==> p.generation != m.generation)))
  }

  predicate IsFresh(r: Reply) {
    !r.early && !r.stale
  }

  predicate ReplyFits(m: Meter, r: Reply) {
    && r.generation <= m.generation && (!IsUp(r.generation) ==> r.raw == S.ZERO)
    && (r.generation == m.generation ==> S.AtMost(r.raw, m.reading))
    && (m.sys.isEngineRunning && !m.announced && r.generation == m.generation ==> r.early)
    && (m.sys.isEngineRunning && m.announced && IsFresh(r) ==> r.generation == m.generation)
  }

  /** A punctual reply is in order, and a commit separates it from the sample before it exactly if a restart does. */
  predicate Acceptable(l: S.Ledger, r: Reply)
    requires S.FitsLedger(l)
  {
    IsFresh(r) && !r.overtaken && l.prev.Some? ==>
      && S.Follows(l.prev.value, SampleOf(r))
      && (IsUp(r.generation) ==> (l.committed <==> l.prev.value.generation != r.generation))
  }

  /** One reply has been read in front of another, with no 'connected' between two fresh ones. */
  predicate ReadBefore(q: Reply, r: Reply) {
    && S.Follows(SampleOf(q), SampleOf(r))
    && (IsFresh(q) && IsFresh(r) && IsUp(r.generation) ==> q.generation == r.generation)
  }

  predicate RepliesFit(m: Meter, l: S.Ledger, rs: seq<Reply>)
    requires S.FitsLedger(l)
  {
    && (forall i :: 0 <= i < |rs| ==> ReplyFits(m, rs[i]) && Acceptable(l, rs[i]))
    && (forall i, j :: 0 <= i < j < |rs| ==> ReadBefore(rs[i], rs[j]))
  }

  ghost predicate AccountFits(m: Meter) {
    var l := S.Book(m.events);
    PeriodFits(m, l) && RepliesFit(m, l, m.replies) && S.PerGeneration(S.Accepted(m.events), m.generation + 1)
  }

  ghost predicate PunctualInv(m: Meter) {
    TunnelInv(m.sys) && NotDestroyed(m.sys) && Unannounced(m) && AccountFits(m)
  }

  // --- reading -------------------------------------------------------------

  lemma NewReplyFits(m: Meter, l: S.Ledger, raw: S.Traffic, r: Reply)
    requires S.FitsLedger(l) && PeriodFits(m, l)
    requires if m.sys.isEngineRunning then S.AtMost(m.reading, raw) else raw == S.ZERO
    requires r == Reply(raw, m.generation, m.sys.isEngineRunning && !m.announced, false, false)
    ensures PeriodFits(m.(reading := raw), l) && ReplyFits(m.(reading := raw), r) && Acceptable(l, r)
  {
  }

  lemma ReadAfter(m: Meter, l: S.Ledger, raw: S.Traffic, q: Reply, r: Reply)
    requires S.FitsLedger(l) && PeriodFits(m, l) && ReplyFits(m, q)
    requires if m.sys.isEngineRunning then S.AtMost(m.reading, raw) else raw == S.ZERO
    requires r == Reply(raw, m.generation, m.sys.isEngineRunning && !m.announced, false, false)
    ensures ReadBefore(q, r) && ReplyFits(m.(reading := raw), q)
  {
  }

  lemma ReadingFits(m: Meter, counters: S.Traffic)
    requires AccountFits(m) && CanDo(m, Read(counters))
    ensures AccountFits(Do(m, Read(counters)))
  {
    var m', raw, l := Do(m, Read(counters)), Reading(m.sys, counters), S.Book(m.events);
    var r := m'.replies[|m.replies|];
    NewReplyFits(m, l, raw, r);
    forall i | 0 <= i < |m.replies| ensures ReadBefore(m.replies[i], r) && ReplyFits(m.(reading := raw), m.replies[i]) {
      ReadAfter(m, l, raw, m.replies[i], r);
    }
    assert forall i :: 0 <= i < |m.replies| ==> m'.replies[i] == m.replies[i];
    FitsByReading(m, m', l);
  }

  /** ReplyFits looks at the sample period alone. */
  lemma FitsByReading(m: Meter, m': Meter, l: S.Ledger)
    requires S.FitsLedger(l) && m'.sys == m.sys && m'.generation == m.generation && m'.announced == m.announced
    ensures forall r :: ReplyFits(m.(reading := m'.reading), r) == ReplyFits(m', r)
    ensures PeriodFits(m.(reading := m'.reading), l) == PeriodFits(m', l)
  {
  }

  // --- feeding -------------------------------------------------------------

  lemma AcceptedPeriodFits(m: Meter, l: S.Ledger, r: Reply, l': S.Ledger)
    requires S.FitsLedger(l) && PeriodFits(m, l) && ReplyFits(m, r) && IsFresh(r)
    requires l'.prev == Some(SampleOf(r)) && !l'.committed
    ensures S.FitsLedger(l') && PeriodFits(m, l')
  {
  }

  lemma StillAcceptable(r: Reply, q: Reply, l': S.Ledger)
    requires ReadBefore(r, q) && IsFresh(r) && l'.prev == Some(SampleOf(r)) && !l'.committed
    ensures S.FitsLedger(l') && Acceptable(l', q)
  {
  }

  lemma OvertakenFits(m: Meter, l: S.Ledger, q: Reply)
    requires S.FitsLedger(l) && ReplyFits(m, q)
    ensures ReplyFits(m, q.(overtaken := true)) && Acceptable(l, q.(overtaken := true))
  {
  }

  /** The replies left over when a fresh one has been accepted. */
  lemma RemainderFits(m: Meter, l: S.Ledger, rs: seq<Reply>, k: nat, l': S.Ledger)
    requires S.FitsLedger(l) && RepliesFit(m, l, rs) && k < |rs| && IsFresh(rs[k])
    requires l'.prev == Some(SampleOf(rs[k])) && !l'.committed
    ensures S.FitsLedger(l') && RepliesFit(m, l', Without(rs, k))
  {
    var left := Without(rs, k);
    forall i | 0 <= i < |left| ensures ReplyFits(m, left[i]) && Acceptable(l', left[i]) {
      if i < k {
        OvertakenFits(m, l', rs[i]);
      } else {
        StillAcceptable(rs[k], rs[i + 1], l');
      }
    }
    OrderRemains(rs, k);
  }

  lemma OrderRemains(rs: seq<Reply>, k: nat)
    requires k < |rs| && forall i, j :: 0 <= i < j < |rs| ==> ReadBefore(rs[i], rs[j])
    ensures var left := Without(rs, k); forall i, j :: 0 <= i < j < |left| ==> ReadBefore(left[i], left[j])
  {
    var left := Without(rs, k);
    forall i, j | 0 <= i < j < |left| ensures ReadBefore(left[i], left[j]) {
      assert ReadBefore(rs[if i < k then i else i + 1], rs[if j < k then j else j + 1]);
    }
  }

  lemma IgnoredRemainderFits(m: Meter, l: S.Ledger, rs: seq<Reply>, k: nat)
    requires S.FitsLedger(l) && RepliesFit(m, l, rs) && k < |rs|
    ensures RepliesFit(m, l, Without(rs, k))
  {
    OrderRemains(rs, k);
  }

  lemma OneMoreInOrder(samples: seq<S.Event>, e: S.Event, n: nat)
    requires (forall x :: x in samples ==> x.Update?) && e.Update? && S.PerGeneration(samples, n) && e.generation < n
    requires samples != [] ==> S.Follows(samples[|samples| - 1], e)
    ensures S.PerGeneration(samples + [e], n)
  {
    var all := samples + [e];
    forall i, j | 0 <= i < j < |all| ensures S.Follows(all[i], all[j]) {
      if j == |samples| && i < |samples| - 1 {
        assert S.Follows(samples[i], samples[|samples| - 1]);
      }
    }
  }

  lemma FedInOrder(m: Meter, k: nat)
    requires AccountFits(m) && k < |m.replies| && IsFresh(m.replies[k]) && !m.replies[k].overtaken
    ensures S.PerGeneration(S.Accepted(m.events) + [SampleOf(m.replies[k])], m.generation + 1)
  {
    S.BookFollows(m.events);
    OneMoreInOrder(S.Accepted(m.events), SampleOf(m.replies[k]), m.generation + 1);
  }

  lemma NoGuard(m: Meter, l: S.Ledger, r: Reply)
    requires S.FitsLedger(l) && PeriodFits(m, l) && ReplyFits(m, r) && Acceptable(l, r) && IsFresh(r) && !r.overtaken
    ensures !S.MeetsGuard(l, SampleOf(r))
  {
  }

  lemma PunctualCounts(m: Meter, k: nat)
    requires AccountFits(m) && CanDo(m, Feed(k)) && !Unpunctual(m, Feed(k))
    ensures !Miscounts(m, Feed(k))
  {
    if !S.Run(m.events).suspended {
      FedInOrder(m, k);
      NoGuard(m, S.Book(m.events), m.replies[k]);
      S.MiscountsInOrder(m.events, SampleOf(m.replies[k]), m.generation + 1);
    }
  }

  lemma FitsByFeeding(m: Meter, m': Meter, l: S.Ledger, rs: seq<Reply>)
    requires m'.sys == m.sys && m'.generation == m.generation && m'.announced == m.announced && m'.reading == m.reading
    requires S.FitsLedger(l) && PeriodFits(m, l) && RepliesFit(m, l, rs)
    ensures PeriodFits(m', l) && RepliesFit(m', l, rs)
  {
    assert forall i :: 0 <= i < |rs| ==> ReplyFits(m, rs[i]) == ReplyFits(m', rs[i]);
  }

  lemma FeedingFits(m: Meter, k: nat)
    requires AccountFits(m) && CanDo(m, Feed(k)) && !Unpunctual(m, Feed(k))
    ensures AccountFits(Do(m, Feed(k)))
  {
    var m', l, e := Do(m, Feed(k)), S.Book(m.events), SampleOf(m.replies[k]);
    S.OneMore(m.events, e);
    S.OneMoreInBook(m.events, e);
    if S.Run(m.events).suspended {
      IgnoredRemainderFits(m, l, m.replies, k);
      FitsByFeeding(m, m', l, m'.replies);
    } else {
      var l' := S.Book(m'.events);
      FedInOrder(m, k);
      AcceptedPeriodFits(m, l, m.replies[k], l');
      RemainderFits(m, l, m.replies, k, l');
      FitsByFeeding(m, m', l', m'.replies);
    }
  }

  // --- moves ---------------------------------------------------------------

  /** A terminal state is emitted only with the flag down, except 'connected'. */
  lemma CommitsAreSafe(m: Meter, e: Step)
    requires TunnelInv(m.sys) && NotDestroyed(m.sys) && Unannounced(m)
    requires Enabled(m.sys, e) && S.Told(Emission(m.sys, e)) == [S.CommitRestart]
    ensures Apply(m.sys, e).isEngineRunning == m.sys.isEngineRunning
    ensures if m.sys.isEngineRunning then Emission(m.sys, e) == Connected && !m.announced
            else Emission(m.sys, e) != Connected
  {
    if e.HolderMoves? {
      match m.sys.lock.at
      case Finishing(at) => assert Advance(m.sys, e.choice) == Finish(m.sys, at);
      case Failing(at) => assert Advance(m.sys, e.choice) == Fail(m.sys, at);
      case Leaving(at) => assert Advance(m.sys, e.choice) == Leave(m.sys, at);
      case _ =>
    }
  }

  lemma SuspendsOnDelivery(s: Sys, e: Step)
    requires Enabled(s, e) && S.Told(Emission(s, e)) == [S.Suspend]
    ensures e.Deliver? && Apply(s, e).isEngineRunning == s.isEngineRunning
  {
  }

  lemma StaysUndestroyed(s: Sys, e: Step)
    requires NotDestroyed(s) && Enabled(s, e) && e != Destroy
    ensures NotDestroyed(Apply(s, e))
  {
    if e.HolderMoves? {
      HolderTouches(s, e.choice);
    }
  }

  lemma AnnouncesOnce(m: Meter, e: Step)
    requires TunnelInv(m.sys) && NotDestroyed(m.sys) && Unannounced(m) && Enabled(m.sys, e)
    ensures Unannounced(Moved(m, e))
  {
    if e.HolderMoves? {
      HolderAnnouncesOnce(m, e.choice);
    } else if !e.Acquire? {
      OthersTouch(m.sys, e);
    }
  }

  lemma HolderAnnouncesOnce(m: Meter, c: Choice)
    requires TunnelInv(m.sys) && NotDestroyed(m.sys) && Unannounced(m) && Enabled(m.sys, HolderMoves(c))
    ensures Unannounced(Moved(m, HolderMoves(c)))
  {
    var s := m.sys;
    match s.lock.at
    case Entering(at) => assert Advance(s, c) == Enter(s, at);
    case Preparing(at) => assert Advance(s, c) == Prepare(s, at, c);
    case Replacing(at, previous, fd) => assert Advance(s, c) == Replace(s, at, previous, fd);
    case Booting(at, fd) => assert Advance(s, c) == Boot(s, at, fd, c);
    case Finishing(at) => assert Advance(s, c) == Finish(s, at);
    case Failing(at) => assert Advance(s, c) == Fail(s, at);
    case Stopping(at, thenReject) => assert Advance(s, c) == Stop(s, at, thenReject, c.stop);
    case Dropping(at, thenReject, pfd) => assert Advance(s, c) == Drop(s, at, thenReject, pfd);
    case Leaving(at) => assert Advance(s, c) == Leave(s, at);
  }

  /** Nothing that the account looks at has changed. */
  lemma SameFits(m: Meter, m': Meter)
    requires AccountFits(m) && m'.sys.isEngineRunning == m.sys.isEngineRunning && m'.generation == m.generation
    requires m'.reading == m.reading && m'.announced == m.announced && m'.replies == m.replies
    requires S.Book(m'.events) == S.Book(m.events) && S.Accepted(m'.events) == S.Accepted(m.events)
    ensures AccountFits(m')
  {
    assert forall i :: 0 <= i < |m.replies| ==> ReplyFits(m, m.replies[i]) == ReplyFits(m', m.replies[i]);
  }

  lemma ReplyInNextPeriod(m: Meter, m': Meter, r: Reply)
    requires ReplyFits(m, r) && m'.generation == m.generation + 1 && m'.reading == S.ZERO && !m'.announced
    ensures ReplyFits(m', r)
  {
  }

  lemma NextPeriodFits(m: Meter, m': Meter, l: S.Ledger)
    requires S.FitsLedger(l) && PeriodFits(m, l) && m'.sys.isEngineRunning != m.sys.isEngineRunning
    requires m'.generation == m.generation + 1 && m'.reading == S.ZERO && !m'.announced
    ensures PeriodFits(m', l)
  {
  }

  lemma OneMorePeriod(samples: seq<S.Event>, n: nat)
    requires (forall x :: x in samples ==> x.Update?) && S.PerGeneration(samples, n)
    ensures S.PerGeneration(samples, n + 1)
  {
  }

  lemma FlipFits(m: Meter, m': Meter)
    requires AccountFits(m) && m'.sys.isEngineRunning != m.sys.isEngineRunning && m'.replies == m.replies
    requires m'.generation == m.generation + 1 && m'.reading == S.ZERO && !m'.announced && m'.events == m.events
    ensures AccountFits(m')
  {
    NextPeriodFits(m, m', S.Book(m.events));
    forall i | 0 <= i < |m.replies| ensures ReplyFits(m', m.replies[i]) {
      ReplyInNextPeriod(m, m', m.replies[i]);
    }
    OneMorePeriod(S.Accepted(m.events), m.generation + 1);
  }

  /** Banking the last sample when 'connected' is emitted, or with no engine up. */
  lemma CommittedFits(m: Meter, m': Meter, l: S.Ledger)
    requires S.FitsLedger(l) && PeriodFits(m, l) && m'.sys.isEngineRunning == m.sys.isEngineRunning
    requires m'.generation == m.generation && m'.reading == m.reading
    requires if m.sys.isEngineRunning then !m.announced && m'.announced else !m'.announced
    ensures PeriodFits(m', l.(committed := true))
  {
  }

  lemma StaleFits(m: Meter, m': Meter, l: S.Ledger, r: Reply)
    requires S.FitsLedger(l) && ReplyFits(m, r) && m'.sys.isEngineRunning == m.sys.isEngineRunning
    requires m'.generation == m.generation && m'.reading == m.reading && (m.sys.isEngineRunning ==> m'.announced)
    ensures ReplyFits(m', r.(stale := true)) && Acceptable(l, r.(stale := true))
  {
  }

  lemma StaleRepliesFit(m: Meter, m': Meter, l: S.Ledger, l': S.Ledger)
    requires S.FitsLedger(l) && S.FitsLedger(l') && RepliesFit(m, l, m.replies)
    requires m'.sys.isEngineRunning == m.sys.isEngineRunning
    requires m'.generation == m.generation && m'.reading == m.reading && (m.sys.isEngineRunning ==> m'.announced)
    ensures RepliesFit(m', l', Staled(m.replies))
  {
    var rs := Staled(m.replies);
    forall i | 0 <= i < |rs| ensures ReplyFits(m', rs[i]) && Acceptable(l', rs[i]) {
      StaleFits(m, m', l', m.replies[i]);
    }
    forall i, j | 0 <= i < j < |rs| ensures ReadBefore(rs[i], rs[j]) {
      assert ReadBefore(m.replies[i], m.replies[j]);
    }
  }

  lemma CommitFits(m: Meter, m': Meter)
    requires AccountFits(m) && m'.events == m.events + [S.CommitRestart] && m'.replies == Staled(m.replies)
    requires m'.sys.isEngineRunning == m.sys.isEngineRunning && m'.generation == m.generation && m'.reading == m.reading
    requires if m.sys.isEngineRunning then !m.announced && m'.announced else !m'.announced
    ensures AccountFits(m')
  {
    var l := S.Book(m.events);
    S.OneMore(m.events, S.CommitRestart);
    S.OneMoreInBook(m.events, S.CommitRestart);
    CommittedFits(m, m', l);
    StaleRepliesFit(m, m', l, l.(committed := true));
  }

  lemma SilenceFits(m: Meter, e: Step)
    requires AccountFits(m) && Enabled(m.sys, e) && S.Told(Emission(m.sys, e)) == []
    ensures AccountFits(Moved(m, e))
  {
    assert m.events + [] == m.events;
    if Apply(m.sys, e).isEngineRunning == m.sys.isEngineRunning {
      assert Emission(m.sys, e) != Connected;
      SameFits(m, Moved(m, e));
    } else {
      FlipFits(m, Moved(m, e));
    }
  }

  lemma SuspendFits(m: Meter, e: Step)
    requires AccountFits(m) && Enabled(m.sys, e) && S.Told(Emission(m.sys, e)) == [S.Suspend]
    ensures AccountFits(Moved(m, e))
  {
    SuspendsOnDelivery(m.sys, e);
    S.OneMore(m.events, S.Suspend);
    S.OneMoreInBook(m.events, S.Suspend);
    SameFits(m, Moved(m, e));
  }

  lemma MoveFits(m: Meter, e: Step)
    requires PunctualInv(m) && Enabled(m.sys, e)
    ensures AccountFits(Moved(m, e))
  {
    if S.Told(Emission(m.sys, e)) == [] {
      SilenceFits(m, e);
    } else if S.Told(Emission(m.sys, e)) == [S.Suspend] {
      SuspendFits(m, e);
    } else {
      CommitsAreSafe(m, e);
      CommitFits(m, Moved(m, e));
    }
  }

  lemma MoveKeeps(m: Meter, e: Step)
    requires PunctualInv(m) && Enabled(m.sys, e) && e != Destroy
    ensures PunctualInv(Moved(m, e))
  {
    StepKeeps(m.sys, e);
    StaysUndestroyed(m.sys, e);
    AnnouncesOnce(m, e);
    MoveFits(m, e);
  }

  // --- the result ----------------------------------------------------------

  lemma ActKeeps(m: Meter, a: Act)
    requires PunctualInv(m) && CanDo(m, a) && a != Move(Destroy) && !Unpunctual(m, a)
    ensures PunctualInv(Do(m, a)) && !Miscounts(m, a)
  {
    match a
    case Move(e) => MoveKeeps(m, e);
    case Read(counters) => ReadingFits(m, counters);
    case Feed(k) =>
      FeedingFits(m, k);
      PunctualCounts(m, k);
  }

  lemma {:induction false} PunctualAlong(m: Meter, acts: seq<Act>)
    requires PunctualInv(m) && Goes(m, acts) && IsPunctual(m, acts)
    ensures NoneMiscounted(m, acts)
    decreases |acts|
  {
    if acts != [] {
      ActKeeps(m, acts[0]);
      PunctualAlong(Do(m, acts[0]), acts[1..]);
    }
  }

  lemma StartHolds()
    ensures PunctualInv(START)
  {
    InitHolds();
  }

  /**
   * In every run without a destroy, commands overlapping at will, the total is exact all along if
   * every reply that the session accepts was read after its engine's 'connected', reaches it in front
   * of the next terminal state, and in front of the replies read after it.
   */
  lemma PunctualIsExact(acts: seq<Act>)
    requires Goes(START, acts) && IsPunctual(START, acts)
    ensures AlwaysExact(START, acts)
  {
    StartHolds();
    PunctualAlong(START, acts);
    AlwaysExactIff(acts);
  }
}
