/**
 * Runs in which the traffic total is wrong: a command that overlaps another, and a reply that is late.
 */
module WrongTotals {
  import opened Options
  import opened StateBus
  import opened Engine
  import opened Protocol
  import opened Tunnel
  import opened Undisturbed
  import opened Metering
  import S = Session

  // --- putting runs together -----------------------------------------------

  ghost predicate MeterLeads(m: Meter, acts: seq<Act>, m': Meter) {
    Goes(m, acts) && Finally(m, acts) == m'
  }

  lemma {:induction false} MeterJoined(m: Meter, a: seq<Act>, m1: Meter, b: seq<Act>, m2: Meter)
    requires MeterLeads(m, a, m1) && MeterLeads(m1, b, m2)
    ensures MeterLeads(m, a + b, m2)
    decreases |a|
  {
    if a == [] {
      assert a + b == b;
    } else {
      assert (a + b)[1..] == a[1..] + b;
      MeterJoined(Do(m, a[0]), a[1..], m1, b, m2);
    }
  }

  lemma OneAct(m: Meter, a: Act)
    requires CanDo(m, a)
    ensures MeterLeads(m, [a], Do(m, a))
  {
    assert [a][1..] == [];
  }

  lemma ThenAct(m0: Meter, acts: seq<Act>, m: Meter, a: Act)
    requires MeterLeads(m0, acts, m) && CanDo(m, a)
    ensures MeterLeads(m0, acts + [a], Do(m, a))
  {
    OneAct(m, a);
    MeterJoined(m0, acts, m, [a], Do(m, a));
  }

  lemma TwoActs(m: Meter, a: Act, b: Act)
    requires CanDo(m, a) && CanDo(Do(m, a), b)
    ensures MeterLeads(m, [a] + [b], Do(Do(m, a), b))
  {
    OneAct(m, a);
    ThenAct(m, [a], Do(m, a), b);
  }

  lemma {:induction false} KeptAlong(m: Meter, acts: seq<Act>, m': Meter)
    requires TunnelInv(m.sys) && MeterLeads(m, acts, m')
    ensures TunnelInv(m'.sys) && m.generation <= m'.generation
    decreases |acts|
  {
    if acts != [] {
      if acts[0].Move? {
        StepKeeps(m.sys, acts[0].step);
      }
      KeptAlong(Do(m, acts[0]), acts[1..], m');
    }
  }

  /** Nothing has been told to the session meanwhile. */
  predicate Untold(m: Meter, m': Meter) {
    m'.events == m.events && m'.replies == m.replies && (m.reading == S.ZERO ==> m'.reading == S.ZERO)
  }

  lemma SilentMove(m: Meter, e: Step)
    requires Enabled(m.sys, e) && S.Told(Emission(m.sys, e)) == []
    ensures Untold(m, Moved(m, e))
  {
    assert m.events + [] == m.events;
  }

  /** How far a START is on its way to RecheckSeq, or a STOP to AnnounceDown: at 4 it has arrived. */
  function Progress(lock: Lock): nat {
    if lock == Free then 6
    else match lock.at
      case Entering(_) => 0
      case Preparing(_) => 1
      case Replacing(_, _, _) => 2
      case Booting(_, _) => 3
      case Finishing(f) => if f.RecheckSeq? then 4 else 5
      case Stopping(_, _) => if lock.worker.StopWorker? then 1 else 5
      case Dropping(_, _, _) => if lock.worker.StopWorker? then 2 else 5
      case Leaving(l) => if lock.worker.StopWorker? && l.AnnounceDown? then 4 else 5
      case Failing(_) => 5
  }

  lemma ProgressGrows(s: Sys)
    requires StageFits(s) && s.lock.Held? && (s.lock.worker.StartWorker? || s.lock.worker.StopWorker?)
    ensures Progress(Advance(s, GOOD).lock) >= Progress(s.lock)
    ensures Progress(s.lock) >= 4 ==> Progress(Advance(s, GOOD).lock) >= 5
  {
  }

  lemma {:induction false} NeverBack(s: Sys, k: nat)
    requires TunnelInv(s) && (s.lock.Held? ==> s.lock.worker.StartWorker? || s.lock.worker.StopWorker?)
    ensures Progress(GoOn(s, k).lock) >= Progress(s.lock)
    ensures k > 0 && Progress(s.lock) >= 4 ==> Progress(GoOn(s, k).lock) >= 5
    decreases k
  {
    if k > 0 && s.lock.Held? {
      ProgressGrows(s);
      HolderKeeps(s, GOOD);
      HolderTouches(s, GOOD);
      NeverBack(Advance(s, GOOD), k - 1);
    }
  }

  /** `k` moves of the lock holder, with the meter running. */
  function MeterGoOn(m: Meter, k: nat): Meter
    decreases k
  {
    if k == 0 || m.sys.lock == Free then m else MeterGoOn(Moved(m, HolderMoves(GOOD)), k - 1)
  }

  lemma {:induction false} MeterGoingOn(m: Meter, k: nat) returns (acts: seq<Act>)
    ensures MeterLeads(m, acts, MeterGoOn(m, k)) && MeterGoOn(m, k).sys == GoOn(m.sys, k)
    decreases k
  {
    acts := [];
    if k > 0 && m.sys.lock != Free {
      var next := Moved(m, HolderMoves(GOOD));
      var rest := MeterGoingOn(next, k - 1);
      OneAct(m, Move(HolderMoves(GOOD)));
      MeterJoined(m, [Move(HolderMoves(GOOD))], next, rest, MeterGoOn(next, k - 1));
      acts := [Move(HolderMoves(GOOD))] + rest;
    }
  }

  /** On its way there the holder emits nothing. */
  lemma {:induction false} SilentOnTheWay(m: Meter, k: nat)
    requires TunnelInv(m.sys) && m.sys.lock.Held? && (m.sys.lock.worker.StartWorker? || m.sys.lock.worker.StopWorker?)
    requires Progress(GoOn(m.sys, k).lock) == 4
    ensures MeterGoOn(m, k).events == m.events && MeterGoOn(m, k).replies == m.replies
    ensures m.reading == S.ZERO ==> MeterGoOn(m, k).reading == S.ZERO
    decreases k
  {
    if k > 0 {
      var next := Moved(m, HolderMoves(GOOD));
      HolderKeeps(m.sys, GOOD);
      HolderTouches(m.sys, GOOD);
      NeverBack(m.sys, k);
      NeverBack(next.sys, k - 1);
      assert m.events + [] == m.events;
      if next.sys.lock.Held? {
        SilentOnTheWay(next, k - 1);
      }
    }
  }

  // --- a STOP from the disconnect button -----------------------------------

  /** The STOP has the lock. */
  function StopAtLock(s: Sys, w: Worker): Sys {
    s.(last := Disconnecting, lock := Held(w, Entering(CheckSeq)),
       flags := s.flags.(commandSeq := s.flags.commandSeq + 1, newest := StopCommand))
  }

  lemma StopIsTaken(m: Meter) returns (acts: seq<Act>, m': Meter)
    requires m.sys.main == Idle
    ensures MeterLeads(m, acts, m') && Untold(m, m')
    ensures m'.sys == Numbered(m.sys, StopCommand).(main := StopNumbered(m.sys.flags.commandSeq + 1))
  {
    var pressed := Moved(m, PressDisconnect);
    m' := Moved(pressed, Deliver(StopIntent));
    acts := [Move(PressDisconnect)] + [Move(Deliver(StopIntent))];
    assert m'.sys.mail.intents == m.sys.mail.intents;
    SilentMove(m, PressDisconnect);
    SilentMove(pressed, Deliver(StopIntent));
    TwoActs(m, Move(PressDisconnect), Move(Deliver(StopIntent)));
  }

  lemma StopIsSpawned(m: Meter, n: nat) returns (acts: seq<Act>, m': Meter)
    requires m.sys.main == StopNumbered(n) && m.sys.queued == {} && m.sys.lock == Free
    ensures MeterLeads(m, acts, m') && Untold(m, m')
    ensures m'.sys == m.sys.(main := Idle, last := Disconnecting,
                             lock := Held(StopWorker(n, m.sys.bus.pendingStartToken), Entering(CheckSeq)))
  {
    var w := StopWorker(n, m.sys.bus.pendingStartToken);
    var tokened := Moved(m, MainMoves);
    var spawned := Moved(tokened, MainMoves);
    assert spawned.sys == m.sys.(main := Idle, last := Disconnecting, queued := {w});
    acts := [Move(MainMoves)] + [Move(MainMoves)];
    SilentMove(m, MainMoves);
    SilentMove(tokened, MainMoves);
    TwoActs(m, Move(MainMoves), Move(MainMoves));
    assert {w} - {w} == {};
    SilentMove(spawned, Acquire(w));
    ThenAct(m, acts, spawned, Move(Acquire(w)));
    acts, m' := acts + [Move(Acquire(w))], Moved(spawned, Acquire(w));
  }

  /** From a service at rest to the STOP with the lock. */
  lemma StopGetsGoing(m: Meter) returns (acts: seq<Act>, m': Meter)
    requires m.sys.main == Idle && m.sys.queued == {} && m.sys.lock == Free
    ensures MeterLeads(m, acts, m') && Untold(m, m')
    ensures m'.sys == StopAtLock(m.sys, StopWorker(m.sys.flags.commandSeq + 1, m.sys.bus.pendingStartToken))
  {
    var a, taken := StopIsTaken(m);
    var b, spawned := StopIsSpawned(taken, m.sys.flags.commandSeq + 1);
    MeterJoined(m, a, taken, b, spawned);
    acts, m' := a + b, spawned;
  }

  /** The STOP has torn everything down and is about to report it. */
  predicate AboutToReport(s: Sys) {
    && s.lock.Held? && s.lock.worker.StopWorker? && s.lock.at == Leaving(AnnounceDown) && s.main == Idle && s.queued == {}
    && !s.flags.destroyed && s.tun.tunnel.None? && !s.engine.isWedged
  }

  lemma StopComesToReport(m: Meter) returns (acts: seq<Act>, m': Meter)
    requires TunnelInv(m.sys) && m.sys.main == Idle && m.sys.queued == {} && m.sys.lock == Free
    requires !m.sys.flags.destroyed && !m.sys.engine.isWedged
    ensures MeterLeads(m, acts, m') && Untold(m, m') && AboutToReport(m'.sys)
  {
    var a, going := StopGetsGoing(m);
    var s := going.sys;
    KeptAlong(m, a, going);
    StopHalts(s, s.lock.worker);
    TunnelIsDropped(GoOn(s, 4), s.lock.worker);
    GoOnAdds(s, 4, 4);
    SilentOnTheWay(going, 8);
    var b := MeterGoingOn(going, 8);
    m' := MeterGoOn(going, 8);
    MeterJoined(m, a, going, b, m');
    acts := a + b;
  }

  // --- a START from a widget -----------------------------------------------

  function Quick(dns: Dns): Intent {
    StartIntent(None, dns, true)
  }

  lemma QuickIsTaken(m: Meter, dns: Dns) returns (acts: seq<Act>, m': Meter)
    requires m.sys.main == Idle && m.replies == []
    ensures MeterLeads(m, acts, m') && m'.events == m.events + [S.Suspend] && m'.replies == []
    ensures m'.sys == m.sys.(last := Connecting, main := StartEmitted(Quick(dns))) && m'.reading == m.reading
  {
    var sent := Moved(m, SendQuickStart(dns));
    m' := Moved(sent, Deliver(Quick(dns)));
    acts := [Move(SendQuickStart(dns))] + [Move(Deliver(Quick(dns)))];
    assert m'.sys.mail.intents == m.sys.mail.intents;
    SilentMove(m, SendQuickStart(dns));
    TwoActs(m, Move(SendQuickStart(dns)), Move(Deliver(Quick(dns))));
  }

  lemma QuickGetsGoing(m: Meter, dns: Dns) returns (acts: seq<Act>, m': Meter, w: Worker)
    requires m.sys.main == StartEmitted(Quick(dns)) && m.sys.queued == {} && m.sys.lock == Free
    ensures w.StartWorker? && w.dns == dns && w.seqNo == m.sys.flags.commandSeq + 1
    ensures MeterLeads(m, acts, m') && Untold(m, m') && m'.sys == StartAtWork(m.sys, w)
  {
    w := StartWorker(m.sys.flags.commandSeq + 1, m.sys.bus.pendingStartToken, None, dns, true);
    var numbered := Moved(m, MainMoves);
    var spawned := Moved(numbered, MainMoves);
    assert spawned.sys == m.sys.(flags := StartAtWork(m.sys, w).flags, main := Idle, queued := {w});
    acts := [Move(MainMoves)] + [Move(MainMoves)];
    SilentMove(m, MainMoves);
    SilentMove(numbered, MainMoves);
    TwoActs(m, Move(MainMoves), Move(MainMoves));
    assert {w} - {w} == {};
    SilentMove(spawned, Acquire(w));
    ThenAct(m, acts, spawned, Move(Acquire(w)));
    acts, m' := acts + [Move(Acquire(w))], Moved(spawned, Acquire(w));
  }

  /** What a START makes of its tunnel and its engine on the way to its report. */
  function Brought(s: Sys, w: Worker): Sys
    requires w.StartWorker?
  {
    Ready(s, w).(engine := s.engine.(running := Some(FdFor(s, w.dns))), isEngineRunning := true,
                 lock := Held(w, Finishing(RecheckSeq)))
  }

  lemma StartBringsUpEngine(s: Sys, w: Worker)
    requires Newest(s, w) && s.lock.at == Entering(CheckSeq) && !s.engine.isWedged && !Reusable(s, w.dns)
    ensures GoOn(s, 13) == Brought(s, w)
  {
    OldEngineStops(s, w);
    var plan := GoOn(s, 3);
    TunnelIsReplaced(plan, w);
    GoOnAdds(s, 3, 6);
    EngineComesUp(Ready(plan, w), w, FdFor(plan, w.dns));
    GoOnAdds(s, 9, 4);
  }

  /** The engine is up, and its START has yet to report it. */
  predicate UpUnreported(s: Sys, w: Worker) {
    && Newest(s, w) && s.lock.at == Finishing(RecheckSeq) && s.isEngineRunning && !s.engine.isWedged
    && s.main == Idle && s.queued == {}
  }

  lemma HolderBringsUpEngine(m: Meter, w: Worker) returns (acts: seq<Act>, m': Meter)
    requires TunnelInv(m.sys) && Newest(m.sys, w) && m.sys.lock.at == Entering(CheckSeq) && m.sys.main == Idle
    requires m.sys.queued == {} && !m.sys.engine.isWedged && m.sys.tun.tunnel.None?
    ensures MeterLeads(m, acts, m') && Untold(m, m') && UpUnreported(m'.sys, w)
  {
    StartBringsUpEngine(m.sys, w);
    SilentOnTheWay(m, 13);
    acts := MeterGoingOn(m, 13);
    m' := MeterGoOn(m, 13);
  }

  lemma EngineComesUpUnreported(m: Meter, dns: Dns) returns (acts: seq<Act>, m': Meter, w: Worker)
    requires TunnelInv(m.sys) && m.sys.main == StartEmitted(Quick(dns)) && m.sys.queued == {} && m.sys.lock == Free
    requires !m.sys.flags.destroyed && !m.sys.engine.isWedged && m.sys.tun.tunnel.None?
    ensures MeterLeads(m, acts, m') && Untold(m, m') && UpUnreported(m'.sys, w)
  {
    var a, going, w0 := QuickGetsGoing(m, dns);
    w := w0;
    KeptAlong(m, a, going);
    var b, up := HolderBringsUpEngine(going, w);
    MeterJoined(m, a, going, b, up);
    acts, m' := a + b, up;
  }

  lemma ConnectedIsReported(m: Meter, w: Worker) returns (acts: seq<Act>, m': Meter)
    requires UpUnreported(m.sys, w) && m.replies == []
    ensures MeterLeads(m, acts, m') && m'.events == m.events + [S.CommitRestart] && m'.replies == []
    ensures m'.generation == m.generation && m'.reading == m.reading
    ensures m'.sys == m.sys.(last := Connected, lock := Held(w, Finishing(ResolveUp)))
  {
    var holder := Move(HolderMoves(GOOD));
    var alive := Moved(m, HolderMoves(GOOD));
    var announce := Moved(alive, HolderMoves(GOOD));
    SilentMove(m, HolderMoves(GOOD));
    SilentMove(alive, HolderMoves(GOOD));
    TwoActs(m, holder, holder);
    assert announce.sys == m.sys.(lock := Held(w, Finishing(AnnounceUp)));
    ThenAct(m, [holder] + [holder], announce, holder);
    acts := [holder] + [holder] + [holder];
    m' := Moved(announce, HolderMoves(GOOD));
    assert Staled([]) == [];
  }

  // --- a reply -------------------------------------------------------------

  /** A sample is read and fed at once. */
  function Sampled(m: Meter, c: S.Traffic): Meter {
    m.(reading := c, events := m.events + [S.Update(c, m.generation)])
  }

  lemma SampleIsTaken(m: Meter, c: S.Traffic) returns (acts: seq<Act>)
    requires m.sys.isEngineRunning && S.AtMost(m.reading, c) && m.replies == []
    ensures MeterLeads(m, acts, Sampled(m, c))
  {
    acts := [Read(c)] + [Feed(0)];
    TwoActs(m, Read(c), Feed(0));
    assert Do(Do(m, Read(c)), Feed(0)).replies == m.replies;
  }

  /** The session has no sample yet and accepts the next one. */
  predicate Blank(es: seq<S.Event>) {
    S.Run(es) == S.FRESH && S.Accepted(es) == []
  }

  lemma NoneIsBlank()
    ensures Blank([])
  {
  }

  lemma FreezeAndThaw(front: seq<S.Event>)
    ensures var es := front + [S.Suspend] + [S.CommitRestart];
      S.Run(es) == S.Commit(S.Run(front)) && S.Accepted(es) == S.Accepted(front)
  {
    S.OneMore(front, S.Suspend);
    S.OneMore(front + [S.Suspend], S.CommitRestart);
  }

  lemma NothingToBank(st: S.State)
    requires st.lastRaw == S.ZERO && !st.suspended
    ensures S.Commit(st) == st
  {
  }

  lemma ThawedIsBlank(front: seq<S.Event>, es: seq<S.Event>)
    requires Blank(front) && es == front + [S.Suspend] + [S.CommitRestart]
    ensures Blank(es)
  {
    FreezeAndThaw(front);
    NothingToBank(S.Run(front));
  }

  /** What a session makes of two samples of one engine with a terminal state between them. */
  lemma CountedTwice(front: seq<S.Event>, c1: S.Traffic, c2: S.Traffic, g: nat, n: nat, es: seq<S.Event>)
    requires Blank(front) && S.AtMost(c1, c2) && g < n
    requires es == front + [S.Update(c1, g)] + [S.CommitRestart] + [S.Update(c2, g)]
    ensures S.Total(S.Run(es)) == S.Plus(c1, c2) && S.TrueSum(S.Accepted(es), n) == c2
  {
    S.IdleCommitDoubles(front, c1, c2, g);
    S.SumOfTwo(S.Update(c1, g), S.Update(c2, g), n);
    S.LargerIsLater(c1, c2);
  }

  ghost predicate IsDoubled(m: Meter, c1: S.Traffic, c2: S.Traffic) {
    S.Total(S.Run(m.events)) == S.Plus(c1, c2) && S.TrueSum(S.Accepted(m.events), m.generation + 1) == c2
  }

  // --- a command that overlaps another ---------------------------------------

  lemma StartIsAtRest()
    ensures TunnelInv(START.sys)
  {
    InitHolds();
  }

  /** The widget's START has been taken, and then the STOP has reported and gone. */
  lemma StopReportsLate(m: Meter, dns: Dns) returns (acts: seq<Act>, m': Meter)
    requires AboutToReport(m.sys) && m.replies == []
    ensures MeterLeads(m, acts, m') && m'.events == m.events + [S.Suspend] + [S.CommitRestart] && m'.replies == []
    ensures m'.sys.main == StartEmitted(Quick(dns)) && m'.sys.queued == {} && m'.sys.lock == Free
    ensures !m'.sys.flags.destroyed && !m'.sys.engine.isWedged && m'.sys.tun.tunnel.None? && m'.reading == m.reading
  {
    var holder := Move(HolderMoves(GOOD));
    var a, taken := QuickIsTaken(m, dns);
    var reported := Moved(taken, HolderMoves(GOOD));
    assert Staled([]) == [];
    m' := Moved(reported, HolderMoves(GOOD));
    SilentMove(reported, HolderMoves(GOOD));
    TwoActs(taken, holder, holder);
    MeterJoined(m, a, taken, [holder] + [holder], m');
    acts := a + ([holder] + [holder]);
  }

  /** The new engine is up, the session is not frozen, and 'connected' has not been emitted. */
  lemma ThawedTooEarly(dns: Dns) returns (acts: seq<Act>, m: Meter, w: Worker)
    ensures MeterLeads(START, acts, m) && UpUnreported(m.sys, w)
    ensures Blank(m.events) && m.reading == S.ZERO && m.replies == []
  {
    StartIsAtRest();
    var a1, m1 := StopComesToReport(START);
    var a2, m2 := StopReportsLate(m1, dns);
    MeterJoined(START, a1, m1, a2, m2);
    KeptAlong(START, a1 + a2, m2);
    var a3, m3, w0 := EngineComesUpUnreported(m2, dns);
    MeterJoined(START, a1 + a2, m2, a3, m3);
    NoneIsBlank();
    ThawedIsBlank(m1.events, m2.events);
    acts, m, w := a1 + a2 + a3, m3, w0;
  }

  /** The rest of the run: a sample, 'connected', another sample. */
  lemma SampledTooEarly(m: Meter, w: Worker, c1: S.Traffic, c2: S.Traffic) returns (acts: seq<Act>, m': Meter)
    requires UpUnreported(m.sys, w) && Blank(m.events) && m.reading == S.ZERO && m.replies == [] && S.AtMost(c1, c2)
    ensures MeterLeads(m, acts, m') && IsDoubled(m', c1, c2)
  {
    var first := SampleIsTaken(m, c1);
    var report, reported := ConnectedIsReported(Sampled(m, c1), w);
    var second := SampleIsTaken(reported, c2);
    m' := Sampled(reported, c2);
    MeterJoined(m, first, Sampled(m, c1), report, reported);
    MeterJoined(m, first + report, reported, second, m');
    acts := first + report + second;
    CountedTwice(m.events, c1, c2, m.generation, m.generation + 1, m'.events);
  }

  /**
   * A run in which the total is wrong. A widget's START is delivered while a STOP is about to report;
   * its 'disconnected' lifts the freeze that 'connecting' has put on the session, so a sample taken
   * from the new engine before its own 'connected' is counted, and then banked and counted again.
   */
  lemma OverlapDoubles(dns: Dns, c1: S.Traffic, c2: S.Traffic) returns (acts: seq<Act>)
    requires S.AtMost(c1, c2)
    ensures Goes(START, acts) && IsDoubled(Finally(START, acts), c1, c2)
  {
    var before, m, w := ThawedTooEarly(dns);
    var rest, m' := SampledTooEarly(m, w, c1, c2);
    MeterJoined(START, before, m, rest, m');
    acts := before + rest;
  }

  // --- a reply that is late --------------------------------------------------

  /** 'connected' has been emitted, and the START has its completion left to settle. */
  lemma WidgetReports(dns: Dns) returns (acts: seq<Act>, m: Meter, w: Worker)
    ensures MeterLeads(START, acts, m) && Blank(m.events) && m.reading == S.ZERO && m.replies == []
    ensures Newest(m.sys, w) && m.sys.lock.at == Finishing(ResolveUp) && m.sys.isEngineRunning
    ensures m.sys.main == Idle && m.sys.queued == {} && !m.sys.engine.isWedged
  {
    StartIsAtRest();
    var a1, m1 := QuickIsTaken(START, dns);
    KeptAlong(START, a1, m1);
    var a2, m2, w0 := EngineComesUpUnreported(m1, dns);
    var a3, m3 := ConnectedIsReported(m2, w0);
    MeterJoined(START, a1, m1, a2, m2);
    MeterJoined(START, a1 + a2, m2, a3, m3);
    NoneIsBlank();
    ThawedIsBlank(START.events, m3.events);
    acts, m, w := a1 + a2 + a3, m3, w0;
  }

  /** A widget connects a fresh service, and nothing interferes. */
  lemma WidgetConnects(dns: Dns) returns (acts: seq<Act>, m: Meter)
    ensures MeterLeads(START, acts, m) && Blank(m.events) && m.reading == S.ZERO && m.replies == []
    ensures TunnelInv(m.sys) && m.sys.isEngineRunning && m.sys.main == Idle && m.sys.queued == {} && m.sys.lock == Free
    ensures !m.sys.flags.destroyed && !m.sys.engine.isWedged
  {
    var before, reported, w := WidgetReports(dns);
    m := Moved(reported, HolderMoves(GOOD));
    SilentMove(reported, HolderMoves(GOOD));
    ThenAct(START, before, reported, Move(HolderMoves(GOOD)));
    acts := before + [Move(HolderMoves(GOOD))];
    StartIsAtRest();
    KeptAlong(START, acts, m);
  }

  /** A sample is read, the user disconnects, and then the reply arrives. */
  lemma ReplyIsLate(m: Meter, c: S.Traffic) returns (acts: seq<Act>, m': Meter)
    requires TunnelInv(m.sys) && m.sys.isEngineRunning && m.sys.main == Idle && m.sys.queued == {} && m.sys.lock == Free
    requires !m.sys.flags.destroyed && !m.sys.engine.isWedged && m.replies == [] && S.AtMost(m.reading, c)
    ensures MeterLeads(m, acts, m') && m.generation <= m'.generation
    ensures m'.events == m.events + [S.CommitRestart] + [S.Update(c, m.generation)]
  {
    var holder := Move(HolderMoves(GOOD));
    var read := Do(m, Read(c));
    OneAct(m, Read(c));
    var stop, m1 := StopComesToReport(read);
    MeterJoined(m, [Read(c)], read, stop, m1);
    var m2 := Moved(m1, HolderMoves(GOOD));
    ThenAct(m, [Read(c)] + stop, m1, holder);
    ThenAct(m, [Read(c)] + stop + [holder], m2, Feed(0));
    acts, m' := [Read(c)] + stop + [holder] + [Feed(0)], Do(m2, Feed(0));
    KeptAlong(m, acts, m');
  }

  /**
   * A run in which the total is wrong although no two commands overlap: the reply to a call of stats()
   * made before the disconnect is fed after 'disconnected' has banked the engine's last sample.
   */
  lemma LateReplyDoubles(dns: Dns, c1: S.Traffic, c2: S.Traffic) returns (acts: seq<Act>)
    requires S.AtMost(c1, c2)
    ensures Goes(START, acts) && IsDoubled(Finally(START, acts), c1, c2)
  {
    var connect, m := WidgetConnects(dns);
    var first := SampleIsTaken(m, c1);
    var late, m' := ReplyIsLate(Sampled(m, c1), c2);
    MeterJoined(START, connect, m, first, Sampled(m, c1));
    MeterJoined(START, connect + first, Sampled(m, c1), late, m');
    acts := connect + first + late;
    CountedTwice(m.events, c1, c2, m.generation, m'.generation + 1, m'.events);
  }
}
