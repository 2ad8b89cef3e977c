/**
 * Whose success resolves a start. A START takes along the token it finds armed, whoever armed it,
 * so `startXray` can be resolved by a connection somebody else asked for. When exactly that can
 * happen, when it cannot, and two runs in which it does.
 */
module Ownership {
  import opened Options
  import opened StateBus
  import opened Engine
  import opened Protocol
  import opened Tunnel
  import opened Promises
  import opened StateReports
  import opened Undisturbed

  // --- what each start was sent with ---------------------------------------

  predicate SentWith(m: Mail, forToken: Option<nat>, dns: Dns) {
    forToken.Some? ==> forToken.value in m.sent && m.sent[forToken.value] == dns
  }

  predicate IntentFits(m: Mail, i: Intent) {
    i.StartIntent? ==> SentWith(m, i.forToken, i.dns)
  }

  predicate WorkerFits(m: Mail, w: Worker) {
    w.StartWorker? ==> SentWith(m, w.forToken, w.dns)
  }

  /** An intent, a handler or a START on behalf of start `t` has the resolvers `t` was sent with. */
  ghost predicate SentInv(s: Sys) {
    && (forall i :: i in s.mail.intents ==> IntentFits(s.mail, i))
    && (s.main.StartEmitted? || s.main.StartNumbered? ==> IntentFits(s.mail, s.main.intent))
    && (forall w :: w in s.queued ==> WorkerFits(s.mail, w))
    && (s.lock.Held? ==> WorkerFits(s.mail, s.lock.worker))
    && (forall t :: t in s.mail.arming ==> t !in s.mail.sent && t <= s.bus.startTokenSeq)
    && (forall t :: t in s.mail.sent ==> t <= s.bus.startTokenSeq)
  }

  lemma SentBySending(s: Sys, t: nat, dns: Dns)
    requires SentInv(s) && t in s.mail.arming
    ensures SentInv(SendsStart(s, t, dns))
  {
    var s' := SendsStart(s, t, dns);
    assert forall i :: i in s'.mail.intents ==> i in s.mail.intents || i == StartIntent(Some(t), dns, false);
  }

  lemma SentByCallers(s: Sys, e: Step)
    requires SentInv(s) && Enabled(s, e) && (e.ArmStart? || e.SendStartFails? || e.SendQuickStart?)
    ensures SentInv(Apply(s, e))
  {
  }

  lemma SentByMain(s: Sys)
    requires SentInv(s) && s.main != Idle
    ensures SentInv(MainStep(s))
  {
  }

  lemma SentByHolder(s: Sys, c: Choice)
    requires SentInv(s) && BusInv(s.bus) && Enabled(s, HolderMoves(c))
    ensures SentInv(Advance(s, c))
  {
    HolderTouches(s, c);
    HolderKeepsBus(s, c);
  }

  lemma SentByHandlers(s: Sys, e: Step)
    requires SentInv(s) && Enabled(s, e) && (e.Deliver? || e.Acquire? || e.Revoke? || e.Destroy?)
    ensures SentInv(Apply(s, e))
  {
  }

  lemma SentByOthers(s: Sys, e: Step)
    requires SentInv(s) && Enabled(s, e) && !e.HolderMoves? && !e.MainMoves?
    requires !e.ArmStart? && !e.SendStart? && !e.SendStartFails? && !e.SendQuickStart?
    requires !e.Deliver? && !e.Acquire? && !e.Revoke? && !e.Destroy?
    ensures SentInv(Apply(s, e))
  {
  }

  lemma SentStep(s: Sys, e: Step)
    requires SentInv(s) && BusInv(s.bus) && Enabled(s, e)
    ensures SentInv(Apply(s, e))
  {
    if e.SendStart? {
      SentBySending(s, e.token, e.dns);
    } else if e.ArmStart? || e.SendStartFails? || e.SendQuickStart? {
      SentByCallers(s, e);
    } else if e.Deliver? || e.Acquire? || e.Revoke? || e.Destroy? {
      SentByHandlers(s, e);
    } else if e.MainMoves? {
      SentByMain(s);
    } else if e.HolderMoves? {
      SentByHolder(s, e.choice);
    } else {
      SentByOthers(s, e);
    }
  }

  ghost predicate OwnInv(s: Sys) {
    TunnelInv(s) && PromiseInv(s) && SentInv(s)
  }

  lemma OwnStep(s: Sys, e: Step)
    requires OwnInv(s) && Enabled(s, e)
    ensures OwnInv(Apply(s, e))
  {
    StepKeeps(s, e);
    PromiseStep(s, e);
    SentStep(s, e);
  }

  // --- where a START was spawned -------------------------------------------

  lemma {:induction false} StateAtKeeps(s: Sys, es: seq<Step>, k: nat)
    requires OwnInv(s) && Runs(s, es) && k <= |es|
    ensures OwnInv(StateAt(s, es, k))
    ensures k == |es| ==> StateAt(s, es, k) == After(s, es)
    decreases k
  {
    if k > 0 {
      OwnStep(s, es[0]);
      StateAtKeeps(Apply(s, es[0]), es[1..], k - 1);
    }
  }

  predicate Alive(s: Sys, w: Worker) {
    w in s.queued || (s.lock.Held? && s.lock.worker == w)
  }

  predicate AboutToSpawn(s: Sys, w: Worker) {
    s.main.StartNumbered? && s.main.intent.StartIntent? && SpawnedStart(s) == w
  }

  /** Step `k` of the run spawns `w`. */
  predicate SpawnsAt(s: Sys, es: seq<Step>, k: nat, w: Worker)
    requires Runs(s, es)
  {
    k < |es| && es[k] == MainMoves && AboutToSpawn(StateAt(s, es, k), w)
  }

  lemma OnlyMainSpawns(s: Sys, e: Step, w: Worker)
    requires Enabled(s, e) && w.StartWorker? && Alive(Apply(s, e), w)
    ensures Alive(s, w) || (e.MainMoves? && AboutToSpawn(s, w))
  {
    if e.HolderMoves? {
      HolderTouches(s, e.choice);
    }
  }

  lemma {:induction false} SpawnedSomewhere(s: Sys, es: seq<Step>, w: Worker)
    requires Runs(s, es) && w.StartWorker? && Alive(After(s, es), w) && !Alive(s, w)
    ensures exists k: nat :: SpawnsAt(s, es, k, w)
    decreases |es|
  {
    if es != [] {
      var s' := Apply(s, es[0]);
      if Alive(s', w) {
        OnlyMainSpawns(s, es[0], w);
        assert SpawnsAt(s, es, 0, w);
      } else {
        SpawnedSomewhere(s', es[1..], w);
        var k: nat :| SpawnsAt(s', es[1..], k, w);
        assert SpawnsAt(s, es, k + 1, w);
      }
    }
  }

  /** The START about to be spawned comes from another intent than that of start `t`, which is armed. */
  predicate CapturesOver(s: Sys, t: nat) {
    s.main.StartNumbered? && s.main.intent.StartIntent? && s.bus.pendingStart == Some(t) && !Sends(s.main.intent, t)
  }

  lemma CapturesExactly(s: Sys, w: Worker, t: nat)
    requires BusInv(s.bus) && AboutToSpawn(s, w) && w.token == t && t > 0
    ensures s.bus.pendingStart == Some(t) && (w.forToken != Some(t) <==> CapturesOver(s, t))
  {
  }

  /**
   * A START that can resolve start `t` was spawned while `t` was armed; and it was spawned from
   * another intent than t's own exactly when, at that moment, another intent was being handled.
   */
  lemma WhoCaptures(es: seq<Step>, w: Worker, t: nat)
    requires Runs(INIT, es) && Alive(After(INIT, es), w) && w.StartWorker? && w.token == t && t > 0
    ensures exists k: nat ::
      SpawnsAt(INIT, es, k, w) && StateAt(INIT, es, k).bus.pendingStart == Some(t) &&
      (w.forToken != Some(t) <==> CapturesOver(StateAt(INIT, es, k), t))
  {
    InitPromises();
    SpawnedSomewhere(INIT, es, w);
    var k: nat :| SpawnsAt(INIT, es, k, w);
    StateAtKeeps(INIT, es, k);
    CapturesExactly(StateAt(INIT, es, k), w, t);
  }

  // --- what success means --------------------------------------------------

  /** No START has been spawned from another intent while start `t` was armed. */
  predicate NobodyInterfered(s: Sys, es: seq<Step>, t: nat)
    requires Runs(s, es)
  {
    forall k: nat :: k < |es| && es[k] == MainMoves ==> !CapturesOver(StateAt(s, es, k), t)
  }

  /** The step resolves start `t` with success. */
  predicate Succeeds(s: Sys, e: Step, t: nat)
    requires Enabled(s, e)
  {
    Apply(s, e).bus.settledOk[t] != s.bus.settledOk[t]
  }

  lemma WhoSucceeds(s: Sys, e: Step, t: nat)
    requires OwnInv(s) && Enabled(s, e) && Succeeds(s, e, t)
    ensures e.HolderMoves? && s.lock == Held(s.lock.worker, Finishing(ResolveUp)) && t > 0
    ensures s.lock.worker.StartWorker? && s.lock.worker.token == t
    ensures s.isEngineRunning && s.tun.tunnel.Some? && s.engine.running == s.tun.tunnel && !s.engine.isWedged
    ensures s.tun.activeDns == Some(s.lock.worker.dns)
    ensures s.lock.worker.forToken == Some(t) ==> t in s.mail.sent && s.mail.sent[t] == s.lock.worker.dns
  {
    assert StartPlaces(s.bus, 0) == 0;
    if e.HolderMoves? {
      HolderOnBus(s, e.choice);
    }
  }

  /**
   * What it means that `startXray` resolves. Whenever that happens the engine is live on the
   * current tunnel, and the tunnel has the resolvers of the START that resolves it. That START is
   * the caller's own, and the resolvers are those the start was sent with, unless it was spawned
   * from another intent while the start was armed; in particular always when nobody interfered.
   */
  lemma SuccessIsReal(es: seq<Step>, e: Step, t: nat)
    requires Runs(INIT, es) && Enabled(After(INIT, es), e) && Succeeds(After(INIT, es), e, t)
    ensures var s := After(INIT, es);
      && s.lock.Held? && s.lock.worker.StartWorker? && s.isEngineRunning
      && s.tun.tunnel.Some? && s.engine.running == s.tun.tunnel && !s.engine.isWedged
      && s.tun.activeDns == Some(s.lock.worker.dns)
      && (s.lock.worker.forToken == Some(t) ==> t in s.mail.sent && s.tun.activeDns == Some(s.mail.sent[t]))
    ensures var w := After(INIT, es).lock.worker;
      exists k: nat :: SpawnsAt(INIT, es, k, w) && (w.forToken != Some(t) <==> CapturesOver(StateAt(INIT, es, k), t))
    ensures NobodyInterfered(INIT, es, t) ==> After(INIT, es).lock.worker.forToken == Some(t)
  {
    InitPromises();
    StateAtKeeps(INIT, es, |es|);
    var s := After(INIT, es);
    WhoSucceeds(s, e, t);
    WhoCaptures(es, s.lock.worker, t);
    var k: nat :|
      SpawnsAt(INIT, es, k, s.lock.worker) && StateAt(INIT, es, k).bus.pendingStart == Some(t) &&
      (s.lock.worker.forToken != Some(t) <==> CapturesOver(StateAt(INIT, es, k), t));
  }

  // --- runs in which somebody else's connection resolves a start ------------

  /** A widget's intent has been taken by the main thread, over an armed start. */
  function QuickTaken(s: Sys, quick: Intent, mail: Mail): Sys {
    s.(mail := mail, last := Connecting, main := StartEmitted(quick))
  }

  lemma QuickIsDelivered(s: Sys, dns: Dns) returns (es: seq<Step>, mail: Mail)
    requires s.main == Idle
    ensures Leads(s, es, QuickTaken(s, StartIntent(None, dns, true), mail))
    ensures mail.arming == s.mail.arming && mail.sent == s.mail.sent
  {
    var quick := StartIntent(None, dns, true);
    var sent := Apply(s, SendQuickStart(dns));
    assert quick in sent.mail.intents;
    mail := Apply(sent, Deliver(quick)).mail;
    OneStep(s, SendQuickStart(dns));
    OneStep(sent, Deliver(quick));
    Joined(s, [SendQuickStart(dns)], sent, [Deliver(quick)], QuickTaken(s, quick, mail));
    es := [SendQuickStart(dns)] + [Deliver(quick)];
  }

  /** The widget's START gets the lock and runs to its end: it resolves whatever start was armed. */
  lemma QuickStartSucceeds(s: Sys, dns: Dns, t: nat) returns (es: seq<Step>)
    requires s.main == Idle && s.lock == Free && !s.flags.destroyed && !s.engine.isWedged
    requires s.bus.pendingStart == Some(t) && s.bus.pendingStartToken == t
    requires forall w :: w in s.queued ==> SeqOf(w) <= s.flags.commandSeq
    ensures Runs(s, es)
    ensures var s' := After(s, es);
      && s'.bus.settledOk[t] == s.bus.settledOk[t] + 1 && s'.tun.activeDns == Some(dns)
      && s'.queued == s.queued && s'.mail.arming == s.mail.arming && s'.mail.sent == s.mail.sent
  {
    var quick := StartIntent(None, dns, true);
    var w := StartWorker(s.flags.commandSeq + 1, t, None, dns, true);
    var delivered, mail := QuickIsDelivered(s, dns);
    var taken := QuickTaken(s, quick, mail);
    var dispatched := StartGetsLock(taken, quick, w);
    var work := StartAtWork(taken, w);
    StartSucceeds(work, w);
    var worked := GoingOnIsARun(work, Moves(work, dns));
    Joined(s, delivered, taken, dispatched, work);
    Joined(s, delivered + dispatched, work, worked, Started(work, w));
    es := delivered + dispatched + worked;
  }

  /**
   * From every state at rest of a live service: `startXray` has armed its start and not sent it,
   * a widget connects, and the start is resolved over the widget's resolvers.
   */
  lemma ResolvedBeforeSent(s: Sys, quick: Dns) returns (es: seq<Step>)
    requires AtRest(s) && !s.flags.destroyed && !s.engine.isWedged
    ensures Runs(s, es)
    ensures var s', t := After(s, es), s.bus.startTokenSeq + 1;
      && t in s'.mail.arming && s'.bus.settledOk[t] == s.bus.settledOk[t] + 1 && s'.tun.activeDns == Some(quick)
  {
    var t := s.bus.startTokenSeq + 1;
    var armed := Apply(s, ArmStart);
    OneStep(s, ArmStart);
    var rest := QuickStartSucceeds(armed, quick, t);
    Joined(s, [ArmStart], armed, rest, After(armed, rest));
    es := [ArmStart] + rest;
  }

  /**
   * The same when the start's own intent has been delivered: its worker is still waiting for the
   * lock when the widget's START, which captured the same token, has resolved it.
   */
  lemma ResolvedByOvertaking(s: Sys, dns: Dns, quick: Dns) returns (es: seq<Step>)
    requires AtRest(s) && !s.flags.destroyed && !s.engine.isWedged
    ensures Runs(s, es)
    ensures var s', t := After(s, es), s.bus.startTokenSeq + 1;
      && StartWorker(s.flags.commandSeq + 1, t, Some(t), dns, false) in s'.queued
      && s'.bus.settledOk[t] == s.bus.settledOk[t] + 1 && s'.tun.activeDns == Some(quick)
  {
    var t := s.bus.startTokenSeq + 1;
    var i, w := StartIntent(Some(t), dns, false), StartWorker(s.flags.commandSeq + 1, t, Some(t), dns, false);
    var delivered, mail := StartIsDelivered(s, dns);
    var taken := StartTaken(s, i, mail);
    var numbered := Apply(taken, MainMoves);
    var spawned := Apply(numbered, MainMoves);
    OneStep(taken, MainMoves);
    OneStep(numbered, MainMoves);
    Joined(taken, [MainMoves], numbered, [MainMoves], spawned);
    Joined(s, delivered, taken, [MainMoves] + [MainMoves], spawned);
    assert spawned.queued == {w};
    var rest := QuickStartSucceeds(spawned, quick, t);
    Joined(s, delivered + ([MainMoves] + [MainMoves]), spawned, rest, After(spawned, rest));
    es := delivered + ([MainMoves] + [MainMoves]) + rest;
  }
}
