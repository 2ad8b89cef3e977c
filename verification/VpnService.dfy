/**
 * XrayVpnService as the object it is, with its commands as straight-line code.
 *
 * Every access to shared state is a method of its own that first lets the other threads make any
 * steps they can, so a command can be interrupted between any two accesses. Each access is proved to
 * be the step that the protocol makes at that point; a command that has been verified is therefore a
 * run of the protocol, and what is proved of all runs holds of it.
 */
module VpnService {
  import opened Options
  import opened Engine
  import opened Interference
  import opened Promises
  import opened Protocol
  import opened StateBus
  import opened Tunnel

  /** For steps at which the outside has nothing to decide. */
  const NO_CHOICE := Choice(StopCall(At(0), At(0), false, false), StartCall(At(0), 0), true, true)

  /** What the outside decides in the course of one START. */
  datatype Outside =
    Outside(oldStop: StopCall, lastStop: StopCall, start: StartCall, establishes: bool, bypassStarts: bool)

  predicate NothingThrows(o: Outside) {
    !o.oldStop.throws && !o.lastStop.throws
  }

  /** Where the holder stands after its access at `at`, given what it has read there, if it reads. */
  function NextLock(w: Worker, at: Stage, yes: bool): Lock {
    match at
    case Entering(e) => if e.CheckSeq? then Held(w, AfterEntry(w, yes)) else Free
    case Preparing(p) =>
      Held(w, if p.LowerFlag? then Preparing(StopOld) else if yes then Failing(FailKillSwitch) else Preparing(Plan))
    case Replacing(r, previous, fd) => Held(w, AfterReplace(r, previous, fd))
    case Booting(b, fd) => Held(w, AfterBoot(b, fd, yes))
    case Finishing(f) => AfterFinish(w, f, yes)
    case Failing(f) => AfterFail(w, f, yes)
    case Stopping(t, thenReject) =>
      Held(w, if t.StopEngine? then Dropping(DropTunnel, thenReject, None)
              else if t.StopFlag? then Stopping(StopEngine, thenReject) else Stopping(StopFlag, false))
    case Dropping(d, thenReject, pfd) => AfterDrop(w, d, thenReject, pfd)
    case Leaving(l) => if l.AnnounceDown? then Held(w, Leaving(ResolveStopped)) else Free
  }

  /** With a tunnel to reuse the engine is next, else a new one is established. */
  function AfterPlan(previous: Option<Fd>, reusable: Option<Fd>): Stage {
    if reusable.Some? then Booting(CheckAlive, reusable.value) else Preparing(Establish(previous))
  }

  function AfterEstablish(previous: Option<Fd>, pfd: Option<Fd>): Stage {
    if pfd.Some? then Replacing(Install, previous, pfd.value) else Failing(FailKillSwitch)
  }

  function AfterEntry(w: Worker, newest: bool): Stage {
    if newest then if w.StopWorker? then Stopping(PreemptStart, false) else Preparing(LowerFlag)
    else Entering(if w.StopWorker? then ReleaseStale else RejectStale)
  }

  function AfterReplace(r: ReplaceStage, previous: Option<Fd>, fd: Fd): Stage {
    match r
    case Install => Replacing(Unmark, previous, fd)
    case Unmark => Replacing(Publish, previous, fd)
    case Publish => Replacing(ClosePrevious, previous, fd)
    case ClosePrevious => Booting(CheckAlive, fd)
  }

  function AfterBoot(b: BootStage, fd: Fd, yes: bool): Stage {
    match b
    case CheckAlive => if yes then Stopping(StopFlag, true) else Booting(StartBypass, fd)
    case StartBypass => if yes then Booting(Launch, fd) else Failing(FailKillSwitch)
    case Launch => if yes then Booting(RaiseFlag, fd) else Failing(FailKillSwitch)
    case RaiseFlag => Finishing(RecheckSeq)
  }

  function AfterFinish(w: Worker, f: FinishStage, yes: bool): Lock {
    match f
    case RecheckSeq => Held(w, Finishing(if yes then RecheckAlive else LateResolve))
    case RecheckAlive => Held(w, Finishing(if yes then LateResolve else AnnounceUp))
    case LateResolve => Held(w, Finishing(LateAlive))
    case LateAlive => if yes then Held(w, Stopping(StopFlag, false)) else Free
    case AnnounceUp => Held(w, Finishing(ResolveUp))
    case ResolveUp => Free
  }

  function AfterFail(w: Worker, f: FailStage, yes: bool): Lock {
    match f
    case FailKillSwitch => Held(w, Failing(if yes then FailRevoked else AnnounceError))
    case FailRevoked => Held(w, Failing(if yes then AnnounceError else FailAlive))
    case FailAlive => Held(w, Failing(if yes then AnnounceError else HoldFlag))
    case HoldFlag => Held(w, Failing(AnnounceHold))
    case AnnounceHold => Held(w, Failing(ResolveHold))
    case ResolveHold => Free
    case AnnounceError => Held(w, Failing(ResolveError))
    case ResolveError => Held(w, Stopping(StopFlag, false))
  }

  function AfterDrop(w: Worker, d: DropStage, thenReject: bool, pfd: Option<Fd>): Lock {
    match d
    case DropTunnel => Held(w, Dropping(Unpublish, thenReject, pfd))
    case Unpublish => Held(w, Dropping(DropFlag, thenReject, pfd))
    case DropFlag => Held(w, Dropping(ReleaseFd, thenReject, pfd))
    case ReleaseFd =>
      if w.StopWorker? || w.RevokeWorker? then Held(w, Leaving(AnnounceDown))
      else if thenReject && !w.DestroyWorker? then Held(w, Leaving(RejectDestroyed))
      else Free
  }

  predicate WritesFlag(at: Stage, on: bool) {
    match at
    case Preparing(p) => p.LowerFlag? && !on
    case Booting(b, _) => b.RaiseFlag? && on
    case Failing(f) => f.HoldFlag? && !on
    case Stopping(t, _) => t.StopFlag? && !on
    case Dropping(d, _, _) => d.DropFlag? && !on
    case _ => false
  }

  /** The stages at which a holder reads `commandSeq`, and those at which it reads `destroyed`. */
  predicate ReadsSeq(at: Stage) {
    at == Entering(CheckSeq) || at == Finishing(RecheckSeq)
  }

  predicate ReadsDestroyed(at: Stage) {
    match at
    case Booting(b, _) => b.CheckAlive?
    case Finishing(f) => f.RecheckAlive? || f.LateAlive?
    case Failing(f) => f.FailAlive?
    case _ => false
  }

  lemma SeqIsRead(s: Sys, w: Worker, at: Stage)
    requires s.lock == Held(w, at) && ReadsSeq(at)
    ensures Advance(s, NO_CHOICE) == s.(lock := NextLock(w, at, SeqOf(w) == s.flags.commandSeq))
  {
  }

  lemma DestroyedIsRead(s: Sys, w: Worker, at: Stage)
    requires s.lock == Held(w, at) && ReadsDestroyed(at)
    ensures Advance(s, NO_CHOICE) == s.(lock := NextLock(w, at, s.flags.destroyed))
  {
  }

  lemma FlagIsWritten(s: Sys, w: Worker, at: Stage, on: bool)
    requires s.lock == Held(w, at) && WritesFlag(at, on)
    ensures Advance(s, NO_CHOICE) == s.(isEngineRunning := on, lock := NextLock(w, at, false))
  {
  }

  lemma StateIsEmitted(s: Sys, w: Worker, at: Stage)
    requires s.lock == Held(w, at) && Announces(at) != Nothing
    ensures Advance(s, NO_CHOICE) == s.(last := Announces(at), lock := NextLock(w, at, false))
  {
  }

  lemma StartIsSettled(s: Sys, w: Worker, at: Stage, success: bool)
    requires s.lock == Held(w, at) && if success then at == Finishing(ResolveUp) else Rejects(at)
    ensures Advance(s, NO_CHOICE) == s.(bus := Resolve(s.bus, TokenOf(w), success), lock := NextLock(w, at, false))
  {
  }

  lemma RevokeMarkIsCleared(s: Sys, w: Worker, previous: Option<Fd>, pfd: Fd)
    requires s.lock == Held(w, Replacing(Unmark, previous, pfd))
    ensures Advance(s, NO_CHOICE) == ClearMark(s, pfd).(lock := Held(w, Replacing(Publish, previous, pfd)))
  {
  }

  lemma TunnelIsInstalled(s: Sys, w: Worker, previous: Option<Fd>, pfd: Fd)
    requires s.lock == Held(w, Replacing(Install, previous, pfd))
    ensures Advance(s, NO_CHOICE) ==
      s.(tun := s.tun.(activeDns := Some(DnsOf(w)), tunnel := Some(pfd)),
         lock := Held(w, Replacing(Unmark, previous, pfd)))
  {
  }

  lemma TunnelIsClaimed(s: Sys, w: Worker, thenReject: bool)
    requires s.lock == Held(w, Dropping(DropTunnel, thenReject, None))
    ensures Advance(s, NO_CHOICE) ==
      s.(tun := s.tun.(tunnel := None, activeDns := None),
         lock := Held(w, Dropping(Unpublish, thenReject, s.tun.tunnel)))
  {
  }

  /** The tunnel with a descriptor retired: parked, or closed. */
  function Retired(t: Tun, pfd: Option<Fd>, park: bool): Tun {
    if pfd.None? then t
    else if park then t.(parked := t.parked + multiset{pfd.value})
    else t.(closed := t.closed + multiset{pfd.value})
  }

  lemma PreviousIsClosed(s: Sys, w: Worker, previous: Option<Fd>, pfd: Fd)
    requires s.lock == Held(w, Replacing(ClosePrevious, previous, pfd))
    ensures Advance(s, NO_CHOICE) ==
      s.(tun := Retired(s.tun, previous, false), lock := Held(w, Booting(CheckAlive, pfd)))
  {
  }

  /** What the release of a claimed descriptor does to the queue of threads. */
  function QueueAfter(s: Sys, w: Worker): set<Worker> {
    if w.DestroyWorker? then s.queued + {DestroyReport} else s.queued
  }

  lemma ClaimedIsReleased(s: Sys, w: Worker, thenReject: bool, pfd: Option<Fd>)
    requires s.lock == Held(w, Dropping(ReleaseFd, thenReject, pfd)) && w != DestroyReport
    ensures Advance(s, NO_CHOICE) == s.(tun := Retired(s.tun, pfd, s.engine.isWedged), queued := QueueAfter(s, w),
                                        lock := NextLock(w, Dropping(ReleaseFd, thenReject, pfd), false))
  {
    assert ReleaseDescriptor(s, pfd) == s.(tun := Retired(s.tun, pfd, s.engine.isWedged));
  }

  lemma TornDownAtRelease(h: seq<Step>, s: Sys, w: Worker, thenReject: bool, pfd: Option<Fd>)
    requires HasRun(h, s) && s.lock == Held(w, Dropping(ReleaseFd, thenReject, pfd))
    ensures TunnelIsDown(Advance(s, NO_CHOICE)) && w != DestroyReport
  {
    Reached(h);
    ClaimedIsReleased(s, w, thenReject, pfd);
  }

  lemma InterfaceIsEstablished(s: Sys, w: Worker, previous: Option<Fd>, granted: bool, lock: Lock)
    requires s.lock == Held(w, Preparing(Establish(previous)))
    requires lock == Held(w, if granted then Replacing(Install, previous, |s.tun.built|) else Failing(FailKillSwitch))
    ensures Advance(s, NO_CHOICE.(establishes := granted)) ==
      s.(tun := s.tun.(built := if granted then s.tun.built + [DnsOf(w)] else s.tun.built), lock := lock)
  {
  }

  /** If the engine is up, it is live on the current tunnel, which has these resolvers. */
  predicate IsUpOnlyWith(s: Sys, dns: Dns) {
    s.isEngineRunning ==>
      s.tun.tunnel.Some? && s.tun.activeDns == Some(dns) && s.engine.running == s.tun.tunnel && !s.engine.isWedged
  }

  /** What a run guarantees a worker that is about to settle its start, or to report the engine it has brought up. */
  lemma RunGuarantees(h: seq<Step>, s: Sys, w: Worker, at: Stage)
    requires HasRun(h, s) && s.lock == Held(w, at)
    ensures at.Finishing? || at.Failing? ==> IsUpOnlyWith(s, DnsOf(w))
    ensures at.Finishing? ==> s.isEngineRunning
    ensures at.Failing? ==> !s.isEngineRunning && (at.fail.ResolveHold? ==> s.tun.tunnel.Some?)
    ensures forall success :: TokenOf(w) > 0 ==> IsSettled(Resolve(s.bus, TokenOf(w), success), TokenOf(w))
  {
    Reached(h);
  }

  lemma StartIsTaken(s: Sys, i: Intent)
    requires i.StartIntent?
    ensures DeliverIntent(s, i) ==
      s.(mail := s.mail.(intents := s.mail.intents - multiset{i}), last := Connecting, main := StartEmitted(i))
  {
  }

  lemma BusIsKept(h: seq<Step>, s: Sys)
    requires HasRun(h, s)
    ensures BusInv(s.bus)
  {
    Reached(h);
  }

  // What a command has come by on its way, `from` being where the history stood when it began.

  /** Something to be seen of a state: what a command looks at, or leaves behind in passing. */
  datatype Sight =
    | Running(on: bool)           // `isRunning`
    | TunnelThere(on: bool)
    | KillSwitch(on: bool)
    | RevokeMark(on: bool)
    | DestroyMark(on: bool)
    | UpAndAlive                  // the engine is live on the tunnel, the flag says so, the service is not destroyed
    | Last(state: Emitted)
    | RevokeIsNumbered(seqNo: nat) // a revoke has its number, and neither the mark nor the thread is there on its account
    | TeardownQueued              // onDestroy's thread has been spawned
    | TornDown                    // it has left the lock, with tunnel, flags and engine down

  predicate Shows(x: Sight, s: Sys) {
    match x
    case Running(on) => s.tun.isRunning == on
    case TunnelThere(on) => s.tun.tunnel.Some? == on
    case KillSwitch(on) => s.flags.killSwitch == on
    case RevokeMark(on) => s.flags.tunnelRevoked == on
    case DestroyMark(on) => s.flags.destroyed == on
    case UpAndAlive =>
      s.isEngineRunning && s.tun.tunnel.Some? && s.engine.running == s.tun.tunnel && !s.engine.isWedged &&
      !s.flags.destroyed
    case Last(state) => s.last == state
    case RevokeIsNumbered(n) => s.main == RevokeNumbered(n) && s.flags.commandSeq == n
    case TeardownQueued => DestroyWorker in s.queued
    case TornDown => s.lock == Free && DestroyReport in s.queued && TunnelIsDown(s)
  }

  /** `k` steps after the beginning of the history. */
  predicate IsMoment(h: seq<Step>, from: nat, k: nat) {
    from <= k <= |h| && Runs(INIT, h[..k])
  }

  /** There was a moment at which that was to be seen. */
  ghost predicate Was(h: seq<Step>, from: nat, x: Sight) {
    exists k: nat :: IsMoment(h, from, k) && Shows(x, After(INIT, h[..k]))
  }

  /** What has been seen stays so. */
  lemma Remembered(h: seq<Step>, h': seq<Step>, from: nat)
    requires h <= h'
    ensures forall x :: Was(h, from, x) ==> Was(h', from, x)
  {
    forall k: nat | k <= |h| ensures h'[..k] == h[..k] {}
    assert forall k: nat :: IsMoment(h, from, k) ==> IsMoment(h', from, k) && h'[..k] == h[..k];
  }

  /** Later moments are moments since an earlier beginning. */
  lemma Earlier(h: seq<Step>, from: nat, begin: nat)
    requires begin <= from
    ensures forall x :: Was(h, from, x) ==> Was(h, begin, x)
  {
    assert forall k: nat :: IsMoment(h, from, k) ==> IsMoment(h, begin, k);
  }

  lemma Present(h: seq<Step>, s: Sys, from: nat)
    requires HasRun(h, s) && from <= |h|
    ensures forall x :: Shows(x, s) ==> Was(h, from, x)
  {
    assert h[..|h|] == h;
    assert IsMoment(h, from, |h|) && After(INIT, h[..|h|]) == s;
  }

  lemma StepsJoin(before: seq<Step>, steps: seq<Step>, after: seq<Step>)
    requires steps != [] && after == before + [steps[0]] + steps[1..]
    ensures after == before + steps
  {
  }

  class XrayVpnService {
    const engine: XrayEngine
    const bus: XrayStateBus

    var tunnel: Option<Fd>
    var activeDnsServers: Option<Dns>
    var commandSeq: nat
    var destroyed: bool
    var tunnelRevoked: bool
    var parkedDescriptors: multiset<Fd>
    var isRunning: bool
    var isEngineRunning: bool
    var killSwitch: bool

    // What has been emitted, established, closed and revoked.
    var last: Emitted
    var newest: Command
    var built: seq<Dns>
    var closed: multiset<Fd>
    var revoked: set<Fd>
    var forgiven: set<Fd>

    // The callers, and where the other threads stand. The service writes these and never branches on them.
    var mail: Mail
    var main: MainThread
    var queued: set<Worker>
    var engineLock: Lock

    /** All steps made so far, by whichever thread. */
    ghost var history: seq<Step>

    function TunView(): Tun
      reads this
    {
      Tun(tunnel, activeDnsServers, isRunning, built, closed, parkedDescriptors, revoked, forgiven)
    }

    function FlagsView(): Flags
      reads this
    {
      Flags(commandSeq, newest, destroyed, tunnelRevoked, killSwitch)
    }

    function View(): Sys
      reads this, engine, engine.go, bus
    {
      Sys(TunView(), engine.View(), isEngineRunning, FlagsView(), bus.View(), last, mail, main, queued, engineLock)
    }

    /** The state is where the history has led to. `k` keeps the solver from unfolding the run where it need not. */
    ghost predicate Valid()
      reads this, engine, engine.go, bus
    {
      forall k: nat :: k == |history| ==> HasRun(history[..k], View())
    }

    lemma HistoryLeadsHere()
      ensures Valid() <==> HasRun(history, View())
    {
      assert history[..|history|] == history;
    }

    /** Start `t` has been armed and is not pending any more: it never will be again. */
    ghost predicate Settled(t: nat)
      reads bus
    {
      t <= bus.startTokenSeq && bus.pendingStart != Some(t)
    }

    /** Later in the same history, with the lock in this state; settled and destroyed are for good. */
    twostate predicate Came(lock: Lock, t: nat)
      reads this, engine, engine.go, bus
    {
      Valid() && engineLock == lock && old(history) <= history && (old(Settled(t)) ==> Settled(t)) &&
      (old(destroyed) ==> destroyed)
    }

    /** Nothing has happened to the tunnel and the engine, except that a wedged engine may have stopped. */
    twostate predicate TunnelUntouched()
      reads this, engine, engine.go
    {
      && tunnel == old(tunnel) && activeDnsServers == old(activeDnsServers) && isRunning == old(isRunning)
      && closed == old(closed) && parkedDescriptors == old(parkedDescriptors) && built == old(built)
      && isEngineRunning == old(isEngineRunning) && engine.isWedged == old(engine.isWedged)
      && (engine.go.runningServer == old(engine.go.runningServer) ||
          (engine.isWedged && engine.go.runningServer.None?))
    }

    ghost predicate Stands(w: Worker, at: Stage)
      reads this, engine, engine.go, bus
    {
      Valid() && engineLock == Held(w, at)
    }

    /** If the engine is up, it is live on the current tunnel, which has these resolvers. */
    ghost predicate UpOnlyWith(dns: Dns)
      reads this, engine, engine.go
    {
      isEngineRunning ==>
        tunnel.Some? && activeDnsServers == Some(dns) && engine.go.runningServer == tunnel && !engine.isWedged
    }

    ghost predicate AllDown()
      reads this, engine, engine.go
    {
      tunnel.None? && !isRunning && !isEngineRunning && (engine.go.runningServer.None? || engine.isWedged)
    }

    constructor ()
      ensures Valid() && View() == INIT && fresh(engine) && fresh(engine.go) && fresh(bus)
    {
      engine := new XrayEngine();
      bus := new XrayStateBus();
      tunnel, activeDnsServers, commandSeq, destroyed, tunnelRevoked := None, None, 0, false, false;
      parkedDescriptors, isRunning, isEngineRunning, killSwitch := multiset{}, false, false, false;
      last, newest, built, closed, revoked, forgiven := Nothing, NoCommand, [], multiset{}, {}, {};
      mail, main, queued, engineLock := Mail({}, {}, multiset{}, map[], {}), Idle, {}, Free;
      history := [];
    }

    // --- the other threads -------------------------------------------------

    method EngineBecomes(e: EngineState)
      modifies engine, engine.go
      ensures engine.View() == e
    {
      engine.isWedged, engine.go.runningServer, engine.go.lingering := e.isWedged, e.running, e.lingering;
    }

    method BusBecomes(b: Bus)
      modifies bus
      ensures bus.View() == b
    {
      bus.pendingStart, bus.pendingStartToken := b.pendingStart, b.pendingStartToken;
      bus.startTokenSeq := b.startTokenSeq;
      bus.pendingStop, bus.stopsArmed, bus.stopsRun := b.pendingStop, b.stopsArmed, b.stopsRun;
      bus.settledOk, bus.settledFailed := b.settledOk, b.settledFailed;
    }

    method TunnelBecomes(t: Tun)
      modifies `tunnel, `activeDnsServers, `isRunning, `built, `closed, `parkedDescriptors, `revoked, `forgiven
      ensures TunView() == t
    {
      tunnel, activeDnsServers, isRunning := t.tunnel, t.activeDns, t.isRunning;
      built, closed, parkedDescriptors := t.built, t.closed, t.parked;
      revoked, forgiven := t.revoked, t.forgiven;
    }

    method FlagsBecome(f: Flags)
      modifies `commandSeq, `newest, `destroyed, `tunnelRevoked, `killSwitch
      ensures FlagsView() == f
    {
      commandSeq, newest, destroyed, tunnelRevoked, killSwitch :=
        f.commandSeq, f.newest, f.destroyed, f.tunnelRevoked, f.killSwitch;
    }

    method ThreadsBecome(s: Sys)
      modifies `isEngineRunning, `last, `mail, `main, `queued, `engineLock
      ensures isEngineRunning == s.isEngineRunning && last == s.last && mail == s.mail
      ensures main == s.main && queued == s.queued && engineLock == s.lock
    {
      isEngineRunning, last, mail := s.isEngineRunning, s.last, s.mail;
      main, queued, engineLock := s.main, s.queued, s.lock;
    }

    method FieldsBecome(s: Sys)
      modifies this
      ensures TunView() == s.tun && FlagsView() == s.flags
      ensures isEngineRunning == s.isEngineRunning && last == s.last && mail == s.mail
      ensures main == s.main && queued == s.queued && engineLock == s.lock
    {
      ThreadsBecome(s);
      FlagsBecome(s.flags);
      TunnelBecomes(s.tun);
    }

    /** What a step that somebody else makes leaves behind. */
    method Become(s: Sys)
      modifies this, engine, engine.go, bus
      ensures TunView() == s.tun && engine.View() == s.engine && FlagsView() == s.flags && bus.View() == s.bus
      ensures isEngineRunning == s.isEngineRunning && last == s.last && mail == s.mail
      ensures main == s.main && queued == s.queued && engineLock == s.lock
    {
      FieldsBecome(s);
      BusBecomes(s.bus);
      EngineBecomes(s.engine);
    }

    method StepOfOthers(e: Step)
      requires Valid() && Enabled(View(), e)
      modifies this, engine, engine.go, bus
      ensures Valid() && View() == Apply(old(View()), e) && history == old(history) + [e]
    {
      HistoryLeadsHere();
      ghost var s, before := View(), history;
      Become(Apply(View(), e));
      RanOn(before, s, e, View());
      history := before + [e];
      HistoryLeadsHere();
    }

    /** What the others do: any run that the protocol allows them. */
    method Execute(steps: seq<Step>)
      requires Valid() && Runs(View(), steps)
      modifies this, engine, engine.go, bus
      ensures Valid() && View() == After(old(View()), steps) && history == old(history) + steps
      decreases |steps|
    {
      ghost var before := history;
      if steps != [] {
        StepOfOthers(steps[0]);
        Execute(steps[1..]);
        StepsJoin(before, steps, history);
      }
    }

    /** The other threads make any steps they can. */
    method OthersMove(me: Thread, ghost t: nat)
      requires Valid() && Underway(me, View())
      modifies this, engine, engine.go, bus
      ensures Valid() && old(history) <= history && ReliesOn(me, old(View()), View())
      ensures (old(Settled(t)) ==> Settled(t)) && old(bus.startTokenSeq) <= bus.startTokenSeq
      ensures old(destroyed) ==> destroyed
    {
      assert ByOthers(me, View(), []);
      var steps: seq<Step> :| ByOthers(me, View(), steps);
      OthersGoOn(me, View(), steps, t);
      Execute(steps);
    }

    /** The access just made was step `e` of the protocol. */
    ghost method Log(e: Step, s: Sys, t: nat)
      requires HasRun(history, s) && Enabled(s, e) && Apply(s, e) == View()
      modifies `history
      ensures Valid() && history == old(history) + [e] && StaysSettled(s.bus, bus.View(), t)
    {
      RanOn(history, s, e, View());
      StepOnStart(s, e, t);
      history := history + [e];
      HistoryLeadsHere();
    }

    /** Between two points of a history the protocol has made a run: so has every command below. */
    twostate lemma CommandsAreRuns()
      requires old(Valid()) && Valid() && old(history) <= history
      ensures Leads(old(View()), history[|old(history)|..], View())
    {
      assert old(history[..|history|]) == old(history) && history[..|history|] == history;
      RunBetween(old(history), old(View()), history, View());
    }

    // --- one access at a time: the lock holder -------------------------------

    /** `synchronized (engineLock)` lets the worker in. */
    method EnterLock(w: Worker)
      requires Valid() && engineLock == Free && w in queued && w != DestroyReport
      modifies this, engine, engine.go, bus
      ensures Came(Held(w, FirstStage(w)), TokenOf(w)) && TunnelUntouched()
    {
      HistoryLeadsHere();
      ghost var s := View();
      queued := queued - {w};
      engineLock := Held(w, FirstStage(w));
      Log(Acquire(w), s, TokenOf(w));
    }

    /** `mySeq == commandSeq`. */
    method IsNewest(w: Worker, at: Stage) returns (newest: bool)
      requires Stands(w, at) && ReadsSeq(at)
      modifies this, engine, engine.go, bus
      ensures Came(NextLock(w, at, newest), TokenOf(w)) && TunnelUntouched()
      ensures newest == (SeqOf(w) == commandSeq)
    {
      OthersMove(Holder, TokenOf(w));
      HistoryLeadsHere();
      ghost var s := View();
      SeqIsRead(s, w, at);
      newest := SeqOf(w) == commandSeq;
      engineLock := NextLock(w, at, newest);
      Log(HolderMoves(NO_CHOICE), s, TokenOf(w));
    }

    method IsDestroyed(w: Worker, at: Stage) returns (dead: bool)
      requires Stands(w, at) && ReadsDestroyed(at)
      modifies this, engine, engine.go, bus
      ensures Came(NextLock(w, at, dead), TokenOf(w)) && dead == destroyed
      ensures at.Finishing? ==> UpOnlyWith(DnsOf(w)) && isEngineRunning
    {
      OthersMove(Holder, TokenOf(w));
      HistoryLeadsHere();
      ghost var s := View();
      RunGuarantees(history, s, w, at);
      DestroyedIsRead(s, w, at);
      dead := destroyed;
      engineLock := NextLock(w, at, dead);
      Log(HolderMoves(NO_CHOICE), s, TokenOf(w));
    }

    method IsRevoked(w: Worker) returns (gone: bool)
      requires Stands(w, Failing(FailRevoked))
      modifies this, engine, engine.go, bus
      ensures Came(NextLock(w, Failing(FailRevoked), gone), TokenOf(w)) && gone == tunnelRevoked
    {
      OthersMove(Holder, TokenOf(w));
      HistoryLeadsHere();
      ghost var s := View();
      gone := tunnelRevoked;
      engineLock := NextLock(w, Failing(FailRevoked), gone);
      Log(HolderMoves(NO_CHOICE), s, TokenOf(w));
    }

    /** `killSwitch && tunnel.get() != null`. */
    method IsGuarded(w: Worker) returns (held: bool)
      requires Stands(w, Failing(FailKillSwitch))
      modifies this, engine, engine.go, bus
      ensures Came(NextLock(w, Failing(FailKillSwitch), held), TokenOf(w)) && held == (killSwitch && tunnel.Some?)
    {
      OthersMove(Holder, TokenOf(w));
      HistoryLeadsHere();
      ghost var s := View();
      held := killSwitch && tunnel.Some?;
      engineLock := NextLock(w, Failing(FailKillSwitch), held);
      Log(HolderMoves(NO_CHOICE), s, TokenOf(w));
    }

    method SetEngineRunning(w: Worker, at: Stage, on: bool)
      requires Stands(w, at) && WritesFlag(at, on)
      modifies this, engine, engine.go, bus
      ensures Came(NextLock(w, at, false), TokenOf(w))
    {
      OthersMove(Holder, TokenOf(w));
      HistoryLeadsHere();
      ghost var s := View();
      FlagIsWritten(s, w, at, on);
      isEngineRunning := on;
      engineLock := NextLock(w, at, false);
      Log(HolderMoves(NO_CHOICE), s, TokenOf(w));
    }

    method EmitState(w: Worker, at: Stage, state: Emitted)
      requires Stands(w, at) && Announces(at) == state != Nothing
      modifies this, engine, engine.go, bus
      ensures Came(NextLock(w, at, false), TokenOf(w)) && TunnelUntouched() && last == state
    {
      OthersMove(Holder, TokenOf(w));
      HistoryLeadsHere();
      ghost var s := View();
      StateIsEmitted(s, w, at);
      last := state;
      engineLock := NextLock(w, at, false);
      Log(HolderMoves(NO_CHOICE), s, TokenOf(w));
    }

    method ResolveNow(w: Worker, at: Stage, success: bool)
      requires engineLock == Held(w, at) && if success then at == Finishing(ResolveUp) else Rejects(at)
      modifies `engineLock, bus
      ensures View() == Advance(old(View()), NO_CHOICE)
      ensures engineLock == NextLock(w, at, false) && TunnelUntouched()
      ensures bus.View() == Resolve(old(bus.View()), TokenOf(w), success)
      ensures IsUpOnlyWith(old(View()), DnsOf(w)) ==> UpOnlyWith(DnsOf(w))
    {
      StartIsSettled(View(), w, at, success);
      bus.ResolveStart(TokenOf(w), success);
      engineLock := NextLock(w, at, false);
    }

    /** The start that the worker has taken along is settled for good, by this call or before it. */
    method ResolveStart(w: Worker, at: Stage, success: bool)
      requires Stands(w, at) && if success then at == Finishing(ResolveUp) else Rejects(at)
      modifies this, engine, engine.go, bus
      ensures Came(NextLock(w, at, false), TokenOf(w)) && TunnelUntouched()
      ensures TokenOf(w) > 0 ==> Settled(TokenOf(w))
      ensures at.Finishing? || at.Failing? ==> UpOnlyWith(DnsOf(w))
      ensures at.Failing? ==> !isEngineRunning && (at.fail.ResolveHold? ==> tunnel.Some?)
    {
      OthersMove(Holder, TokenOf(w));
      HistoryLeadsHere();
      ghost var s := View();
      RunGuarantees(history, s, w, at);
      ResolveNow(w, at, success);
      Log(HolderMoves(NO_CHOICE), s, TokenOf(w));
    }

    method ResolveStopOf(w: Worker, at: Stage)
      requires Stands(w, at) && ReleasesStop(at)
      modifies this, engine, engine.go, bus
      ensures Came(Free, TokenOf(w)) && TunnelUntouched()
      ensures bus.pendingStop == None
    {
      OthersMove(Holder, TokenOf(w));
      HistoryLeadsHere();
      ghost var s := View();
      bus.ResolvePendingStop();
      engineLock := Free;
      Log(HolderMoves(NO_CHOICE), s, TokenOf(w));
    }

    method StopBounded(w: Worker, at: Stage, call: StopCall) returns (code: int)
      requires Stands(w, at) && !call.throws
      requires at == Preparing(StopOld) || (at.Stopping? && at.stop.StopEngine?)
      modifies this, engine, engine.go, bus
      ensures Came(NextLock(w, at, code == ERR_WEDGED), TokenOf(w))
    {
      OthersMove(Holder, TokenOf(w));
      HistoryLeadsHere();
      ghost var s := View();
      code := engine.StopBounded(ENGINE_STOP_TIMEOUT_MS, call);
      engineLock := NextLock(w, at, code == ERR_WEDGED);
      Log(HolderMoves(NO_CHOICE.(stop := call)), s, TokenOf(w));
    }

    method FindNow(w: Worker) returns (previous: Option<Fd>, reusable: Option<Fd>)
      requires engineLock == Held(w, Preparing(Plan))
      modifies `engineLock
      ensures View() == Advance(old(View()), NO_CHOICE)
      ensures engineLock == Held(w, AfterPlan(previous, reusable))
    {
      previous := tunnel;
      reusable := if tunnelRevoked || activeDnsServers != Some(DnsOf(w)) then None else previous;
      engineLock := Held(w, AfterPlan(previous, reusable));
    }

    /** Reads the tunnel that a new one would replace, and whether this START can go on with it instead. */
    method FindTunnel(w: Worker) returns (previous: Option<Fd>, reusable: Option<Fd>)
      requires Stands(w, Preparing(Plan))
      modifies this, engine, engine.go, bus
      ensures Came(Held(w, AfterPlan(previous, reusable)), TokenOf(w))
    {
      OthersMove(Holder, TokenOf(w));
      HistoryLeadsHere();
      ghost var s := View();
      previous, reusable := FindNow(w);
      Log(HolderMoves(NO_CHOICE), s, TokenOf(w));
    }

    method EstablishNow(w: Worker, previous: Option<Fd>, granted: bool) returns (pfd: Option<Fd>)
      requires engineLock == Held(w, Preparing(Establish(previous)))
      modifies `built, `engineLock
      ensures View() == Advance(old(View()), NO_CHOICE.(establishes := granted))
      ensures engineLock == Held(w, AfterEstablish(previous, pfd))
    {
      pfd := if granted then Some(|built|) else None;
      engineLock := Held(w, if granted then Replacing(Install, previous, |built|) else Failing(FailKillSwitch));
      InterfaceIsEstablished(old(View()), w, previous, granted, engineLock);
      built := if granted then built + [DnsOf(w)] else built;
    }

    method EstablishInterface(w: Worker, previous: Option<Fd>, granted: bool) returns (pfd: Option<Fd>)
      requires Stands(w, Preparing(Establish(previous)))
      modifies this, engine, engine.go, bus
      ensures Came(Held(w, AfterEstablish(previous, pfd)), TokenOf(w))
    {
      OthersMove(Holder, TokenOf(w));
      HistoryLeadsHere();
      ghost var s := View();
      pfd := EstablishNow(w, previous, granted);
      Log(HolderMoves(NO_CHOICE.(establishes := granted)), s, TokenOf(w));
    }

    method SetTunnel(pfd: Option<Fd>, dnsServers: Option<Dns>)
      modifies `tunnel, `activeDnsServers
      ensures TunView() == old(TunView()).(tunnel := pfd, activeDns := dnsServers)
    {
      activeDnsServers := dnsServers;
      tunnel := pfd;
    }

    method Retire(pfd: Option<Fd>, park: bool)
      modifies `closed, `parkedDescriptors
      ensures TunView() == Retired(old(TunView()), pfd, park)
    {
      if pfd.Some? {
        if park {
          parkedDescriptors := parkedDescriptors + multiset{pfd.value};
        } else {
          closed := closed + multiset{pfd.value};
        }
      }
    }

    /** Model only: a mark cleared on behalf of a tunnel that has been revoked already is forgiven. */
    method Forgive(forgivenNow: set<Fd>)
      modifies `forgiven
      ensures TunView() == old(TunView()).(forgiven := forgivenNow)
    {
      forgiven := forgivenNow;
    }

    method InstallTunnel(w: Worker, previous: Option<Fd>, pfd: Fd)
      requires Stands(w, Replacing(Install, previous, pfd))
      modifies this, engine, engine.go, bus
      ensures Came(Held(w, Replacing(Unmark, previous, pfd)), TokenOf(w))
    {
      OthersMove(Holder, TokenOf(w));
      HistoryLeadsHere();
      ghost var s := View();
      TunnelIsInstalled(s, w, previous, pfd);
      SetTunnel(Some(pfd), Some(DnsOf(w)));
      engineLock := Held(w, Replacing(Unmark, previous, pfd));
      Log(HolderMoves(NO_CHOICE), s, TokenOf(w));
    }

    method ClearRevokedNow(w: Worker, previous: Option<Fd>, pfd: Fd)
      requires engineLock == Held(w, Replacing(Unmark, previous, pfd))
      modifies `forgiven, `tunnelRevoked, `engineLock
      ensures View() == Advance(old(View()), NO_CHOICE) && engineLock == Held(w, Replacing(Publish, previous, pfd))
    {
      RevokeMarkIsCleared(View(), w, previous, pfd);
      Forgive(ClearMark(View(), pfd).tun.forgiven);
      tunnelRevoked := false;
      engineLock := Held(w, Replacing(Publish, previous, pfd));
    }

    method ClearRevoked(w: Worker, previous: Option<Fd>, pfd: Fd)
      requires Stands(w, Replacing(Unmark, previous, pfd))
      modifies this, engine, engine.go, bus
      ensures Came(Held(w, Replacing(Publish, previous, pfd)), TokenOf(w))
    {
      OthersMove(Holder, TokenOf(w));
      HistoryLeadsHere();
      ghost var s := View();
      ClearRevokedNow(w, previous, pfd);
      Log(HolderMoves(NO_CHOICE), s, TokenOf(w));
    }

    method SetRunning(w: Worker, at: Stage, on: bool)
      requires Stands(w, at)
      requires if on then at.Replacing? && at.replace.Publish? else at.Dropping? && at.drop.Unpublish?
      modifies this, engine, engine.go, bus
      ensures Came(NextLock(w, at, false), TokenOf(w))
    {
      OthersMove(Holder, TokenOf(w));
      HistoryLeadsHere();
      ghost var s := View();
      isRunning := on;
      engineLock := NextLock(w, at, false);
      Log(HolderMoves(NO_CHOICE), s, TokenOf(w));
    }

    method CloseNow(w: Worker, previous: Option<Fd>, pfd: Fd)
      requires engineLock == Held(w, Replacing(ClosePrevious, previous, pfd))
      modifies `closed, `parkedDescriptors, `engineLock
      ensures View() == Advance(old(View()), NO_CHOICE) && engineLock == Held(w, Booting(CheckAlive, pfd))
    {
      PreviousIsClosed(View(), w, previous, pfd);
      engineLock := Held(w, Booting(CheckAlive, pfd));
      Retire(previous, false);
    }

    method ClosePreviousTunnel(w: Worker, previous: Option<Fd>, pfd: Fd)
      requires Stands(w, Replacing(ClosePrevious, previous, pfd))
      modifies this, engine, engine.go, bus
      ensures Came(Held(w, Booting(CheckAlive, pfd)), TokenOf(w))
    {
      OthersMove(Holder, TokenOf(w));
      HistoryLeadsHere();
      ghost var s := View();
      CloseNow(w, previous, pfd);
      Log(HolderMoves(NO_CHOICE), s, TokenOf(w));
    }

    /** Only a start from the store brings the bypass up itself. */
    method BringUpBypass(w: Worker, pfd: Fd, starts: bool) returns (ok: bool)
      requires Stands(w, Booting(StartBypass, pfd)) && w.StartWorker?
      modifies this, engine, engine.go, bus
      ensures Came(NextLock(w, Booting(StartBypass, pfd), ok), TokenOf(w))
    {
      OthersMove(Holder, TokenOf(w));
      HistoryLeadsHere();
      ghost var s := View();
      ok := !w.fromStore || starts;
      engineLock := NextLock(w, Booting(StartBypass, pfd), ok);
      Log(HolderMoves(NO_CHOICE.(bypassStarts := starts)), s, TokenOf(w));
    }

    method BringUpEngine(w: Worker, pfd: Fd, call: StartCall) returns (code: int)
      requires Stands(w, Booting(Launch, pfd))
      modifies this, engine, engine.go, bus
      ensures Came(NextLock(w, Booting(Launch, pfd), code == 0), TokenOf(w))
    {
      OthersMove(Holder, TokenOf(w));
      HistoryLeadsHere();
      ghost var s := View();
      code := engine.Start(pfd, call);
      engineLock := NextLock(w, Booting(Launch, pfd), code == 0);
      Log(HolderMoves(NO_CHOICE.(start := call)), s, TokenOf(w));
    }

    method ClaimNow(w: Worker, thenReject: bool) returns (pfd: Option<Fd>)
      requires engineLock == Held(w, Dropping(DropTunnel, thenReject, None))
      modifies `tunnel, `activeDnsServers, `engineLock
      ensures View() == Advance(old(View()), NO_CHOICE) && engineLock == Held(w, Dropping(Unpublish, thenReject, pfd))
    {
      TunnelIsClaimed(View(), w, thenReject);
      pfd := tunnel;
      engineLock := Held(w, Dropping(Unpublish, thenReject, pfd));
      SetTunnel(None, None);
    }

    /** `tunnel.getAndSet(null)`. */
    method ClaimTunnel(w: Worker, thenReject: bool) returns (pfd: Option<Fd>)
      requires Stands(w, Dropping(DropTunnel, thenReject, None))
      modifies this, engine, engine.go, bus
      ensures Came(Held(w, Dropping(Unpublish, thenReject, pfd)), TokenOf(w))
    {
      OthersMove(Holder, TokenOf(w));
      HistoryLeadsHere();
      ghost var s := View();
      pfd := ClaimNow(w, thenReject);
      Log(HolderMoves(NO_CHOICE), s, TokenOf(w));
    }

    method ReleaseNow(w: Worker, thenReject: bool, pfd: Option<Fd>)
      requires engineLock == Held(w, Dropping(ReleaseFd, thenReject, pfd)) && w != DestroyReport
      modifies `closed, `parkedDescriptors, `queued, `engineLock
      ensures View() == Advance(old(View()), NO_CHOICE)
      ensures engineLock == NextLock(w, Dropping(ReleaseFd, thenReject, pfd), false)
      ensures w.DestroyWorker? ==> DestroyReport in queued
    {
      ClaimedIsReleased(View(), w, thenReject, pfd);
      queued := QueueAfter(View(), w);
      engineLock := NextLock(w, Dropping(ReleaseFd, thenReject, pfd), false);
      Retire(pfd, engine.isWedged);
    }

    /** Parked when the engine may still be on it, else closed; onDestroy's thread leaves the lock here. */
    method ReleaseClaimed(w: Worker, thenReject: bool, pfd: Option<Fd>)
      requires Stands(w, Dropping(ReleaseFd, thenReject, pfd))
      modifies this, engine, engine.go, bus
      ensures Came(NextLock(w, Dropping(ReleaseFd, thenReject, pfd), false), TokenOf(w))
      ensures AllDown() && (w.DestroyWorker? ==> DestroyReport in queued)
    {
      OthersMove(Holder, TokenOf(w));
      HistoryLeadsHere();
      ghost var s := View();
      TornDownAtRelease(history, s, w, thenReject, pfd);
      ReleaseNow(w, thenReject, pfd);
      Log(HolderMoves(NO_CHOICE), s, TokenOf(w));
    }

    // --- the commands, as they are written ---------------------------------

    /** The engine first, with a deadline, and the tunnel after it. */
    method Teardown(w: Worker, thenReject: bool, call: StopCall)
      requires Stands(w, Stopping(StopFlag, thenReject)) && !call.throws
      modifies this, engine, engine.go, bus
      ensures Came(AfterDrop(w, ReleaseFd, thenReject, None), TokenOf(w))
      ensures AllDown() && (w.DestroyWorker? ==> DestroyReport in queued)
    {
      SetEngineRunning(w, Stopping(StopFlag, thenReject), false);
      var _ := StopBounded(w, Stopping(StopEngine, thenReject), call);
      var pfd := ClaimTunnel(w, thenReject);
      SetRunning(w, Dropping(Unpublish, thenReject, pfd), false);
      SetEngineRunning(w, Dropping(DropFlag, thenReject, pfd), false);
      ReleaseClaimed(w, thenReject, pfd);
    }

    lemma Seen(from: nat)
      requires Valid() && from <= |history|
      ensures forall x :: Shows(x, View()) ==> Was(history, from, x)
    {
      HistoryLeadsHere();
      Present(history, View(), from);
    }

    /** Emitted, and seen. */
    method Report(w: Worker, at: Stage, state: Emitted)
      requires Stands(w, at) && Announces(at) == state != Nothing
      modifies this, engine, engine.go, bus
      ensures Came(NextLock(w, at, false), TokenOf(w)) && TunnelUntouched()
      ensures Was(history, |old(history)|, Last(state))
    {
      ghost var from := |history|;
      EmitState(w, at, state);
      Seen(from);
    }

    /** The kill switch's hold: the tunnel stays, with no engine behind it. */
    method HoldTunnel(w: Worker)
      requires Stands(w, Failing(HoldFlag))
      modifies this, engine, engine.go, bus
      ensures Came(Free, TokenOf(w)) && !isEngineRunning && tunnel.Some? && (TokenOf(w) > 0 ==> Settled(TokenOf(w)))
      ensures Was(history, |old(history)|, Last(Blocked))
    {
      ghost var from := |history|;
      SetEngineRunning(w, Failing(HoldFlag), false);
      ghost var begin := |history|;
      Report(w, Failing(AnnounceHold), Blocked);
      Earlier(history, begin, from);
      ghost var told := history;
      ResolveStart(w, Failing(ResolveHold), false);
      Remembered(told, history, from);
    }

    method GiveUp(w: Worker, call: StopCall)
      requires Stands(w, Failing(AnnounceError)) && w.StartWorker? && !call.throws
      modifies this, engine, engine.go, bus
      ensures Came(Free, TokenOf(w)) && AllDown() && (TokenOf(w) > 0 ==> Settled(TokenOf(w)))
      ensures Was(history, |old(history)|, Last(Failed))
    {
      ghost var from := |history|;
      Report(w, Failing(AnnounceError), Failed);
      ghost var told := history;
      ResolveStart(w, Failing(ResolveError), false);
      Teardown(w, false, call);
      Remembered(told, history, from);
    }

    /** What a failed START has seen that may hold the tunnel. */
    ghost predicate SawReasonToHold(from: nat)
      reads this
    {
      && Was(history, from, KillSwitch(true)) && Was(history, from, TunnelThere(true))
      && Was(history, from, RevokeMark(false)) && Was(history, from, DestroyMark(false))
    }

    /** What it has seen otherwise. */
    ghost predicate SawReasonToGiveUp(from: nat)
      reads this
    {
      || Was(history, from, KillSwitch(false)) || Was(history, from, TunnelThere(false))
      || Was(history, from, RevokeMark(true)) || Was(history, from, DestroyMark(true))
    }

    /** `killSwitch && tunnel.get() != null && !tunnelRevoked && !destroyed`. */
    method MayHold(w: Worker) returns (hold: bool)
      requires Stands(w, Failing(FailKillSwitch))
      modifies this, engine, engine.go, bus
      ensures Came(Held(w, Failing(if hold then HoldFlag else AnnounceError)), TokenOf(w))
      ensures if hold then SawReasonToHold(|old(history)|) else SawReasonToGiveUp(|old(history)|)
      ensures old(destroyed) ==> !hold
    {
      ghost var from := |history|;
      hold := IsGuarded(w);
      Seen(from);
      if hold {
        ghost var guarded := history;
        var gone := IsRevoked(w);
        hold := !gone;
        Seen(from);
        Remembered(guarded, history, from);
      }
      if hold {
        ghost var unmarked := history;
        var dead := IsDestroyed(w, Failing(FailAlive));
        hold := !dead;
        Seen(from);
        Remembered(unmarked, history, from);
      }
    }

    /**
     * Hold the tunnel, if the kill switch was seen on with a tunnel, no mark and no destroy, one after
     * another; else, something having been seen that speaks against it, report the error and give it up.
     */
    method HandleStartFailure(w: Worker, call: StopCall)
      requires Stands(w, Failing(FailKillSwitch)) && w.StartWorker? && !call.throws
      modifies this, engine, engine.go, bus
      ensures Came(Free, TokenOf(w)) && !isEngineRunning && (TokenOf(w) > 0 ==> Settled(TokenOf(w)))
      ensures if tunnel.Some? then SawReasonToHold(|old(history)|) && Was(history, |old(history)|, Last(Blocked))
              else AllDown() && SawReasonToGiveUp(|old(history)|) && Was(history, |old(history)|, Last(Failed))
      ensures old(destroyed) ==> tunnel.None?
    {
      ghost var from := |history|;
      var hold := MayHold(w);
      ghost var looked := history;
      if hold {
        HoldTunnel(w);
      } else {
        GiveUp(w, call);
      }
      Remembered(looked, history, from);
      Earlier(history, |looked|, from);
    }

    /** The new interface is published before the caller closes the one it replaces. */
    method SetupVpn(w: Worker, previous: Option<Fd>, granted: bool) returns (pfd: Option<Fd>)
      requires Stands(w, Preparing(Establish(previous)))
      modifies this, engine, engine.go, bus
      ensures Came(Held(w, if pfd.Some? then Replacing(ClosePrevious, previous, pfd.value)
                           else Failing(FailKillSwitch)), TokenOf(w))
    {
      pfd := EstablishInterface(w, previous, granted);
      if pfd.None? {
        return;
      }
      InstallTunnel(w, previous, pfd.value);
      ClearRevoked(w, previous, pfd.value);
      SetRunning(w, Replacing(Publish, previous, pfd.value), true);
    }

    /** A tunnel with the right resolvers: the one there is, or a new one. */
    method TunnelFor(w: Worker, granted: bool) returns (pfd: Option<Fd>)
      requires Stands(w, Preparing(Plan))
      modifies this, engine, engine.go, bus
      ensures Came(Held(w, if pfd.Some? then Booting(CheckAlive, pfd.value) else Failing(FailKillSwitch)), TokenOf(w))
    {
      var previous, reusable := FindTunnel(w);
      if reusable.Some? {
        return reusable;
      }
      pfd := SetupVpn(w, previous, granted);
      if pfd.Some? {
        ClosePreviousTunnel(w, previous, pfd.value);
      }
    }

    /** The service is gone, so the tunnel goes too. */
    method DropAndReject(w: Worker, call: StopCall)
      requires Stands(w, Stopping(StopFlag, true)) && w.StartWorker? && !call.throws
      modifies this, engine, engine.go, bus
      ensures Came(Free, TokenOf(w)) && AllDown() && (TokenOf(w) > 0 ==> Settled(TokenOf(w)))
    {
      Teardown(w, true, call);
      ResolveStart(w, Leaving(RejectDestroyed), false);
    }

    /** From the tunnel to a live engine. */
    method BringUp(w: Worker, pfd: Fd, o: Outside) returns (up: bool)
      requires Stands(w, Booting(StartBypass, pfd)) && w.StartWorker?
      modifies this, engine, engine.go, bus
      ensures Came(Held(w, if up then Finishing(RecheckSeq) else Failing(FailKillSwitch)), TokenOf(w))
    {
      up := BringUpBypass(w, pfd, o.bypassStarts);
      if !up {
        return;
      }
      var code := BringUpEngine(w, pfd, o.start);
      up := code == 0;
      if up {
        SetEngineRunning(w, Booting(RaiseFlag, pfd), true);
      }
    }

    method GiveWay(w: Worker, call: StopCall)
      requires Stands(w, Finishing(LateResolve)) && w.StartWorker? && !call.throws
      modifies this, engine, engine.go, bus
      ensures Came(Free, TokenOf(w)) && UpOnlyWith(DnsOf(w)) && (TokenOf(w) > 0 ==> Settled(TokenOf(w)))
      ensures old(destroyed) ==> AllDown()
    {
      ResolveStart(w, Finishing(LateResolve), false);
      var dead := IsDestroyed(w, Finishing(LateAlive));
      if dead {
        Teardown(w, false, call);
      }
    }

    method ReportUp(w: Worker)
      requires Stands(w, Finishing(AnnounceUp)) && w.StartWorker?
      modifies this, engine, engine.go, bus
      ensures Came(Free, TokenOf(w)) && UpOnlyWith(DnsOf(w)) && (TokenOf(w) > 0 ==> Settled(TokenOf(w)))
      ensures Was(history, |old(history)|, Last(Connected))
    {
      ghost var from := |history|;
      Report(w, Finishing(AnnounceUp), Connected);
      ghost var told := history;
      ResolveStart(w, Finishing(ResolveUp), true);
      Remembered(told, history, from);
    }

    /** `mySeq != commandSeq || destroyed`. */
    method MustGiveWay(w: Worker) returns (superseded: bool)
      requires Stands(w, Finishing(RecheckSeq)) && w.StartWorker?
      modifies this, engine, engine.go, bus
      ensures Came(Held(w, Finishing(if superseded then LateResolve else AnnounceUp)), TokenOf(w))
      ensures superseded || (Was(history, |old(history)|, UpAndAlive) && !old(destroyed))
    {
      ghost var from := |history|;
      var newest := IsNewest(w, Finishing(RecheckSeq));
      superseded := !newest;
      if newest {
        superseded := IsDestroyed(w, Finishing(RecheckAlive));
        Seen(from);
      }
    }

    /** Second look for newer commands and a destroy, then the report. */
    method FinishStart(w: Worker, call: StopCall) returns (connected: bool)
      requires Stands(w, Finishing(RecheckSeq)) && w.StartWorker? && !call.throws
      modifies this, engine, engine.go, bus
      ensures Came(Free, TokenOf(w)) && UpOnlyWith(DnsOf(w)) && (TokenOf(w) > 0 ==> Settled(TokenOf(w)))
      ensures connected ==> Was(history, |old(history)|, UpAndAlive) && Was(history, |old(history)|, Last(Connected))
      ensures old(destroyed) ==> !connected && AllDown()
    {
      ghost var from := |history|;
      var superseded := MustGiveWay(w);
      connected := !superseded;
      if superseded {
        GiveWay(w, call);
        return;
      }
      ghost var looked := history;
      ReportUp(w);
      Remembered(looked, history, from);
      Earlier(history, |looked|, from);
    }

    /** The old engine stopped, and a tunnel to start the new one on. */
    method PrepareTunnel(w: Worker, o: Outside) returns (pfd: Option<Fd>)
      requires Stands(w, Preparing(LowerFlag)) && w.StartWorker? && NothingThrows(o)
      modifies this, engine, engine.go, bus
      ensures Came(Held(w, if pfd.Some? then Booting(CheckAlive, pfd.value) else Failing(FailKillSwitch)), TokenOf(w))
    {
      pfd := None;
      SetEngineRunning(w, Preparing(LowerFlag), false);
      var code := StopBounded(w, Preparing(StopOld), o.oldStop);
      if code != ERR_WEDGED {
        pfd := TunnelFor(w, o.establishes);
      }
    }

    /**
     * runStart. However the other threads interfere, the start that the worker has taken along is
     * settled when it returns, and an engine that is up then is live on a tunnel with its resolvers.
     * It has reported 'connected' only if it saw the service alive with its engine up; on a service
     * that was destroyed before, it leaves everything down.
     */
    method RunStart(w: Worker, o: Outside) returns (connected: bool)
      requires Stands(w, Preparing(LowerFlag)) && w.StartWorker? && NothingThrows(o)
      modifies this, engine, engine.go, bus
      ensures Came(Free, TokenOf(w)) && UpOnlyWith(DnsOf(w)) && (TokenOf(w) > 0 ==> Settled(TokenOf(w)))
      ensures connected ==> Was(history, |old(history)|, UpAndAlive) && Was(history, |old(history)|, Last(Connected))
      ensures old(destroyed) ==> !connected && AllDown()
    {
      ghost var from := |history|;
      connected := false;
      var pfd := PrepareTunnel(w, o);
      if pfd.None? {
        HandleStartFailure(w, o.lastStop);
        return;
      }
      var dead := IsDestroyed(w, Booting(CheckAlive, pfd.value));
      if dead {
        DropAndReject(w, o.lastStop);
        return;
      }
      var up := BringUp(w, pfd.value, o);
      if up {
        ghost var begin := |history|;
        connected := FinishStart(w, o.lastStop);
        Earlier(history, begin, from);
      } else {
        HandleStartFailure(w, o.lastStop);
      }
    }

    // --- the threads -------------------------------------------------------

    /**
     * The thread that onStartCommand starts for a START. A stale one touches nothing but its start;
     * in any case the start it took along is settled when it is done.
     */
    method StartThread(w: Worker, o: Outside) returns (superseded: bool)
      requires Valid() && engineLock == Free && w in queued && w.StartWorker? && NothingThrows(o)
      modifies this, engine, engine.go, bus
      ensures Came(Free, TokenOf(w)) && (w.token > 0 ==> Settled(w.token))
      ensures if superseded then TunnelUntouched() else UpOnlyWith(w.dns)
    {
      EnterLock(w);
      var newest := IsNewest(w, Entering(CheckSeq));
      superseded := !newest;
      if superseded {
        ResolveStart(w, Entering(RejectStale), false);
      } else {
        var _ := RunStart(w, o);
      }
    }

    method ReportDown(w: Worker)
      requires Stands(w, Leaving(AnnounceDown)) && AllDown()
      modifies this, engine, engine.go, bus
      ensures Came(Free, TokenOf(w)) && bus.pendingStop == None && AllDown()
    {
      EmitState(w, Leaving(AnnounceDown), Disconnected);
      ResolveStopOf(w, Leaving(ResolveStopped));
    }

    /** The thread of a STOP. A stale one touches nothing; any other leaves everything down. */
    method StopThread(w: Worker, call: StopCall) returns (superseded: bool)
      requires Valid() && engineLock == Free && w in queued && w.StopWorker? && !call.throws
      modifies this, engine, engine.go, bus
      ensures Came(Free, TokenOf(w)) && bus.pendingStop == None
      ensures if superseded then TunnelUntouched() else AllDown() && (w.token > 0 ==> Settled(w.token))
    {
      EnterLock(w);
      var newest := IsNewest(w, Entering(CheckSeq));
      superseded := !newest;
      if superseded {
        ResolveStopOf(w, Entering(ReleaseStale));
        return;
      }
      ResolveStart(w, Stopping(PreemptStart, false), false);
      Teardown(w, false, call);
      ReportDown(w);
    }

    /** onRevoke's thread: never superseded. */
    method RevokeThread(w: Worker, call: StopCall)
      requires Valid() && engineLock == Free && w in queued && w.RevokeWorker? && !call.throws
      modifies this, engine, engine.go, bus
      ensures Came(Free, 0) && bus.pendingStop == None && AllDown()
    {
      EnterLock(w);
      Teardown(w, false, call);
      ReportDown(w);
    }

    /** onDestroy's thread: the stop completion is run when the lock has been left and may be somebody else's. */
    method DestroyThread(w: Worker, call: StopCall)
      requires Valid() && engineLock == Free && w in queued && w.DestroyWorker? && !call.throws
      modifies this, engine, engine.go, bus
      ensures Valid() && old(history) <= history && bus.pendingStop == None
      ensures Was(history, |old(history)|, TornDown)
    {
      ghost var from := |history|;
      EnterLock(w);
      Teardown(w, false, call);
      ghost var torn := history;
      Seen(from);
      ReportTeardown();
      Remembered(torn, history, from);
    }

    method ReportTeardown()
      requires Valid() && DestroyReport in queued
      modifies this, engine, engine.go, bus
      ensures Valid() && old(history) <= history && bus.pendingStop == None
    {
      OthersMove(Reporter, 0);
      HistoryLeadsHere();
      ghost var s := View();
      queued := queued - {DestroyReport};
      bus.ResolvePendingStop();
      Log(ReportDestroyed, s, 0);
    }

    // --- the main thread ---------------------------------------------------

    ghost predicate MainStands(at: MainThread)
      reads this, engine, engine.go, bus
    {
      Valid() && main == at
    }

    method BumpCommandSeq(command: Command) returns (mySeq: nat)
      modifies `commandSeq, `newest
      ensures View() == Numbered(old(View()), command) && mySeq == commandSeq == old(commandSeq) + 1
    {
      newest := command;
      commandSeq := commandSeq + 1;
      mySeq := commandSeq;
    }

    method TakeIntent(i: Intent)
      modifies `mail
      ensures mail == old(mail).(intents := old(mail).intents - multiset{i})
    {
      mail := mail.(intents := mail.intents - multiset{i});
    }

    method NumberStopNow() returns (mySeq: nat)
      requires main == Idle
      modifies `commandSeq, `newest, `mail, `main
      ensures View() == DeliverIntent(old(View()), StopIntent)
      ensures mySeq == commandSeq == old(commandSeq) + 1 && main == StopNumbered(mySeq)
    {
      mySeq := BumpCommandSeq(StopCommand);
      TakeIntent(StopIntent);
      main := StopNumbered(mySeq);
    }

    /** A STOP intent is taken: `++commandSeq`. */
    method NumberStop() returns (mySeq: nat)
      requires MainStands(Idle) && StopIntent in mail.intents
      modifies this, engine, engine.go, bus
      ensures MainStands(StopNumbered(mySeq)) && old(history) <= history
      ensures mySeq == commandSeq == old(commandSeq) + 1
    {
      OthersMove(MainLooper, 0);
      HistoryLeadsHere();
      ghost var s := View();
      mySeq := NumberStopNow();
      Log(Deliver(StopIntent), s, 0);
    }

    /** Read in front of the worker's birth: what the worker rejects was armed by then. */
    method CaptureToken(mySeq: nat) returns (token: nat)
      requires MainStands(StopNumbered(mySeq))
      modifies this, engine, engine.go, bus
      ensures MainStands(StopTokened(mySeq, token)) && old(history) <= history && commandSeq == old(commandSeq)
      ensures token <= bus.startTokenSeq && (token > 0 <==> bus.pendingStart == Some(token))
      ensures token == 0 <==> bus.pendingStart.None?
    {
      OthersMove(MainLooper, 0);
      HistoryLeadsHere();
      ghost var s := View();
      BusIsKept(history, s);
      token := bus.CurrentStartToken();
      main := StopTokened(mySeq, token);
      Log(MainMoves, s, 0);
    }

    method SpawnStopNow(mySeq: nat, token: nat)
      requires main == StopTokened(mySeq, token)
      modifies `last, `queued, `main
      ensures View() == MainStep(old(View()))
      ensures main == Idle && StopWorker(mySeq, token) in queued && last == Disconnecting
    {
      last := Disconnecting;
      queued := queued + {StopWorker(mySeq, token)};
      main := Idle;
    }

    method SpawnStop(mySeq: nat, token: nat)
      requires MainStands(StopTokened(mySeq, token))
      modifies this, engine, engine.go, bus
      ensures MainStands(Idle) && old(history) <= history && commandSeq == old(commandSeq)
      ensures StopWorker(mySeq, token) in queued && last == Disconnecting
    {
      OthersMove(MainLooper, 0);
      HistoryLeadsHere();
      ghost var s := View();
      SpawnStopNow(mySeq, token);
      Log(MainMoves, s, 0);
    }

    /** onStartCommand for ACTION_STOP. */
    method OnStopAction() returns (w: Worker)
      requires MainStands(Idle) && StopIntent in mail.intents
      modifies this, engine, engine.go, bus
      ensures MainStands(Idle) && old(history) <= history
      ensures w.StopWorker? && w in queued && w.seqNo == commandSeq == old(commandSeq) + 1
    {
      var mySeq := NumberStop();
      var token := CaptureToken(mySeq);
      SpawnStop(mySeq, token);
      w := StopWorker(mySeq, token);
    }

    method EmitConnectingNow(i: Intent)
      requires main == Idle && i.StartIntent?
      modifies `mail, `last, `main
      ensures View() == DeliverIntent(old(View()), i) && main == StartEmitted(i)
    {
      StartIsTaken(View(), i);
      TakeIntent(i);
      last := Connecting;
      main := StartEmitted(i);
    }

    method EmitConnecting(i: Intent)
      requires MainStands(Idle) && i in mail.intents && i.StartIntent?
      modifies this, engine, engine.go, bus
      ensures MainStands(StartEmitted(i)) && old(history) <= history && commandSeq == old(commandSeq)
    {
      OthersMove(MainLooper, 0);
      HistoryLeadsHere();
      ghost var s := View();
      EmitConnectingNow(i);
      Log(Deliver(i), s, 0);
    }

    method NumberStartNow(i: Intent) returns (mySeq: nat)
      requires main == StartEmitted(i)
      modifies `commandSeq, `newest, `main
      ensures View() == MainStep(old(View()))
      ensures mySeq == commandSeq == old(commandSeq) + 1 && main == StartNumbered(i, mySeq)
    {
      mySeq := BumpCommandSeq(StartCommand);
      main := StartNumbered(i, mySeq);
    }

    method NumberStart(i: Intent) returns (mySeq: nat)
      requires MainStands(StartEmitted(i))
      modifies this, engine, engine.go, bus
      ensures MainStands(StartNumbered(i, mySeq)) && old(history) <= history
      ensures mySeq == commandSeq == old(commandSeq) + 1
    {
      OthersMove(MainLooper, 0);
      HistoryLeadsHere();
      ghost var s := View();
      mySeq := NumberStartNow(i);
      Log(MainMoves, s, 0);
    }

    method SpawnStartNow(i: Intent, mySeq: nat) returns (w: Worker)
      requires main == StartNumbered(i, mySeq) && i.StartIntent? && BusInv(bus.View())
      modifies `queued, `main
      ensures View() == MainStep(old(View())) && main == Idle && w in queued
      ensures w.StartWorker? && w == StartWorker(mySeq, w.token, i.forToken, i.dns, i.fromStore)
      ensures (w.token > 0 <==> bus.pendingStart == Some(w.token)) && (w.token == 0 <==> bus.pendingStart.None?)
    {
      var token := bus.CurrentStartToken();
      w := StartWorker(mySeq, token, i.forToken, i.dns, i.fromStore);
      queued := queued + {w};
      main := Idle;
    }

    /** The worker takes along the start that is armed, whoever armed it. */
    method SpawnStart(i: Intent, mySeq: nat) returns (w: Worker)
      requires MainStands(StartNumbered(i, mySeq)) && i.StartIntent?
      modifies this, engine, engine.go, bus
      ensures MainStands(Idle) && old(history) <= history && commandSeq == old(commandSeq)
      ensures w in queued && w.StartWorker? && w.seqNo == mySeq && w.dns == i.dns && w.forToken == i.forToken
      ensures (w.token > 0 <==> bus.pendingStart == Some(w.token)) && (w.token == 0 <==> bus.pendingStart.None?)
    {
      OthersMove(MainLooper, 0);
      HistoryLeadsHere();
      ghost var s := View();
      BusIsKept(history, s);
      w := SpawnStartNow(i, mySeq);
      Log(MainMoves, s, 0);
    }

    /** onStartCommand for a START. */
    method OnStartAction(i: Intent) returns (w: Worker)
      requires MainStands(Idle) && i in mail.intents && i.StartIntent?
      modifies this, engine, engine.go, bus
      ensures MainStands(Idle) && old(history) <= history
      ensures w in queued && w.StartWorker? && w.dns == i.dns && w.seqNo == commandSeq == old(commandSeq) + 1
      ensures (w.token > 0 <==> bus.pendingStart == Some(w.token)) && (w.token == 0 <==> bus.pendingStart.None?)
    {
      EmitConnecting(i);
      var mySeq := NumberStart(i);
      w := SpawnStart(i, mySeq);
    }

    /** `commandSeq++` as the system takes the interface away. */
    method NumberRevoke() returns (mySeq: nat)
      requires MainStands(Idle)
      modifies this, engine, engine.go, bus
      ensures MainStands(RevokeNumbered(mySeq)) && old(history) <= history
      ensures mySeq == commandSeq == old(commandSeq) + 1
    {
      OthersMove(MainLooper, 0);
      HistoryLeadsHere();
      ghost var s := View();
      mySeq := NumberRevokeNow();
      Log(Revoke, s, 0);
    }

    /** The system takes away the interface it set up last. */
    method LoseInterface()
      modifies `revoked
      ensures TunView() == old(TunView()).(revoked := old(if built == [] then revoked else revoked + {|built| - 1}))
    {
      revoked := if built == [] then revoked else revoked + {|built| - 1};
    }

    method NumberRevokeNow() returns (mySeq: nat)
      requires main == Idle
      modifies `commandSeq, `newest, `main, `revoked
      ensures View() == TakeInterface(old(View()))
      ensures mySeq == commandSeq == old(commandSeq) + 1 && main == RevokeNumbered(mySeq)
    {
      LoseInterface();
      mySeq := BumpCommandSeq(RevokeCommand);
      main := RevokeNumbered(mySeq);
    }

    method SpawnRevokeNow(mySeq: nat)
      requires main == RevokeNumbered(mySeq)
      modifies `tunnelRevoked, `queued, `main
      ensures View() == MainStep(old(View()))
      ensures main == Idle && RevokeWorker(mySeq) in queued && tunnelRevoked
    {
      tunnelRevoked := true;
      queued := queued + {RevokeWorker(mySeq)};
      main := Idle;
    }

    method SpawnRevoke(mySeq: nat)
      requires MainStands(RevokeNumbered(mySeq))
      modifies this, engine, engine.go, bus
      ensures MainStands(Idle) && old(history) <= history && commandSeq == old(commandSeq)
      ensures RevokeWorker(mySeq) in queued && tunnelRevoked
    {
      OthersMove(MainLooper, 0);
      HistoryLeadsHere();
      ghost var s := View();
      SpawnRevokeNow(mySeq);
      Log(MainMoves, s, 0);
    }

    method OnRevoke() returns (w: Worker)
      requires MainStands(Idle)
      modifies this, engine, engine.go, bus
      ensures MainStands(Idle) && old(history) <= history && tunnelRevoked
      ensures w.RevokeWorker? && w in queued && w.seqNo == commandSeq == old(commandSeq) + 1
      ensures Was(history, |old(history)|, RevokeIsNumbered(w.seqNo))
    {
      ghost var from := |history|;
      var mySeq := NumberRevoke();
      ghost var numbered := history;
      Seen(from);
      SpawnRevoke(mySeq);
      Remembered(numbered, history, from);
      w := RevokeWorker(mySeq);
    }

    method MarkDestroyed()
      requires MainStands(Idle) && !destroyed
      modifies this, engine, engine.go, bus
      ensures MainStands(DestroyMarked) && old(history) <= history && destroyed
    {
      OthersMove(MainLooper, 0);
      HistoryLeadsHere();
      ghost var s := View();
      destroyed := true;
      main := DestroyMarked;
      Log(Destroy, s, 0);
    }

    method LookNow() returns (running: bool)
      requires main == DestroyMarked
      modifies `queued, `main
      ensures View() == MainStep(old(View())) && main == if running then DestroyTold(true) else DestroyPeeks
      ensures running == isRunning && (running ==> DestroyWorker in queued)
    {
      running := isRunning;
      queued := if running then queued + {DestroyWorker} else queued;
      main := if running then DestroyTold(true) else DestroyPeeks;
    }

    /** `isRunning ||`, and the thread when the answer is in. */
    method LookAtRunning() returns (running: bool)
      requires MainStands(DestroyMarked)
      modifies this, engine, engine.go, bus
      ensures MainStands(if running then DestroyTold(true) else DestroyPeeks) && old(history) <= history
      ensures destroyed == old(destroyed) && running == isRunning && (running ==> DestroyWorker in queued)
    {
      OthersMove(MainLooper, 0);
      HistoryLeadsHere();
      ghost var s := View();
      running := LookNow();
      Log(MainMoves, s, 0);
    }

    /** `|| tunnel.get() != null`. */
    method LookAtTunnel() returns (hadTunnel: bool)
      requires MainStands(DestroyPeeks)
      modifies this, engine, engine.go, bus
      ensures MainStands(DestroyTold(hadTunnel)) && old(history) <= history && destroyed == old(destroyed)
      ensures hadTunnel == tunnel.Some? && DestroyWorker in queued
    {
      OthersMove(MainLooper, 0);
      HistoryLeadsHere();
      ghost var s := View();
      hadTunnel := tunnel.Some?;
      queued := queued + {DestroyWorker};
      main := DestroyTold(hadTunnel);
      Log(MainMoves, s, 0);
    }

    method TellNow(hadTunnel: bool)
      requires main == DestroyTold(hadTunnel)
      modifies `last, `main
      ensures View() == MainStep(old(View())) && main == Idle && (hadTunnel ==> last == Disconnected)
    {
      last := if hadTunnel then Disconnected else last;
      main := Idle;
    }

    method TellDestroyed(hadTunnel: bool)
      requires MainStands(DestroyTold(hadTunnel))
      modifies this, engine, engine.go, bus
      ensures MainStands(Idle) && old(history) <= history && (hadTunnel ==> last == Disconnected)
      ensures destroyed == old(destroyed)
    {
      OthersMove(MainLooper, 0);
      HistoryLeadsHere();
      ghost var s := View();
      TellNow(hadTunnel);
      Log(MainMoves, s, 0);
    }

    /** What onDestroy has seen up, or else has seen down. */
    ghost predicate Saw(hadTunnel: bool, from: nat)
      reads this
    {
      if hadTunnel then Was(history, from, Running(true)) || Was(history, from, TunnelThere(true))
      else Was(history, from, Running(false)) && Was(history, from, TunnelThere(false))
    }

    /** `isRunning || tunnel.get() != null`. */
    method LookForTunnel() returns (hadTunnel: bool)
      requires MainStands(DestroyMarked)
      modifies this, engine, engine.go, bus
      ensures MainStands(DestroyTold(hadTunnel)) && old(history) <= history && destroyed == old(destroyed)
      ensures Saw(hadTunnel, |old(history)|) && Was(history, |old(history)|, TeardownQueued)
    {
      ghost var from := |history|;
      hadTunnel := LookAtRunning();
      Seen(from);
      if !hadTunnel {
        ghost var looked := history;
        hadTunnel := LookAtTunnel();
        Seen(from);
        Remembered(looked, history, from);
      }
    }

    /** The thread that tears down is spawned in any case. */
    method OnDestroy() returns (hadTunnel: bool)
      requires MainStands(Idle) && !destroyed
      modifies this, engine, engine.go, bus
      ensures MainStands(Idle) && old(history) <= history && destroyed && (hadTunnel ==> last == Disconnected)
      ensures Saw(hadTunnel, |old(history)|) && Was(history, |old(history)|, TeardownQueued)
    {
      ghost var from := |history|;
      MarkDestroyed();
      ghost var marked := |history|;
      hadTunnel := LookForTunnel();
      Earlier(history, marked, from);
      ghost var looked := history;
      TellDestroyed(hadTunnel);
      Remembered(looked, history, from);
    }

    // --- the callers -------------------------------------------------------

    method ArmStartNow() returns (token: nat)
      modifies `mail, bus
      ensures View() == Apply(old(View()), ArmStart) && token in mail.arming
      ensures bus.pendingStart == Some(token) && token == bus.startTokenSeq == old(bus.startTokenSeq) + 1
    {
      token := bus.SetPendingStart();
      mail := mail.(arming := mail.arming + {token});
    }

    method ArmPendingStart() returns (token: nat)
      requires Valid()
      modifies this, engine, engine.go, bus
      ensures Valid() && old(history) <= history && token in mail.arming
      ensures bus.pendingStart == Some(token) && token == bus.startTokenSeq == old(bus.startTokenSeq) + 1
    {
      HistoryLeadsHere();
      ghost var s := View();
      token := ArmStartNow();
      Log(ArmStart, s, 0);
    }

    method SendStartIntent(token: nat, dns: Dns)
      requires Valid() && token in mail.arming
      modifies this, engine, engine.go, bus
      ensures Valid() && old(history) <= history
      ensures StartIntent(Some(token), dns, false) in mail.intents && token in mail.sent && mail.sent[token] == dns
      ensures old(Settled(token)) ==> Settled(token)
    {
      OthersMove(Starter(token), token);
      HistoryLeadsHere();
      ghost var s := View();
      mail := mail.(arming := mail.arming - {token}, sent := mail.sent[token := dns],
                    intents := mail.intents + multiset{StartIntent(Some(token), dns, false)});
      Log(SendStart(token, dns), s, token);
    }

    /** startService threw: the caller gets its rejection unless the start has been settled already. */
    method RejectUnsent(token: nat)
      requires Valid() && token in mail.arming && token > 0
      modifies this, engine, engine.go, bus
      ensures Valid() && old(history) <= history && token !in mail.arming
      ensures token <= old(bus.startTokenSeq) ==> Settled(token)
    {
      OthersMove(Starter(token), token);
      HistoryLeadsHere();
      ghost var s := View();
      BusIsKept(history, s);
      mail := mail.(arming := mail.arming - {token});
      bus.ResolveStart(token, false);
      Log(SendStartFails(token), s, token);
    }

    /** startXray up to the point at which it waits. */
    method StartXray(dns: Dns, dispatched: bool) returns (token: nat)
      requires Valid()
      modifies this, engine, engine.go, bus
      ensures Valid() && old(history) <= history && token > old(bus.startTokenSeq)
      ensures if dispatched then StartIntent(Some(token), dns, false) in mail.intents else Settled(token)
    {
      token := ArmPendingStart();
      if dispatched {
        SendStartIntent(token, dns);
      } else {
        RejectUnsent(token);
      }
    }

    method ArmStopNow() returns (callback: nat)
      modifies `mail, bus
      ensures View() == Apply(old(View()), ArmStopCallback)
      ensures callback in mail.stopping && bus.pendingStop == Some(callback)
    {
      callback := bus.stopsArmed + 1;
      mail := mail.(stopping := mail.stopping + {callback});
      bus.SetPendingStop();
      assert bus.View() == ArmStop(old(bus.View()));
    }

    method ArmStopCompletion() returns (callback: nat)
      requires Valid()
      modifies this, engine, engine.go, bus
      ensures Valid() && old(history) <= history && callback in mail.stopping && bus.pendingStop == Some(callback)
    {
      HistoryLeadsHere();
      ghost var s := View();
      callback := ArmStopNow();
      Log(ArmStopCallback, s, 0);
    }

    method SendStopIntent(callback: nat)
      requires Valid() && callback in mail.stopping
      modifies this, engine, engine.go, bus
      ensures Valid() && old(history) <= history && StopIntent in mail.intents
    {
      OthersMove(Stopper(callback), 0);
      HistoryLeadsHere();
      ghost var s := View();
      mail := mail.(stopping := mail.stopping - {callback}, intents := mail.intents + multiset{StopIntent});
      Log(SendStop(callback), s, 0);
    }

    /** The promise is resumed by the caller itself; the completion stays in the slot. */
    method AbandonStop(callback: nat)
      requires Valid() && callback in mail.stopping
      modifies this, engine, engine.go, bus
      ensures Valid() && old(history) <= history && callback in mail.abandoned
    {
      OthersMove(Stopper(callback), 0);
      HistoryLeadsHere();
      ghost var s := View();
      mail := mail.(stopping := mail.stopping - {callback}, abandoned := mail.abandoned + {callback});
      Log(SendStopFails(callback), s, 0);
    }

    /** stopXray up to the point at which it waits. */
    method StopXray(dispatched: bool) returns (callback: nat)
      requires Valid()
      modifies this, engine, engine.go, bus
      ensures Valid() && old(history) <= history
      ensures if dispatched then StopIntent in mail.intents else callback in mail.abandoned
    {
      callback := ArmStopCompletion();
      if dispatched {
        SendStopIntent(callback);
      } else {
        AbandonStop(callback);
      }
    }
  }
}
