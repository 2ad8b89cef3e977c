/**
 * The VPN command protocol as a transition system.
 *
 * JS threads arm completions and send intents; the main thread delivers intents, revokes
 * and destroys; every command spawns a worker that contends for `engineLock`. One step makes
 * at most one access to state that another thread may touch at the same moment: a volatile
 * field, the completion slots, the engine, the emitted state. `runStart`, `handleStartFailure`,
 * `teardown` and the command handlers are cut into stages there, so that the steps of all
 * other threads can land between any two of them.
 */
module Protocol {
  import opened Options
  import opened StateBus
  import opened Engine

  type Dns = seq<string>

  const ENGINE_STOP_TIMEOUT_MS: nat := 2_500

  datatype Emitted = Nothing | Connecting | Connected | Disconnecting | Disconnected | Failed | Blocked

  /** The command that bumped `commandSeq` last. */
  datatype Command = NoCommand | StartCommand | StopCommand | RevokeCommand

  /** `forToken` is the start an intent was sent for; None for a widget, tile or shortcut. */
  datatype Intent = StartIntent(forToken: Option<nat>, dns: Dns, fromStore: bool) | StopIntent

  /** Where the main thread is inside a handler. */
  datatype MainThread =
    | Idle
    | StartEmitted(intent: Intent)
    | StartNumbered(intent: Intent, seqNo: nat)
    | StopNumbered(seqNo: nat)
    | StopTokened(seqNo: nat, token: nat)
    | RevokeNumbered(seqNo: nat)
    | DestroyMarked
    | DestroyPeeks
    | DestroyTold(hadTunnel: bool)

  /**
   * A spawned thread that has not finished. A START takes along the token it finds armed, which
   * need not be that of the start its intent was sent for. `DestroyReport` is onDestroy's thread
   * after its lock.
   */
  datatype Worker =
    | StartWorker(seqNo: nat, token: nat, forToken: Option<nat>, dns: Dns, fromStore: bool)
    | StopWorker(seqNo: nat, token: nat)
    | RevokeWorker(seqNo: nat)
    | DestroyWorker
    | DestroyReport

  // What a worker that holds the lock is about to do: every START and STOP on entry,
  datatype EntryStage = CheckSeq | RejectStale | ReleaseStale

  // runStart up to the choice of a tunnel, setupVpn and the close of the old tunnel, the engine start,
  datatype PrepareStage = LowerFlag | StopOld | Plan | Establish(previous: Option<Fd>)
  datatype ReplaceStage = Install | Unmark | Publish | ClosePrevious
  datatype BootStage = CheckAlive | StartBypass | Launch | RaiseFlag

  // the end of runStart, handleStartFailure,
  datatype FinishStage = RecheckSeq | RecheckAlive | LateResolve | LateAlive | AnnounceUp | ResolveUp
  datatype FailStage =
    FailKillSwitch | FailRevoked | FailAlive | HoldFlag | AnnounceHold | ResolveHold | AnnounceError | ResolveError

  // a teardown: stopping the engine, dropping the tunnel, reporting it.
  datatype StopStage = PreemptStart | StopFlag | StopEngine
  datatype DropStage = DropTunnel | Unpublish | DropFlag | ReleaseFd
  datatype LeaveStage = RejectDestroyed | AnnounceDown | ResolveStopped

  /** `thenReject` marks the teardown of a START that found the service destroyed. */
  datatype Stage =
    | Entering(entry: EntryStage)
    | Preparing(prepare: PrepareStage)
    | Replacing(replace: ReplaceStage, previous: Option<Fd>, fd: Fd)
    | Booting(boot: BootStage, fd: Fd)
    | Finishing(finish: FinishStage)
    | Failing(fail: FailStage)
    | Stopping(stop: StopStage, thenReject: bool)
    | Dropping(drop: DropStage, thenReject: bool, pfd: Option<Fd>)
    | Leaving(leave: LeaveStage)

  datatype Lock = Free | Held(worker: Worker, at: Stage)

  /**
   * The tunnel field, what is published with it, and every descriptor ever established.
   * `revoked` are the descriptors whose interface the system has taken away, `forgiven` those of
   * them whose revoke had been noted before the mark was cleared on their behalf.
   */
  datatype Tun = Tun(
    tunnel: Option<Fd>,
    activeDns: Option<Dns>,
    isRunning: bool,
    built: seq<Dns>,          // descriptor fd was established with built[fd]
    closed: multiset<Fd>,
    parked: multiset<Fd>,
    revoked: set<Fd>,
    forgiven: set<Fd>)

  /** The flags the service and the outside set for each other. */
  datatype Flags = Flags(commandSeq: nat, newest: Command, destroyed: bool, tunnelRevoked: bool, killSwitch: bool)

  /**
   * JS calls that have armed a completion and not sent their intent, the intents not yet
   * delivered, the resolvers each start was sent with, and the stop calls whose intent could not
   * be sent (their promise is resumed at once, their completion stays in the slot).
   */
  datatype Mail = Mail(
    arming: set<nat>, stopping: set<nat>, intents: multiset<Intent>, sent: map<nat, Dns>, abandoned: set<nat>)

  datatype Sys = Sys(
    tun: Tun,
    engine: EngineState,
    isEngineRunning: bool,
    flags: Flags,
    bus: Bus,
    last: Emitted,
    mail: Mail,
    main: MainThread,
    queued: set<Worker>,
    lock: Lock)

  const INIT := Sys(Tun(None, None, false, [], multiset{}, multiset{}, {}, {}), FRESH_ENGINE, false,
                    Flags(0, NoCommand, false, false, false), EMPTY_BUS, Nothing,
                    Mail({}, {}, multiset{}, map[], {}), Idle, {}, Free)

  /** What the outside decides when the lock holder moves. */
  datatype Choice = Choice(stop: StopCall, start: StartCall, establishes: bool, bypassStarts: bool)

  datatype Step =
    // JS
    | ArmStart
    | SendStart(token: nat, dns: Dns)
    | SendStartFails(token: nat)
    | ArmStopCallback
    | SendStop(callback: nat)
    | SendStopFails(callback: nat)
    | SetKillSwitch(on: bool)
    // the notification button, a widget, a tile
    | PressDisconnect
    | SendQuickStart(quickDns: Dns)
    // main thread
    | Deliver(intent: Intent)
    | Revoke
    | Destroy
    | MainMoves
    // workers
    | Acquire(worker: Worker)
    | HolderMoves(choice: Choice)
    | ReportDestroyed
    // a stop that blew its deadline returns after all
    | LateStop(closeFails: bool)

  predicate Enabled(s: Sys, e: Step) {
    match e
    case ArmStart | ArmStopCallback | PressDisconnect | SendQuickStart(_) | SetKillSwitch(_) => true
    case SendStart(token, _) => token in s.mail.arming
    case SendStartFails(token) => token in s.mail.arming
    case SendStop(t) => t in s.mail.stopping
    case SendStopFails(t) => t in s.mail.stopping
    case Deliver(i) => s.main == Idle && i in s.mail.intents
    case Revoke => s.main == Idle
    case Destroy => s.main == Idle && !s.flags.destroyed
    case MainMoves => s.main != Idle
    case Acquire(w) => s.lock == Free && w in s.queued && w != DestroyReport
    case HolderMoves(c) => s.lock.Held? && !c.stop.throws
    case ReportDestroyed => DestroyReport in s.queued
    case LateStop(_) => s.engine.isWedged && s.engine.running.Some?
  }

  function Apply(s: Sys, e: Step): Sys
    requires Enabled(s, e)
  {
    match e
    case ArmStart => s.(bus := Arm(s.bus), mail := s.mail.(arming := s.mail.arming + {s.bus.startTokenSeq + 1}))
    case SendStart(t, dns) => SendsStart(s, t, dns)
    case SendStartFails(t) => s.(mail := s.mail.(arming := s.mail.arming - {t}), bus := Resolve(s.bus, t, false))
    case ArmStopCallback =>
      s.(bus := ArmStop(s.bus), mail := s.mail.(stopping := s.mail.stopping + {s.bus.stopsArmed + 1}))
    case SendStop(t) => Post(s.(mail := s.mail.(stopping := s.mail.stopping - {t})), StopIntent)
    case SendStopFails(t) =>
      s.(mail := s.mail.(stopping := s.mail.stopping - {t}, abandoned := s.mail.abandoned + {t}))
    case SetKillSwitch(on) => s.(flags := s.flags.(killSwitch := on))
    case PressDisconnect => Post(s, StopIntent)
    case SendQuickStart(dns) => Post(s, StartIntent(None, dns, true))
    case Deliver(i) => DeliverIntent(s, i)
    case Revoke => TakeInterface(s)
    case Destroy => s.(flags := s.flags.(destroyed := true), main := DestroyMarked)
    case MainMoves => MainStep(s)
    case Acquire(w) => TakeLock(s, w)
    case HolderMoves(c) => Advance(s, c)
    case ReportDestroyed => s.(queued := s.queued - {DestroyReport}, bus := ResolveStop(s.bus))
    case LateStop(closeFails) =>
      s.(engine := s.engine.(running := None, lingering := Lingering(s.engine, closeFails)))
  }

  function Post(s: Sys, i: Intent): Sys {
    s.(mail := s.mail.(intents := s.mail.intents + multiset{i}))
  }

  function SendsStart(s: Sys, t: nat, dns: Dns): Sys {
    s.(mail := s.mail.(arming := s.mail.arming - {t}, sent := s.mail.sent[t := dns],
                       intents := s.mail.intents + multiset{StartIntent(Some(t), dns, false)}))
  }

  // --- main thread ---------------------------------------------------------

  /** `++commandSeq`. */
  function Numbered(s: Sys, newest: Command): Sys {
    s.(flags := s.flags.(commandSeq := s.flags.commandSeq + 1, newest := newest))
  }

  /** onStartCommand, up to its first shared access after taking the intent. */
  function DeliverIntent(s: Sys, i: Intent): Sys {
    var s' := s.(mail := s.mail.(intents := s.mail.intents - multiset{i}));
    if i.StopIntent? then
      Numbered(s', StopCommand).(main := StopNumbered(s.flags.commandSeq + 1))
    else
      s'.(last := Connecting, main := StartEmitted(i))
  }

  /** The system takes away the interface it set up last, and onRevoke bumps the sequence. */
  function TakeInterface(s: Sys): Sys {
    Numbered(s, RevokeCommand).(
      main := RevokeNumbered(s.flags.commandSeq + 1),
      tun := s.tun.(revoked := if s.tun.built == [] then s.tun.revoked else s.tun.revoked + {|s.tun.built| - 1}))
  }

  /** The worker a START spawns: it takes along whatever token is armed. */
  function SpawnedStart(s: Sys): Worker
    requires s.main.StartNumbered? && s.main.intent.StartIntent?
  {
    var i := s.main.intent;
    StartWorker(s.main.seqNo, s.bus.pendingStartToken, i.forToken, i.dns, i.fromStore)
  }

  function MainStep(s: Sys): Sys
    requires s.main != Idle
  {
    match s.main
    case StartEmitted(i) =>
      Numbered(s, StartCommand).(main := StartNumbered(i, s.flags.commandSeq + 1))
    case StartNumbered(i, n) =>
      s.(main := Idle, queued := if i.StartIntent? then s.queued + {SpawnedStart(s)} else s.queued)
    case StopNumbered(n) => s.(main := StopTokened(n, s.bus.pendingStartToken))
    case StopTokened(n, t) => s.(main := Idle, last := Disconnecting, queued := s.queued + {StopWorker(n, t)})
    case RevokeNumbered(n) =>
      s.(main := Idle, flags := s.flags.(tunnelRevoked := true), queued := s.queued + {RevokeWorker(n)})
    case DestroyMarked =>
      if s.tun.isRunning then s.(main := DestroyTold(true), queued := s.queued + {DestroyWorker})
      else s.(main := DestroyPeeks)
    case DestroyPeeks => s.(main := DestroyTold(s.tun.tunnel.Some?), queued := s.queued + {DestroyWorker})
    case DestroyTold(hadTunnel) => s.(main := Idle, last := if hadTunnel then Disconnected else s.last)
  }

  // --- workers -------------------------------------------------------------

  function FirstStage(w: Worker): Stage {
    if w.StartWorker? || w.StopWorker? then Entering(CheckSeq) else Stopping(StopFlag, false)
  }

  function TakeLock(s: Sys, w: Worker): Sys {
    s.(queued := s.queued - {w}, lock := Held(w, FirstStage(w)))
  }

  function Goto(s: Sys, at: Stage): Sys {
    if s.lock.Held? then s.(lock := s.lock.(at := at)) else s
  }

  predicate IsAt(s: Sys, at: Stage) {
    s.lock.Held? && s.lock.at == at
  }

  function Release(s: Sys): Sys {
    s.(lock := Free)
  }

  function SeqOf(w: Worker): nat {
    if w.StartWorker? || w.StopWorker? || w.RevokeWorker? then w.seqNo else 0
  }

  function TokenOf(w: Worker): nat {
    if w.StartWorker? || w.StopWorker? then w.token else 0
  }

  function DnsOf(w: Worker): Dns {
    if w.StartWorker? then w.dns else []
  }

  /** resolveStart with the token the lock holder captured when it was dispatched. */
  function Settle(s: Sys, success: bool): Sys {
    if s.lock.Held? then s.(bus := Resolve(s.bus, TokenOf(s.lock.worker), success)) else s
  }

  function Advance(s: Sys, c: Choice): Sys
    requires s.lock.Held?
  {
    match s.lock.at
    case Entering(at) => Enter(s, at)
    case Preparing(at) => Prepare(s, at, c)
    case Replacing(at, previous, fd) => Replace(s, at, previous, fd)
    case Booting(at, fd) => Boot(s, at, fd, c)
    case Finishing(at) => Finish(s, at)
    case Failing(at) => Fail(s, at)
    case Stopping(at, thenReject) => Stop(s, at, thenReject, c.stop)
    case Dropping(at, thenReject, pfd) => Drop(s, at, thenReject, pfd)
    case Leaving(at) => Leave(s, at)
  }

  /** The first thing a START or a STOP does with the lock: has a newer command been dispatched? */
  function Enter(s: Sys, at: EntryStage): Sys
    requires s.lock.Held?
  {
    var w := s.lock.worker;
    match at
    case CheckSeq =>
      if SeqOf(w) == s.flags.commandSeq then
        Goto(s, if w.StopWorker? then Stopping(PreemptStart, false) else Preparing(LowerFlag))
      else Goto(s, Entering(if w.StopWorker? then ReleaseStale else RejectStale))
    case RejectStale => Release(Settle(s, false))
    case ReleaseStale => Release(s.(bus := ResolveStop(s.bus)))
  }

  function Prepare(s: Sys, at: PrepareStage, c: Choice): Sys
    requires s.lock.Held?
  {
    var w := s.lock.worker;
    match at
    case LowerFlag => Goto(s.(isEngineRunning := false), Preparing(StopOld))
    case StopOld => StopOldEngine(s, c.stop)
    case Plan => PlanTunnel(s, w)
    case Establish(previous) =>
      if c.establishes then EstablishTunnel(s, DnsOf(w), previous) else Goto(s, Failing(FailKillSwitch))
  }

  function StopOldEngine(s: Sys, call: StopCall): Sys {
    var (engine, code) := StopEngineBounded(s.engine, ENGINE_STOP_TIMEOUT_MS, call);
    Goto(s.(engine := engine), if code == ERR_WEDGED then Failing(FailKillSwitch) else Preparing(Plan))
  }

  /** Reuse the established descriptor when it is alive and has the right resolvers. */
  function PlanTunnel(s: Sys, w: Worker): Sys {
    if s.tun.tunnel.Some? && !s.flags.tunnelRevoked && s.tun.activeDns == Some(DnsOf(w)) then
      Goto(s, Booting(CheckAlive, s.tun.tunnel.value))
    else Goto(s, Preparing(Establish(s.tun.tunnel)))
  }

  /** The system hands out a new descriptor; the tunnel field still holds the old one. */
  function EstablishTunnel(s: Sys, dns: Dns, previous: Option<Fd>): Sys {
    Goto(s.(tun := s.tun.(built := s.tun.built + [dns])), Replacing(Install, previous, |s.tun.built|))
  }

  /** setupVpn after `establish()` returned a descriptor, and the close of the one it replaces. */
  function Replace(s: Sys, at: ReplaceStage, previous: Option<Fd>, fd: Fd): Sys
    requires s.lock.Held?
  {
    match at
    case Install =>
      Goto(s.(tun := s.tun.(activeDns := Some(DnsOf(s.lock.worker)), tunnel := Some(fd))), Replacing(Unmark, previous, fd))
    case Unmark => Goto(ClearMark(s, fd), Replacing(Publish, previous, fd))
    case Publish => Goto(s.(tun := s.tun.(isRunning := true)), Replacing(ClosePrevious, previous, fd))
    case ClosePrevious => Goto(CloseQuietly(s, previous), Booting(CheckAlive, fd))
  }

  /** `tunnelRevoked = false` for the new tunnel, even if it has been revoked and noted already. */
  function ClearMark(s: Sys, fd: Fd): Sys {
    s.(flags := s.flags.(tunnelRevoked := false),
       tun := s.tun.(forgiven := if fd in s.tun.revoked && !s.main.RevokeNumbered? then s.tun.forgiven + {fd}
                                 else s.tun.forgiven))
  }

  function CloseQuietly(s: Sys, fd: Option<Fd>): Sys {
    if fd.Some? then s.(tun := s.tun.(closed := s.tun.closed + multiset{fd.value})) else s
  }

  function Boot(s: Sys, at: BootStage, fd: Fd, c: Choice): Sys
    requires s.lock.Held?
  {
    var w := s.lock.worker;
    match at
    case CheckAlive => Goto(s, if s.flags.destroyed then Stopping(StopFlag, true) else Booting(StartBypass, fd))
    case StartBypass =>
      Goto(s, if w.StartWorker? && w.fromStore && !c.bypassStarts then Failing(FailKillSwitch) else Booting(Launch, fd))
    case Launch => LaunchEngine(s, fd, c.start)
    case RaiseFlag => Goto(s.(isEngineRunning := true), Finishing(RecheckSeq))
  }

  function LaunchEngine(s: Sys, fd: Fd, call: StartCall): Sys {
    var (engine, code) := StartEngine(s.engine, fd, call);
    Goto(s.(engine := engine), if code != 0 then Failing(FailKillSwitch) else Booting(RaiseFlag, fd))
  }

  /** Second look for newer commands and a destroy, then the report. */
  function Finish(s: Sys, at: FinishStage): Sys
    requires s.lock.Held?
  {
    match at
    case RecheckSeq =>
      Goto(s, Finishing(if SeqOf(s.lock.worker) != s.flags.commandSeq then LateResolve else RecheckAlive))
    case RecheckAlive => Goto(s, Finishing(if s.flags.destroyed then LateResolve else AnnounceUp))
    case LateResolve => Goto(Settle(s, false), Finishing(LateAlive))
    case LateAlive => if s.flags.destroyed then Goto(s, Stopping(StopFlag, false)) else Release(s)
    case AnnounceUp => Goto(s.(last := Connected), Finishing(ResolveUp))
    case ResolveUp => Release(Settle(s, true))
  }

  /** handleStartFailure: hold the tunnel, or report the error and give it up. */
  function Fail(s: Sys, at: FailStage): Sys
    requires s.lock.Held?
  {
    match at
    case FailKillSwitch =>
      Goto(s, Failing(if s.flags.killSwitch && s.tun.tunnel.Some? then FailRevoked else AnnounceError))
    case FailRevoked => Goto(s, Failing(if !s.flags.tunnelRevoked then FailAlive else AnnounceError))
    case FailAlive => Goto(s, Failing(if !s.flags.destroyed then HoldFlag else AnnounceError))
    case HoldFlag => Goto(s.(isEngineRunning := false), Failing(AnnounceHold))
    case AnnounceHold => Goto(s.(last := Blocked), Failing(ResolveHold))
    case ResolveHold => Release(Settle(s, false))
    case AnnounceError => Goto(s.(last := Failed), Failing(ResolveError))
    case ResolveError => Goto(Settle(s, false), Stopping(StopFlag, false))
  }

  /** A STOP rejects the start it preempts; every teardown stops the engine first. */
  function Stop(s: Sys, at: StopStage, thenReject: bool, call: StopCall): Sys
    requires s.lock.Held?
  {
    match at
    case PreemptStart => Goto(Settle(s, false), Stopping(StopFlag, false))
    case StopFlag => Goto(s.(isEngineRunning := false), Stopping(StopEngine, thenReject))
    case StopEngine => StopForTeardown(s, call, thenReject)
  }

  /** The service's stopEngineBounded, whose result no teardown looks at. */
  function StopForTeardown(s: Sys, call: StopCall, thenReject: bool): Sys {
    var (engine, _) := StopEngineBounded(s.engine, ENGINE_STOP_TIMEOUT_MS, call);
    Goto(s.(engine := engine), Dropping(DropTunnel, thenReject, None))
  }

  /** dropTunnel: claim the descriptor, clear what was published with it, release it. */
  function Drop(s: Sys, at: DropStage, thenReject: bool, pfd: Option<Fd>): Sys
    requires s.lock.Held?
  {
    match at
    case DropTunnel =>
      Goto(s.(tun := s.tun.(tunnel := None, activeDns := None)), Dropping(Unpublish, thenReject, s.tun.tunnel))
    case Unpublish => Goto(s.(tun := s.tun.(isRunning := false)), Dropping(DropFlag, thenReject, pfd))
    case DropFlag => Goto(s.(isEngineRunning := false), Dropping(ReleaseFd, thenReject, pfd))
    case ReleaseFd => AfterTeardown(ReleaseDescriptor(s, pfd), s.lock.worker, thenReject)
  }

  /** Park the descriptor if the engine may still be using it, else close it. */
  function ReleaseDescriptor(s: Sys, pfd: Option<Fd>): Sys {
    if pfd.None? then s
    else if s.engine.isWedged then s.(tun := s.tun.(parked := s.tun.parked + multiset{pfd.value}))
    else s.(tun := s.tun.(closed := s.tun.closed + multiset{pfd.value}))
  }

  function AfterTeardown(s: Sys, w: Worker, thenReject: bool): Sys {
    match w
    case StopWorker(_, _) => Goto(s, Leaving(AnnounceDown))
    case RevokeWorker(_) => Goto(s, Leaving(AnnounceDown))
    case DestroyWorker => Release(s).(queued := s.queued + {DestroyReport})
    case _ => if thenReject then Goto(s, Leaving(RejectDestroyed)) else Release(s)
  }

  function Leave(s: Sys, at: LeaveStage): Sys
    requires s.lock.Held?
  {
    match at
    case RejectDestroyed => Release(Settle(s, false))
    case AnnounceDown => Goto(s.(last := Disconnected), Leaving(ResolveStopped))
    case ResolveStopped => Release(s.(bus := ResolveStop(s.bus)))
  }

  /** What the lock holder emits at a stage. */
  function Announces(at: Stage): Emitted {
    match at
    case Finishing(f) => if f.AnnounceUp? then Connected else Nothing
    case Failing(f) => if f.AnnounceHold? then Blocked else if f.AnnounceError? then Failed else Nothing
    case Leaving(l) => if l.AnnounceDown? then Disconnected else Nothing
    case _ => Nothing
  }

  /** A native stop that returns within two and a half seconds wedges nothing. */
  lemma DeadlineIsKept(e: EngineState, call: StopCall)
    requires !e.isWedged && !call.throws
    requires call.lockFreeAt.At? && call.takes.At? && call.lockFreeAt.ms + call.takes.ms <= 2_500
    ensures var e' := StopEngineBounded(e, ENGINE_STOP_TIMEOUT_MS, call).0; !e'.isWedged && e'.running.None?
    ensures StopEngineBounded(e, ENGINE_STOP_TIMEOUT_MS, call).1 != ERR_WEDGED
  {
    WedgesExactly(e, ENGINE_STOP_TIMEOUT_MS, call);
  }

  // --- runs ----------------------------------------------------------------

  /** `es` can be taken one after the other from `s`. */
  predicate Runs(s: Sys, es: seq<Step>)
    decreases |es|
  {
    es == [] || (Enabled(s, es[0]) && Runs(Apply(s, es[0]), es[1..]))
  }

  function After(s: Sys, es: seq<Step>): Sys
    requires Runs(s, es)
    decreases |es|
  {
    if es == [] then s else After(Apply(s, es[0]), es[1..])
  }

  /** The state in front of step `k` of a run. */
  function StateAt(s: Sys, es: seq<Step>, k: nat): Sys
    requires Runs(s, es) && k <= |es|
    decreases k
  {
    if k == 0 then s else StateAt(Apply(s, es[0]), es[1..], k - 1)
  }

  /** The steps `es` lead from `s` to `s'`. */
  predicate Leads(s: Sys, es: seq<Step>, s': Sys) {
    Runs(s, es) && After(s, es) == s'
  }

  lemma {:induction false} Joined(s: Sys, a: seq<Step>, s1: Sys, b: seq<Step>, s2: Sys)
    requires Leads(s, a, s1) && Leads(s1, b, s2)
    ensures Leads(s, a + b, s2)
    decreases |a|
  {
    if a == [] {
      assert a + b == b;
    } else {
      assert (a + b)[1..] == a[1..] + b;
      Joined(Apply(s, a[0]), a[1..], s1, b, s2);
    }
  }

  lemma OneStep(s: Sys, e: Step)
    requires Enabled(s, e)
    ensures Leads(s, [e], Apply(s, e))
  {
    assert [e][1..] == [];
  }

  /** One more step at the end of a run. */
  lemma ThenStep(s0: Sys, es: seq<Step>, s: Sys, e: Step, s': Sys)
    requires Leads(s0, es, s) && Enabled(s, e) && Apply(s, e) == s'
    ensures Leads(s0, es + [e], s')
  {
    OneStep(s, e);
    Joined(s0, es, s, [e], s');
  }
}
