/**
 * XrayEngine and the Go global behind it.
 *
 * `running` is Go's `runningServer`, named by the tun descriptor it was started on.
 * A Go call is described by when it gets the engine lock and how long it then takes,
 * so that the two deadlines of the source decide the outcome.
 */
module Engine {
  import opened Options

  type Fd = nat

  const ERR_WEDGED := -101
  const ERR_BUSY := -102
  const LOCK_WAIT_MS: nat := 3_000

  /**
   * `lingering` are the descriptors of instances whose Close reported an error: Go has forgotten
   * them, but nothing says that they have let go of their descriptor.
   */
  datatype EngineState = EngineState(isWedged: bool, running: Option<Fd>, lingering: set<Fd>)

  const FRESH_ENGINE := EngineState(false, None, {})

  /** The descriptors something inside Go may still read from or write to. */
  predicate MayUse(e: EngineState, fd: Fd) {
    e.running == Some(fd) || fd in e.lingering
  }

  datatype Time = At(ms: nat) | Never

  /** One call of Go's StopXray made by the helper thread of stopEngineBounded. */
  datatype StopCall = StopCall(lockFreeAt: Time, takes: Time, throws: bool, closeFails: bool)

  /** One call of Go's StartXray; `code` is what loading, building and starting yields. */
  datatype StartCall = StartCall(lockFreeAt: Time, code: int)

  predicate GotLock(lockFreeAt: Time) {
    lockFreeAt.At? && lockFreeAt.ms <= LOCK_WAIT_MS
  }

  /** When the helper thread of stopEngineBounded ends. */
  function HelperEnds(call: StopCall): Time {
    if !GotLock(call.lockFreeAt) then At(LOCK_WAIT_MS)
    else if call.takes.Never? then Never
    else At(call.lockFreeAt.ms + call.takes.ms)
  }

  predicate AliveAt(call: StopCall, deadline: nat) {
    HelperEnds(call).Never? || HelperEnds(call).ms > deadline
  }

  /** Go: StopXray closes the instance and forgets it, whatever Close reports. */
  function GoStop(running: Option<Fd>, closeFails: bool): (r: (Option<Fd>, int)) {
    if running.Some? then (None, if closeFails then -1 else 0) else (None, 0)
  }

  /** What a Close that reports an error leaves behind. */
  function Lingering(e: EngineState, closeFails: bool): set<Fd> {
    if e.running.Some? && closeFails then e.lingering + {e.running.value} else e.lingering
  }

  /** Go: StartXray refuses a second instance, and keeps one only when every stage succeeded. */
  function GoStart(running: Option<Fd>, fd: Fd, code: int): (r: (Option<Fd>, int)) {
    if running.Some? then (running, -1)
    else if code != 0 then (None, code)
    else (Some(fd), 0)
  }

  function StartEngine(e: EngineState, fd: Fd, call: StartCall): (r: (EngineState, int)) {
    if e.isWedged then (e, ERR_WEDGED)
    else if !GotLock(call.lockFreeAt) then (e, ERR_BUSY)
    else var (running, code) := GoStart(e.running, fd, call.code); (e.(running := running), code)
  }

  function StopEngineBounded(e: EngineState, timeout: nat, call: StopCall): (r: (EngineState, int)) {
    if e.isWedged then (e, ERR_WEDGED)
    else if AliveAt(call, timeout) then (e.(isWedged := true), ERR_WEDGED)
    else if !GotLock(call.lockFreeAt) || call.throws then (e, ERR_BUSY)
    else
      var (running, code) := GoStop(e.running, call.closeFails);
      (e.(running := running, lingering := Lingering(e, call.closeFails)), code)
  }

  /** What a caller about to release the descriptor needs. */
  predicate StoppedOrWedged(e: EngineState) {
    e.running.None? || e.isWedged
  }

  /**
   * A deadline below the lock wait leaves no third outcome: the engine has stopped or is
   * marked wedged, and the return value says which. A JNI call that throws is the only
   * way out, and only when it throws before the deadline.
   */
  lemma BoundedStopIsSafe(e: EngineState, timeout: nat, call: StopCall)
    requires timeout < LOCK_WAIT_MS
    ensures var (e', code) := StopEngineBounded(e, timeout, call);
      && (e'.isWedged <==> code == ERR_WEDGED)
      && (StoppedOrWedged(e') <==> StoppedOrWedged(e) || AliveAt(call, timeout) || !call.throws)
  {
  }

  /**
   * A stop wedges the engine if and only if the native call has not returned by the deadline, however
   * long it had to wait for the lock; one that has stops Go for good, whatever Close reports.
   */
  lemma WedgesExactly(e: EngineState, timeout: nat, call: StopCall)
    requires timeout < LOCK_WAIT_MS && !call.throws && !e.isWedged
    ensures var (e', code) := StopEngineBounded(e, timeout, call);
      var inTime := call.lockFreeAt.At? && call.takes.At? && call.lockFreeAt.ms + call.takes.ms <= timeout;
      && (e'.isWedged <==> !inTime)
      && (inTime ==> e'.running.None? && (code == -1 <==> e.running.Some? && call.closeFails))
      && (!inTime ==> e'.running == e.running && code == ERR_WEDGED)
  {
  }

  /** A start waits three seconds for the lock, and no longer; with the lock, Go answers. */
  lemma StartWaits(e: EngineState, fd: Fd, call: StartCall)
    requires !e.isWedged
    ensures var inTime := call.lockFreeAt.At? && call.lockFreeAt.ms <= 3_000;
      StartEngine(e, fd, call) ==
        if !inTime then (e, ERR_BUSY)
        else if e.running.Some? then (e, -1)
        else (e.(running := if call.code == 0 then Some(fd) else None), call.code)
  {
  }

  /** The deadlines matter: the guarantee holds for every call exactly when timeout < LOCK_WAIT_MS. */
  lemma SafeDeadlines(timeout: nat)
    ensures timeout < LOCK_WAIT_MS <==>
      forall e: EngineState, call: StopCall {:trigger StopEngineBounded(e, timeout, call)} ::
        !call.throws ==> StoppedOrWedged(StopEngineBounded(e, timeout, call).0)
  {
    if timeout < LOCK_WAIT_MS {
      forall e: EngineState, call: StopCall | !call.throws
        ensures StoppedOrWedged(StopEngineBounded(e, timeout, call).0)
      {
        BoundedStopIsSafe(e, timeout, call);
      }
    } else {
      var e, call := EngineState(false, Some(0), {}), StopCall(Never, At(0), false, false);
      assert !StoppedOrWedged(StopEngineBounded(e, timeout, call).0);
    }
  }

  /** After a safe stop, Go's "already running" refusal cannot be what fails the next start. */
  lemma RestartReachesGo(e: EngineState, timeout: nat, stop: StopCall, fd: Fd, start: StartCall)
    requires timeout < LOCK_WAIT_MS && !stop.throws
    ensures var (stopped, code) := StopEngineBounded(e, timeout, stop);
      var (e', result) := StartEngine(stopped, fd, start);
      && (code == ERR_WEDGED ==> e' == stopped && result == ERR_WEDGED)
      && (code != ERR_WEDGED && GotLock(start.lockFreeAt) ==>
            result == start.code && e'.running == if start.code == 0 then Some(fd) else None)
  {
  }

  /** Go's package global, and the descriptors of instances that did not close cleanly. */
  class GoCore {
    var runningServer: Option<Fd>
    var lingering: set<Fd>

    constructor ()
      ensures runningServer == None && lingering == {}
    {
      runningServer, lingering := None, {};
    }

    method StartXray(tunFd: Fd, loadAndStart: int) returns (code: int)
      modifies `runningServer
      ensures (runningServer, code) == GoStart(old(runningServer), tunFd, loadAndStart)
    {
      if runningServer.Some? {
        return -1;
      }
      if loadAndStart != 0 {
        return loadAndStart;
      }
      runningServer := Some(tunFd);
      return 0;
    }

    method StopXray(closeFails: bool) returns (code: int)
      modifies this
      ensures (runningServer, code) == GoStop(old(runningServer), closeFails)
      ensures lingering == old(Lingering(EngineState(false, runningServer, lingering), closeFails))
    {
      if runningServer.Some? {
        var fd := runningServer.value;
        runningServer := None;
        if closeFails {
          lingering := lingering + {fd};
          return -1;
        }
      }
      return 0;
    }
  }

  class XrayEngine {
    const go: GoCore
    var isWedged: bool

    function View(): EngineState
      reads this, go
    {
      EngineState(isWedged, go.runningServer, go.lingering)
    }

    constructor ()
      ensures View() == FRESH_ENGINE && fresh(go)
    {
      go := new GoCore();
      isWedged := false;
    }

    method Start(tunFd: Fd, call: StartCall) returns (code: int)
      modifies go
      ensures (View(), code) == StartEngine(old(View()), tunFd, call)
    {
      if isWedged {
        return ERR_WEDGED;
      }
      if !GotLock(call.lockFreeAt) {
        return ERR_BUSY;
      }
      code := go.StartXray(tunFd, call.code);
    }

    method StopBounded(timeoutMs: nat, call: StopCall) returns (code: int)
      modifies this, go
      ensures (View(), code) == StopEngineBounded(old(View()), timeoutMs, call)
    {
      if isWedged {
        return ERR_WEDGED;
      }
      if AliveAt(call, timeoutMs) {
        isWedged := true;
        return ERR_WEDGED;
      }
      code := ERR_BUSY;
      if GotLock(call.lockFreeAt) && !call.throws {
        code := go.StopXray(call.closeFails);
      }
    }
  }
}
