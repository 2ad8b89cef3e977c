/**
 * XrayStateBus: the one-shot completions that settle `startXray` and `stopXray`.
 *
 * A callback is named by a number. A start callback is named by the token handed
 * out when it was armed; a stop callback by its position in the order of arming.
 * `settledOk`, `settledFailed` and `stopsRun` record which callbacks were invoked,
 * and how often: multisets, so that a double settlement would show.
 */
module StateBus {
  import opened Options

  datatype Bus = Bus(
    pendingStart: Option<nat>,
    pendingStartToken: nat,
    startTokenSeq: nat,
    pendingStop: Option<nat>,
    stopsArmed: nat,
    settledOk: multiset<nat>,
    settledFailed: multiset<nat>,
    stopsRun: multiset<nat>)

  const EMPTY_BUS := Bus(None, 0, 0, None, 0, multiset{}, multiset{}, multiset{})

  /** setPendingStart: arm the next token, settling a start still pending as superseded. */
  function Arm(b: Bus): Bus {
    b.(pendingStart := Some(b.startTokenSeq + 1),
       pendingStartToken := b.startTokenSeq + 1,
       startTokenSeq := b.startTokenSeq + 1,
       settledFailed := if b.pendingStart.Some? then b.settledFailed + multiset{b.pendingStart.value}
                        else b.settledFailed)
  }

  /** resolveStart: settle the armed start, but only for a caller presenting its token. */
  function Resolve(b: Bus, token: nat, success: bool): Bus {
    if b.pendingStart.Some? && token == b.pendingStartToken then
      b.(pendingStart := None,
         pendingStartToken := 0,
         settledOk := if success then b.settledOk + multiset{b.pendingStart.value} else b.settledOk,
         settledFailed := if success then b.settledFailed else b.settledFailed + multiset{b.pendingStart.value})
    else b
  }

  /** setPendingStop: the newest caller takes the slot, the previous one is released. */
  function ArmStop(b: Bus): Bus {
    b.(pendingStop := Some(b.stopsArmed + 1),
       stopsArmed := b.stopsArmed + 1,
       stopsRun := if b.pendingStop.Some? then b.stopsRun + multiset{b.pendingStop.value} else b.stopsRun)
  }

  /** resolveStop: run whatever stop callback is in the slot. */
  function ResolveStop(b: Bus): Bus {
    b.(pendingStop := None,
       stopsRun := if b.pendingStop.Some? then b.stopsRun + multiset{b.pendingStop.value} else b.stopsRun)
  }

  /** In how many places start `t` is accounted for: still armed, resolved, rejected. */
  ghost function StartPlaces(b: Bus, t: nat): nat {
    (if b.pendingStart == Some(t) then 1 else 0) + b.settledOk[t] + b.settledFailed[t]
  }

  ghost function StopPlaces(b: Bus, t: nat): nat {
    (if b.pendingStop == Some(t) then 1 else 0) + b.stopsRun[t]
  }

  /** Every armed callback is in exactly one place, and nothing else was ever invoked. */
  ghost predicate BusInv(b: Bus) {
    && b.pendingStartToken == (if b.pendingStart.Some? then b.pendingStart.value else 0)
    && (forall t: nat :: StartPlaces(b, t) == if 1 <= t <= b.startTokenSeq then 1 else 0)
    && (forall t: nat :: StopPlaces(b, t) == if 1 <= t <= b.stopsArmed then 1 else 0)
  }

  lemma ArmKeeps(b: Bus)
    requires BusInv(b)
    ensures BusInv(Arm(b))
  {
    var b' := Arm(b);
    forall t: nat ensures StartPlaces(b', t) == if 1 <= t <= b'.startTokenSeq then 1 else 0 {
      assert StartPlaces(b, t) == if 1 <= t <= b.startTokenSeq then 1 else 0;
    }
    forall t: nat ensures StopPlaces(b', t) == StopPlaces(b, t) {}
  }

  lemma ResolveKeeps(b: Bus, token: nat, success: bool)
    requires BusInv(b)
    ensures BusInv(Resolve(b, token, success))
  {
    var b' := Resolve(b, token, success);
    forall t: nat ensures StartPlaces(b', t) == StartPlaces(b, t) {}
    forall t: nat ensures StopPlaces(b', t) == StopPlaces(b, t) {}
  }

  lemma StopOpsKeep(b: Bus)
    requires BusInv(b)
    ensures BusInv(ArmStop(b)) && BusInv(ResolveStop(b))
  {
    var armed, resolved := ArmStop(b), ResolveStop(b);
    forall t: nat ensures StartPlaces(armed, t) == StartPlaces(b, t) == StartPlaces(resolved, t) {}
    forall t: nat
      ensures StopPlaces(armed, t) == if 1 <= t <= armed.stopsArmed then 1 else 0
      ensures StopPlaces(resolved, t) == StopPlaces(b, t)
    {
      assert StopPlaces(b, t) == if 1 <= t <= b.stopsArmed then 1 else 0;
    }
  }

  /**
   * A token captured before a newer start was armed settles nothing afterwards, and a
   * token settles at most the start it names: the reason a STOP queued behind a slow
   * START cannot reject a start armed later.
   */
  lemma StaleTokenIsInert(b: Bus, token: nat, success: bool)
    requires BusInv(b) && token <= b.startTokenSeq
    ensures Resolve(Arm(b), token, success) == Arm(b)
    ensures forall t: nat :: t != token ==>
      var b' := Resolve(b, token, success);
      (b'.settledOk[t] == b.settledOk[t] && b'.settledFailed[t] == b.settledFailed[t])
    ensures Resolve(b, token, success).pendingStart != Some(token) || token == 0
  {
    assert StartPlaces(b, 0) == 0;
  }

  /** The object itself: its fields swapped in place, each method atomic under its lock. */
  class XrayStateBus {
    var pendingStart: Option<nat>
    var pendingStartToken: nat
    var startTokenSeq: nat
    var pendingStop: Option<nat>
    var stopsArmed: nat
    // the callbacks invoked so far
    var settledOk: multiset<nat>
    var settledFailed: multiset<nat>
    var stopsRun: multiset<nat>

    function View(): Bus
      reads this
    {
      Bus(pendingStart, pendingStartToken, startTokenSeq, pendingStop, stopsArmed, settledOk, settledFailed, stopsRun)
    }

    constructor ()
      ensures View() == EMPTY_BUS
    {
      pendingStart, pendingStartToken, startTokenSeq, pendingStop := None, 0, 0, None;
      stopsArmed, settledOk, settledFailed, stopsRun := 0, multiset{}, multiset{}, multiset{};
    }

    /** The token names the armed start, and is 0 exactly when none is armed. */
    method CurrentStartToken() returns (token: nat)
      requires BusInv(View())
      ensures token == View().pendingStartToken
      ensures token != 0 <==> View().pendingStart.Some?
      ensures token != 0 ==> View().pendingStart == Some(token)
      ensures token <= View().startTokenSeq
    {
      assert StartPlaces(View(), 0) == 0;
      if pendingStart.Some? {
        assert StartPlaces(View(), pendingStart.value) == 1;
      }
      token := pendingStartToken;
    }

    method SetPendingStart() returns (token: nat)
      modifies this
      ensures View() == Arm(old(View()))
      ensures token == old(View()).startTokenSeq + 1 && View().pendingStart == Some(token)
    {
      var previous := pendingStart;
      startTokenSeq := startTokenSeq + 1;
      token := startTokenSeq;
      pendingStart := Some(token);
      pendingStartToken := token;
      if previous.Some? {
        settledFailed := settledFailed + multiset{previous.value};
      }
    }

    method ResolveStart(token: nat, success: bool)
      modifies this
      ensures View() == Resolve(old(View()), token, success)
    {
      var cb: Option<nat> := None;
      if pendingStart.Some? && token == pendingStartToken {
        cb := pendingStart;
        pendingStart := None;
        pendingStartToken := 0;
      }
      if cb.Some? {
        if success {
          settledOk := settledOk + multiset{cb.value};
        } else {
          settledFailed := settledFailed + multiset{cb.value};
        }
      }
    }

    method SetPendingStop()
      modifies this
      ensures View() == ArmStop(old(View()))
    {
      var previous := pendingStop;
      stopsArmed := stopsArmed + 1;
      pendingStop := Some(stopsArmed);
      if previous.Some? {
        stopsRun := stopsRun + multiset{previous.value};
      }
    }

    method ResolvePendingStop()
      modifies this
      ensures View() == ResolveStop(old(View()))
    {
      var cb := pendingStop;
      pendingStop := None;
      if cb.Some? {
        stopsRun := stopsRun + multiset{cb.value};
      }
    }
  }
}
