# Verified model of the VPN client

This project models three parts of a React Native VPN client built on xray-core and proves what
they are there to guarantee.

**The Android VPN command protocol.** START, STOP and REVOKE commands and the destruction of the
service are numbered on the main thread; each spawns a worker that contends for `engineLock` in any
order. The workers stop and start an engine whose stop has a deadline, establish, reuse, close or
park TUN descriptors, hold the tunnel when the kill switch is on, emit states, and settle the
one-shot completions behind `startXray` and `stopXray`.
`Protocol.dfy` is the transition system: `Step` lists who can move (a JS call, an intent being
delivered, the main thread inside a handler, a worker taking the lock, the lock holder, a late Go
call), and `Advance` cuts `runStart`, `handleStartFailure`, the teardowns and the reports into 39
stages. A stage makes at most one access to what another thread may read or write at that moment;
a field that only lock holders touch may be accessed along with it. The engine, `establish()` and
the bypass may succeed, fail or hang at will. A run is any sequence of enabled steps from `INIT`, so
every theorem about runs is about all interleavings, and holds between any two accesses.

- `StateBus.dfy`, `Engine.dfy`: the completion slots and the engine wrapper with its Go global,
  each as a transition function and as the class whose methods perform it.
- `Tunnel.dfy`: the descriptor and flag invariant, and what follows from it.
- `FailingClose.dfy`: runs in which a descriptor is closed that is still in use.
- `Promises.dfy`, `StopPromises.dfy`: who settles which completion, that none is left hanging, and
  what it means that a stop completion is run.
- `Ownership.dfy`: whose connection resolves a start.
- `StateReports.dfy`: the last emitted state is true, and the newest STOP wins.
- `Tenure.dfy`: what happens while one worker holds the lock, move by move. `FailedStart.dfy`,
  `LateDestroy.dfy`: exactly when a START that fails holds the tunnel, exactly when one whose engine has
  come up connects, and what each does otherwise.
- `Destroyed.dfy`: a destroyed service goes down and stays down. `LastWord.dfy`: what it has said last.
- `Continuity.dfy`: the fail-closed kill switch, and one descriptor across server switches.
- `Revoked.dfy`: what the mark on a revoked tunnel achieves, and when it fails.
- `Undisturbed.dfy`: from every state at rest, a start or a stop that nothing interferes with runs
  to its end. Together with the safety theorems: the protocol does what it is for, and the states
  they speak of are reached.
- `Interference.dfy`, `VpnService.dfy`: the service as a class, its commands as straight-line code with
  the accesses in the order of the Kotlin code. Every access first lets the other threads make any
  steps they can, and is proved to be the step the protocol makes at that point, so each command is
  a run of the protocol.

**Subscription decoding.** The parsers and decoders of share links, with encoders and printers
written from the standards as their reference: base64 (RFC 4648), UTF-8 (section 3 of RFC 3629),
UTF-16 (section 2.1 of RFC 2781), percent-encoding as `encodeURIComponent` does it, and share links
with a registered name or an IP literal as host (section 3.2.2 of RFC 3986).

- `Text.dfy`: JavaScript strings as sequences of UTF-16 code units.
- `Base64.dfy`, `Utf8.dfy`, `Percent.dfy`: the three decoders, each proved to undo its encoder.
- `ShareLink.dfy`: the link parsers. `Profiles.dfy`: vless and trojan links there and back.
- `Shadowsocks.dfy`: the two forms of a Shadowsocks link. `PercentForm.dfy`: its percent-encoded user info.
- `Subscription.dfy`, `Payloads.dfy`: whole subscriptions, as text and in base64.

**Small stateful pieces.** `Session.dfy` is the traffic accounting over engine restarts,
`Metering.dfy` drives it by runs of the command protocol and says exactly when the total is right,
`Punctual.dfy` and `Overlaps.dfy` give conditions on the replies and on the commands that are enough,
`WrongTotals.dfy` has the runs in which it is wrong. `UrlTest.dfy` is the probing pool and its
ranking, `SerialLock.dfy` the promise chain that serializes engine operations, modelled down to the
job queue that runs promise reactions.

## What the model assumes

- One service instance. `engineLock` belongs to the instance, `isRunning` and `isEngineRunning` do not.
- `commandSeq` is incremented atomically and does not wrap around at 2^31.
- Every START carries a config; a START without one is left out (see below).
- Parking a descriptor never fails, and the native `stop` call does not throw. `BoundedStopIsSafe`
  states what a throwing one would break.
- An instance whose `Close` reported an error may go on using its descriptor, although Go has
  forgotten it: such descriptors are tracked. A start of the engine that fails keeps no reference.
- In `stopEngineBounded` the `join` and the helper thread's wait for the lock begin at the same instant.
- Nothing throws after the engine has started (the quick-connect save, the notification update).
- Leaving the lock and starting a thread happen in the step of the access in front of them, and a
  completion is invoked in the step that takes it out of its slot. The system takes away the
  interface it set up last in the step in which `onRevoke` bumps the sequence.
- In `Metering.dfy` and the modules on it a traffic session is there from the first command on and
  hears each state when it is emitted. `getStats` reads the engine flag and the counters in one step;
  its reply reaches the session in another, at any later time, in any order, or never. The resets
  that the app makes with the tunnel down are left out: a reset begins a new account.
- JavaScript numbers are exact (below 2^53) and `concurrency` is an integer. `Array.prototype.sort`
  returns some permutation sorted by the comparator, as ECMAScript demands for a consistent one.
- In the lock model the promise that an operation returns is adopted in the step that settles it.
- Percent-decoding follows ECMAScript: an escape that is not valid UTF-8 is an error, and then
  the text stays as it is. Lower-casing a scheme is the ASCII one, which is all that the four schemes need.
- The vmess JSON reader is a parameter: what is proved holds whatever it answers.

## Where the code and its comments disagree

- `stopEngineBounded` is documented to release the caller with the engine stopped or wedged. It can
  also return `ERR_BUSY` with a live engine when the deadline is not below the lock wait of the
  helper thread. `SafeDeadlines` proves that the guarantee holds for every call exactly when the
  deadline is below the lock wait, which it is (2500 ms against 3000 ms).
- `dropTunnel` must run after the engine has let go of the descriptor. It also closes one when the
  stop returned an error, which the service ignores. `ClosesInUse` is such a run, a single STOP from
  any connected state at rest; `ClosedWhileInUse` gives the exact condition for a descriptor in use
  being closed, and `InUseNeverClosed` says that it takes a `Close` that fails.
- `startXray` is documented to report the real result of its own start. A START takes along whatever
  token is armed when it is dispatched, so a widget's or another caller's connection can resolve it,
  before its intent is sent (`ResolvedBeforeSent`) or while its own worker waits for the lock
  (`ResolvedByOvertaking`). `WhoCaptures` says exactly when, `SuccessIsReal` what success then means.
- `stopXray` is documented to resolve when the tunnel is down. `WhoReleases` says exactly which steps
  run a stop completion. At the end of a teardown the tunnel is down (`ReleasedMeansDown`); a newer
  stop, a superseded STOP and the report of a destroy run whatever completion is in the slot.
  `StaleStopReleasesNewer`: of two calls the second is resolved by the stale worker of the first, with
  the tunnel up and its own STOP still queued.
- `onDestroy` is documented to surface a disconnected state. A START that has looked for a destroy and
  not reported yet reports 'connected' behind it, resolves its promise, and is then torn down in
  silence: `DestroyLeavesConnected`, from every state at rest. With no START under way the last report
  is true (`QuietDestroyIsTold`).
- A revoked descriptor is documented never to be reused. It is when the revoke lands between
  `establish()` and the clearing of the mark: `RevokedTunnelReused` is such a run, `ForgivenExactly`
  and `ConnectedOverRevoked` say exactly when it happens.
- A restart between two accepted samples that is neither committed nor visible as a counter going
  backwards is lost to the traffic total (`OvertakenRestartIsLost`), and a commit without a restart
  counts samples twice (`IdleCommitOvercounts`). `ExactAccounting` states both amounts, for every
  sequence of events and samples in any order.
- The state hook is documented to bank a switch exactly. `AlwaysExactIff` says exactly when the total
  is right all along a run of the protocol, and `InOrderExactIff` says it as two guards. It is right
  for one START at a time with prompt replies (`QuietIsExact`). When a START is delivered while an
  older command has yet to report, that report lifts the freeze, and a sample taken then is counted
  twice (`OverlapDoubles`). So is a sample whose reply is overtaken by a terminal state, because
  `stats()` waits for `getStats` in between (`LateReplyDoubles`).
- Shadowsocks user info is documented as base64 that "some emitters percent-encode". The
  percent-encoded form is tried as base64 first and may yield another pair, and that concerns
  ordinary credentials: `PercentFormExactly` gives the exact condition, `PercentFormCanMislead`
  shows it for every aes-128-gcm password that starts with "jo".
- The two forms of a Shadowsocks link differ in what they accept: an empty method makes a server in the
  legacy form only (`EmptyMethodIsLegacyOnly`). A path behind the port is dropped for vless and trojan;
  in a Shadowsocks link it is harmless exactly when it has no ':' (`PathHarmlessExactly`).
- Wrapping a text in base64 keeps its meaning when the text contains a link, and not when the text
  is itself the base64 form of a list of servers (`WrappedTwiceIsLost`). `LinksWrappingExactly` gives
  the exact condition.

## Model

| member | source | states |
|---|---|---|
| StateBus.ArmKeeps | android/src/main/java/com/nitroxraycore/XrayStateBus.kt:86-97 | Arming a start settles the one still pending as superseded, so that every token dealt stays in exactly one place: armed, resolved or rejected |
| StateBus.ResolveKeeps | android/src/main/java/com/nitroxraycore/XrayStateBus.kt:104-114 | Settling with any token keeps every callback in exactly one place: none is invoked twice or lost |
| StateBus.StopOpsKeep | android/src/main/java/com/nitroxraycore/XrayStateBus.kt:117-139 | The same for arming and releasing stop callbacks |
| StateBus.StaleTokenIsInert | android/src/main/java/com/nitroxraycore/XrayStateBus.kt:99-114 | A token captured before a newer start was armed settles nothing, and a token settles no start but the one it names |
| StateBus.XrayStateBus.CurrentStartToken | android/src/main/java/com/nitroxraycore/XrayStateBus.kt:79 | What a worker takes along names the armed start: the token is non-zero if and only if a start is armed, it is then that start, and no token read is larger than those dealt so far |
| StateBus.XrayStateBus.SetPendingStart | android/src/main/java/com/nitroxraycore/XrayStateBus.kt:86-97 | Performs the arming transition in place and returns the fresh token |
| StateBus.XrayStateBus.ResolveStart | android/src/main/java/com/nitroxraycore/XrayStateBus.kt:104-114 | Performs the settling transition in place |
| StateBus.XrayStateBus.SetPendingStop | android/src/main/java/com/nitroxraycore/XrayStateBus.kt:117-125 | The newest caller takes the slot, the previous one is released |
| StateBus.XrayStateBus.ResolvePendingStop | android/src/main/java/com/nitroxraycore/XrayStateBus.kt:132-139 | Runs the callback in the slot and empties it |
| Engine.BoundedStopIsSafe | android/src/main/java/com/nitroxraycore/XrayEngine.kt:115-147 | With a deadline below the lock wait a stop returns with the engine stopped or marked wedged, whatever the timing, and the result code tells which; only a throwing native call escapes this |
| Engine.WedgesExactly | android/src/main/java/com/nitroxraycore/XrayEngine.kt:125-147 | A stop wedges a live engine if and only if waiting for the lock and the native call together outlast the deadline; one in time stops Go for good, whatever Close reports |
| Protocol.DeadlineIsKept | android/src/main/java/com/nitroxraycore/XrayVpnService.kt:117-118 | With the service's deadline: a native stop that returns within 2500 ms wedges nothing and leaves the engine stopped |
| Engine.StartWaits | android/src/main/java/com/nitroxraycore/XrayEngine.kt:105-113 | A start waits 3000 ms for the lock and no longer; with the lock, a running instance refuses it and anything else is what loading and starting yields |
| Engine.SafeDeadlines | android/src/main/java/com/nitroxraycore/XrayEngine.kt:125-147 | That guarantee holds for every call if and only if the deadline is below the lock wait |
| Engine.RestartReachesGo | android/src/main/java/com/nitroxraycore/XrayEngine.kt:105-147 | After a bounded stop the next start is refused as wedged or reaches Go on the given descriptor; "already running" cannot be what fails it |
| Engine.GoCore.StartXray | go-core/libxray/main.go:50-91 | Refuses a second instance, and keeps one only when loading, building and starting all succeed |
| Engine.GoCore.StopXray | go-core/libxray/main.go:94-105 | Forgets the instance even when closing it fails |
| Engine.XrayEngine.Start | android/src/main/java/com/nitroxraycore/XrayEngine.kt:105-113 | A wedged engine never reaches Go, a busy one answers busy, anything else is Go's answer |
| Engine.XrayEngine.StopBounded | android/src/main/java/com/nitroxraycore/XrayEngine.kt:125-147 | Stops Go, or marks the engine wedged when the helper thread is alive at the deadline |
| Tunnel.StepKeeps | android/src/main/java/com/nitroxraycore/XrayVpnService.kt:146-640 | Every step of every thread keeps the descriptor, flag and engine invariant |
| Tunnel.DescriptorsConserved | android/src/main/java/com/nitroxraycore/XrayVpnService.kt:291-313 | In every run, whenever the lock is free, each descriptor ever established is exactly one of: the current tunnel, closed exactly once, parked for good |
| Tunnel.FlagsAgree | android/src/main/java/com/nitroxraycore/XrayVpnService.kt:502-506 | At every instant of every run `isEngineRunning` implies a live engine on the current tunnel, and the resolvers published are those the tunnel was built with; a live engine implies the flag or wedged except in three named moments, `isRunning` is "there is a tunnel" except in three others. With the lock free there is no exception |
| Tunnel.ClosedWhileInUse | go-core/libxray/main.go:94-105 | At every instant of every run: a descriptor that something inside Go may still use has been closed if and only if the Close of an instance on it reported an error and it has since left the tunnel without being parked; the one Go knows of is never closed |
| FailingClose.ClosesInUse | android/src/main/java/com/nitroxraycore/XrayVpnService.kt:565-569 | From every state at rest with a live engine on the tunnel there is a run, a single STOP whose Close reports an error, after which the descriptor has been closed and may still be used from inside Go |
| FailingClose.FirstDisconnectClosesInUse | go-core/libxray/main.go:94-105 | Such a state is reached from the beginning: connect, disconnect, and the one Close fails |
| Tunnel.InUseNeverClosed | android/src/main/java/com/nitroxraycore/XrayVpnService.kt:482-516 | So in every run in which no Close fails, no descriptor in use has been closed, at any instant |
| Tunnel.ReleasedOnlyWhenSafe | android/src/main/java/com/nitroxraycore/XrayVpnService.kt:510-516 | A step closes a descriptor only with the engine stopped, and parks one only with the engine wedged |
| Tunnel.InstalledBeforeClosed | android/src/main/java/com/nitroxraycore/XrayVpnService.kt:297-304 | On a change of resolvers the new interface is installed before the old one is closed, and the old one is then closed exactly once |
| Tunnel.WedgedForGood | android/src/main/java/com/nitroxraycore/XrayEngine.kt:105-147 | From a wedged state on, in every run, no start reaches Go, no descriptor is closed, and the engine flag stays false |
| Promises.SettledAtMostOnce | android/src/main/java/com/margelo/nitro/nitroxraycore/HybridNitroXrayCore.kt:183-202 | In every run each armed start and each armed stop is settled at most once, and nothing that was not armed is |
| Promises.NoStartLeftHanging | android/src/main/java/com/nitroxraycore/XrayVpnService.kt:163-240 | With no start intent undelivered and no START alive, every start ever armed has been settled exactly once |
| Promises.WhoSettles | android/src/main/java/com/nitroxraycore/XrayVpnService.kt:165-180 | Only a newer start, the caller's own failure to send, or a worker that captured exactly this token settles a start |
| Promises.LaterStartsAreSafe | android/src/main/java/com/nitroxraycore/XrayVpnService.kt:166-169 | A worker never settles a start armed after that worker was dispatched, whatever happens in between |
| StopPromises.NoStopLeftHanging | android/src/main/java/com/margelo/nitro/nitroxraycore/HybridNitroXrayCore.kt:220-255 | With no STOP unsent, undelivered or alive, every stop completion ever armed has been run exactly once, unless its own call could not send the STOP |
| StopPromises.WhoReleases | android/src/main/java/com/nitroxraycore/XrayStateBus.kt:117-139 | A step runs a stop completion if and only if that is the one in the slot and the step arms a newer stop, is a superseded STOP giving up, the end of a STOP or a revoke, or the report of a destroy |
| StopPromises.ReleasedMeansDown | android/src/main/java/com/margelo/nitro/nitroxraycore/HybridNitroXrayCore.kt:231-238 | In every run: when the end of a STOP or a revoke runs a completion, the tunnel is gone, both flags are down and the engine is stopped or wedged; no other step but those three runs one |
| StopPromises.StaleStopReleasesNewer | android/src/main/java/com/nitroxraycore/XrayVpnService.kt:170-179 | From every state at rest: two calls of `stopXray`, and the completion of the second is run by the superseded worker of the first, with tunnel, engine and flag untouched and its own STOP still queued |
| Ownership.WhoCaptures | android/src/main/java/com/nitroxraycore/XrayVpnService.kt:226-229 | A START that can resolve start t was spawned while t was armed, and from another intent than t's own if and only if at that moment another intent was being handled |
| Ownership.SuccessIsReal | android/src/main/java/com/nitroxraycore/XrayVpnService.kt:351-372 | When `startXray` resolves, the engine is live on the current tunnel, which has the resolvers of the START that resolves it. That is the caller's own START, with the resolvers it was sent with, unless that START was spawned from another intent while the start was armed; so always when nobody interfered |
| Ownership.ResolvedBeforeSent | android/src/main/java/com/margelo/nitro/nitroxraycore/HybridNitroXrayCore.kt:183-198 | From every state at rest of a live service: a start can be resolved over a widget's resolvers before its own intent has been sent |
| Ownership.ResolvedByOvertaking | android/src/main/java/com/nitroxraycore/XrayVpnService.kt:226-240 | The same with the start's own intent delivered and its worker still waiting for the lock |
| StateReports.LastReportIsTrue | android/src/main/java/com/nitroxraycore/XrayVpnService.kt:163-434 | In every run without a destroy, once no worker is left: the last state is 'connected' iff tunnel and engine are up, 'blocked' iff only the tunnel is, 'disconnected' or 'error' (or nothing yet) iff there is no tunnel |
| StateReports.ReportStep | android/src/main/java/com/nitroxraycore/XrayVpnService.kt:146-434 | Every step keeps the key invariant: a change that has not been reported has a current command or a revoke still to come |
| StateReports.NewestStopWins | android/src/main/java/com/nitroxraycore/XrayVpnService.kt:163-191 | Once the worker of the newest command, a STOP, has dropped the tunnel, tunnel and both flags are down, and they stay so through any later run until another START is dispatched |
| Continuity.KillSwitchFailsClosed | android/src/main/java/com/nitroxraycore/XrayVpnService.kt:403-434 | While the kill switch stays on and there is no revoke and no destroy, an established tunnel is there at every instant until a STOP that is still the newest command gets the lock |
| Continuity.SwitchKeepsTunnel | android/src/main/java/com/nitroxraycore/XrayVpnService.kt:274-304 | Any run of STARTs with the same resolvers and no stop, revoke, destroy or failure teardown keeps one descriptor, at every instant |
| Undisturbed.UndisturbedStart | android/src/main/java/com/nitroxraycore/XrayVpnService.kt:229-377 | From every state at rest of a live service with an engine that is not wedged, `startXray` can run to its end: 'connected' is emitted, its promise resolves, the engine is live on a tunnel with the resolvers asked for, the same one if it could be reused, else a new one with the old one closed |
| Undisturbed.UndisturbedStop | android/src/main/java/com/nitroxraycore/XrayVpnService.kt:163-192 | From every state at rest, a wedged engine included, `stopXray` can run to its end: the tunnel is gone, 'disconnected' is emitted, its promise settles, no start is left pending, and the descriptor is closed, or parked when the engine is wedged |
| FailedStart.FailsExactly | android/src/main/java/com/nitroxraycore/XrayVpnService.kt:257-349 | A START reaches `handleStartFailure` if and only if the old engine wedges, no interface is granted, the bypass of a quick start does not start, or the engine does not |
| FailedStart.HoldsExactly | android/src/main/java/com/nitroxraycore/XrayVpnService.kt:417-434 | In every run, for every such failure: the START holds the tunnel if and only if, at its next three looks, the kill switch is on with a tunnel there, that is not marked as revoked, and the service is not destroyed. Then it reports 'blocked', once, and tunnel and engine stay as they are; else it reports 'error', once, and everything is down, the descriptor closed, or parked if the engine is wedged, exactly once. Either way its start is settled and none with success |
| LateDestroy.ConnectsExactly | android/src/main/java/com/nitroxraycore/XrayVpnService.kt:351-372 | In every run, for every START whose engine has come up: it reports 'connected' if and only if, when it looks again, it is still the newest command and then the service is not destroyed; only then it resolves a start, the one it took along if that is armed still. One that finds the service destroyed leaves everything down, any other leaves the engine up, and both report nothing |
| LateDestroy.ConnectedOnlyAlive | android/src/main/java/com/nitroxraycore/XrayVpnService.kt:356-372 | In every run: whoever reports 'connected' or resolves a start has looked for a destroy since its engine came up on the tunnel, and found none |
| LateDestroy.DestroyedMidStart | android/src/main/java/com/nitroxraycore/XrayVpnService.kt:308-313 | A START that has its tunnel and finds the service destroyed reports nothing, leaves everything down and settles its start, not with success |
| Destroyed.DestroyedIsDown | android/src/main/java/com/nitroxraycore/XrayVpnService.kt:711-738 | In every run, once onDestroy has spawned its thread and that has torn down: whenever the lock is free there is no tunnel, both flags are down and the engine is stopped or wedged, however many STARTs come later; and no lock holder is about to report 'connected' or 'blocked' |
| Destroyed.DestroyTells | android/src/main/java/com/nitroxraycore/XrayVpnService.kt:721-735 | In every run: onDestroy reports 'disconnected' if and only if it has seen `isRunning` up at its first look, or the tunnel at the second |
| Destroyed.DestroyReportsDown | android/src/main/java/com/nitroxraycore/XrayVpnService.kt:722-728 | When onDestroy's thread runs the stop completion its teardown is over, and if the lock is free then everything is down |
| LastWord.QuietDestroyIsTold | android/src/main/java/com/nitroxraycore/XrayVpnService.kt:711-738 | In every run in which no START is under way when the service is destroyed and none is taken up after that: once no worker is left everything is down and the last report says so, whatever STOPs and revokes the destroy runs into |
| LastWord.DestroyLeavesConnected | android/src/main/java/com/nitroxraycore/XrayVpnService.kt:356-372 | From every state at rest of a live service: a run in which a destroy lands between a START's second look and its report, and which ends at rest with everything down, the promise resolved and 'connected' the last report |
| Revoked.ForgivenExactly | android/src/main/java/com/nitroxraycore/XrayVpnService.kt:472-479 | A tunnel counts as forgiven if and only if some step cleared the mark on its behalf after the system had taken it away and every revoke had been noted |
| Revoked.ConnectedOverRevoked | android/src/main/java/com/nitroxraycore/XrayVpnService.kt:284-292 | A START that passes its last sequence check is up on a tunnel the system has taken away if and only if that tunnel had been forgiven: its mark was cleared after its revoke |
| Revoked.RevokedTunnelReused | android/src/main/java/com/nitroxraycore/XrayVpnService.kt:59-65 | From every state at rest without a tunnel to reuse: a run in which a revoke lands before the mark is cleared, and the next START reports 'connected' over the revoked tunnel |
| Interference.OthersGoOn | android/src/main/java/com/nitroxraycore/XrayVpnService.kt:229-240 | What a thread can rely on however long the others go on: the lock holder on lock, tunnel and engine, the main thread on its sequence number and the intents it has not taken, a caller on its completion; and a settled start stays settled |
| VpnService.XrayVpnService.RunStart | android/src/main/java/com/nitroxraycore/XrayVpnService.kt:249-377 | The straight-line code, with any steps of other threads in front of every access: each access is the protocol's step at that point, the start taken along is settled on every path, and an engine that is up at the end is live on a tunnel with the worker's resolvers. It has reported 'connected' only if it saw the service alive with its engine up on the tunnel; on a service destroyed before, it reports no 'connected' and leaves everything down |
| VpnService.XrayVpnService.HandleStartFailure | android/src/main/java/com/nitroxraycore/XrayVpnService.kt:417-434 | A tunnel is held only if the kill switch was seen on, a tunnel there, no mark on it and the service alive, and then 'blocked' was emitted; else one of these was seen otherwise, 'error' was emitted and everything is down. The start is settled either way, and on a service destroyed before nothing is held |
| VpnService.XrayVpnService.Teardown | android/src/main/java/com/nitroxraycore/XrayVpnService.kt:635-640 | Engine first, descriptor after: tunnel and both flags are down and the engine is stopped or wedged when it ends, whatever the others do meanwhile |
| VpnService.XrayVpnService.SetupVpn | android/src/main/java/com/nitroxraycore/XrayVpnService.kt:472-479 | Resolvers and tunnel, then the cleared mark, then `isRunning`: the order of the protocol, with the replaced descriptor still open |
| VpnService.XrayVpnService.StartThread | android/src/main/java/com/nitroxraycore/XrayVpnService.kt:229-240 | A superseded START leaves tunnel and engine untouched; in any case the start it took along is settled when it leaves the lock |
| VpnService.XrayVpnService.StopThread | android/src/main/java/com/nitroxraycore/XrayVpnService.kt:170-191 | A superseded STOP leaves tunnel and engine untouched; any other ends with everything down and the start it preempts settled; in both cases no stop completion is pending |
| VpnService.XrayVpnService.RevokeThread | android/src/main/java/com/nitroxraycore/XrayVpnService.kt:393-400 | Never superseded: everything is down and no stop completion is pending when it leaves the lock |
| VpnService.XrayVpnService.DestroyThread | android/src/main/java/com/nitroxraycore/XrayVpnService.kt:722-728 | There is a moment at which it has left the lock with tunnel, both flags and engine down; the stop completion is run after that, when the lock may be somebody else's |
| VpnService.XrayVpnService.OnStopAction | android/src/main/java/com/nitroxraycore/XrayVpnService.kt:163-190 | Number, token, 'disconnecting', worker, with interference between them: the spawned worker has the newest number |
| VpnService.XrayVpnService.OnStartAction | android/src/main/java/com/nitroxraycore/XrayVpnService.kt:225-240 | 'connecting', number, token, worker: the spawned worker has the newest number, the intent's resolvers, and the token of whatever start is armed at that moment, 0 if none is |
| VpnService.XrayVpnService.OnRevoke | android/src/main/java/com/nitroxraycore/XrayVpnService.kt:384-400 | The sequence is bumped first: there is a moment at which it has been and this revoke has neither marked the tunnel nor started its thread; at the end it has done both, and the thread has the newest number |
| VpnService.XrayVpnService.OnDestroy | android/src/main/java/com/nitroxraycore/XrayVpnService.kt:711-735 | The destroyed mark is set, and there is a moment at which the thread that tears down has been spawned, whatever was seen; 'disconnected' is emitted when `isRunning` or the tunnel field was seen up on the way, and otherwise each was seen down |
| VpnService.XrayVpnService.StartXray | android/src/main/java/com/margelo/nitro/nitroxraycore/HybridNitroXrayCore.kt:173-203 | A start is armed before its intent is sent; when the intent cannot be sent the start is settled |
| VpnService.XrayVpnService.StopXray | android/src/main/java/com/margelo/nitro/nitroxraycore/HybridNitroXrayCore.kt:220-250 | A stop completion is armed before the intent is sent, and left in the slot when it cannot be |
| VpnService.XrayVpnService.CommandsAreRuns | android/src/main/java/com/nitroxraycore/XrayVpnService.kt:146-738 | Between any two points of the object's history lies a run of the protocol from the one state to the other, so the theorems about runs hold of every command above |
| Base64.Base64ToBytes | src/subscription/base64.ts:20-43 | The loop with its pre-sized buffer and its never-masked 32-bit accumulator computes the bytes of the specification; no write leaves the buffer |
| Base64.WrappedAccumulator | src/subscription/base64.ts:30-39 | Although the accumulator wraps at 32 bits, the pending bits and each byte taken are those of the exact value |
| Base64.DecodeUndoesEncode | src/subscription/base64.ts:20-43 | For every byte sequence: its encoding in the standard or the URL-safe alphabet, padded or not, with white space anywhere, decodes to those bytes |
| Utf8.Utf8Decode | src/subscription/base64.ts:51-85 | The loop ends on every byte string, truncated ones included, and computes the specification |
| Utf8.Utf8ToUtf16 | src/subscription/base64.ts:51-85 | For every sequence of Unicode scalar values: decoding its UTF-8 encoding yields its UTF-16 form, surrogate pairs included |
| Utf8.TextArrives | src/subscription/base64.ts:46-48 | A text sent as base64 of its UTF-8 encoding, in any variant, arrives unchanged |
| Utf8.CutShortIsPadded | src/subscription/base64.ts:51-85 | A last character that is cut short is read as if the missing bytes were 0 |
| Utf8.EveryCharacterCounts | src/subscription/base64.ts:51-85 | Malformed or not, the bytes are read one character of at most four bytes after another, none depending on what follows it |
| Percent.DecodeUndoesEncode | src/subscription/parse.ts:359-365 | What `encodeURIComponent` makes of any Unicode text decodes to its UTF-16 form, and contains no delimiter of a link and no white space |
| Text.SplitUndoesJoin | src/subscription/parse.ts:309 | Splitting on a separator undoes joining texts that do not contain it |
| Text.ParseUndoesDecimal | src/subscription/parse.ts:380-387 | A printed natural number is read back, behind any white space, with the sign in front of it, and whatever follows that is no digit |
| Text.NoDigitNoNumber | src/subscription/parse.ts:380-387 | A text with no digit behind its white space and sign is read as no number |
| Percent.DecodesExactly | src/subscription/parse.ts:359-365 | A text decodes if and only if it is put together from plain characters and valid UTF-8 escaped byte by byte, in either case, no overlong form and no surrogate, and then to exactly what they mean; any other text stays as it is |
| Percent.DecodesAround | src/subscription/parse.ts:359-365 | What stands on the two sides of a character that cannot be part of an escape decodes on its own, or the whole is malformed |
| ShareLink.ParseQuery | src/subscription/parse.ts:307-317 | The loop over the pairs builds the query object of the specification, last value winning |
| ShareLink.SplitAuthorityLink | src/subscription/parse.ts:236-267 | Cutting fragment, query, user info and path off one after another computes the parts of the specification |
| ShareLink.OnlyCompleteServers | src/subscription/parse.ts:9-32 | Whatever the text, apart from vmess: a parsed server has an address, a non-zero port, a tag, and the trimmed link as its raw form |
| ShareLink.OnlyKnownSchemes | src/subscription/parse.ts:9-32 | A server comes only from a text with "://" in it and one of the four schemes in front of the first, in any case, and it is a server of that kind |
| Profiles.KeysDiffer | src/subscription/parse.ts:288-304 | No two options are looked up by the same key |
| Profiles.LastValueWins | src/subscription/parse.ts:307-317 | When an option is given twice the last value counts, an empty one as if it were not given, and no other option changes |
| Profiles.OptionsArrive | src/subscription/parse.ts:307-317 | Whatever the order in which options are printed, the query object holds exactly the options sent that are not empty, with their values |
| Profiles.AlpnArrives | src/subscription/parse.ts:367-374 | A list of trimmed, comma-free items survives being joined, split and trimmed |
| Profiles.ListArrives | src/subscription/parse.ts:367-374 | A list with white space around its items and with empty ones among them yields the others, trimmed, or nothing when there are none |
| Profiles.AuthorityArrives | src/subscription/parse.ts:236-267 | The parts of an assembled link fall apart exactly where they were joined, and whatever path stands behind the port is dropped |
| Profiles.RejectedExactly | src/subscription/parse.ts:84-112 | A vless or trojan link is no server if and only if it has no user info, no host, or no port other than 0 |
| Profiles.HostPortArrives | src/subscription/parse.ts:319-331 | A delimiter-free name or a bracketed IP literal and a decimal port come back as they were printed, whatever follows that is no digit and, behind a name, has no ':' |
| Profiles.StreamArrives | src/subscription/parse.ts:269-305 | From a query object with the options of a transport the parser makes that transport's record: sni before peer, absent and empty options undefined, defaults where nothing was sent |
| Profiles.VlessRoundTrip | src/subscription/parse.ts:84-97 | For every profile, every spelling of the scheme, every path behind the port and every order of options, the printed vless link parses to the record of that profile |
| Profiles.TrojanRoundTrip | src/subscription/parse.ts:99-112 | The same for trojan, whose security is 'tls' unless the link says otherwise |
| Shadowsocks.Sip002IsRead | src/subscription/parse.ts:184-195 | A SIP002 link with any text for host and port, in any base64 variant and with any plugin string, parses to the record of its server, or to nothing when the host read is empty or the port is zero |
| Shadowsocks.LegacyIsRead | src/subscription/parse.ts:196-208 | The same for the legacy form |
| Shadowsocks.Sip002RoundTrip | src/subscription/parse.ts:169-223 | With a name or IP literal and a decimal port spelled out, and a path such as "/" or none behind it: the link parses to exactly that server, host and port, or to nothing when the port is zero |
| Shadowsocks.LegacyRoundTrip | src/subscription/parse.ts:196-223 | The same for the legacy form |
| Shadowsocks.PathHarmlessExactly | src/subscription/parse.ts:319-331 | A path behind a registered name and its port leaves both intact if and only if it contains no ':' |
| Shadowsocks.BothFormsAgree | src/subscription/parse.ts:169-223 | Both forms of one server parse to the same server apart from the raw link |
| Shadowsocks.EmptyMethodIsLegacyOnly | src/subscription/parse.ts:184-208 | An empty method is a server in the legacy form and none in the SIP002 form |
| PercentForm.PercentFormExactly | src/subscription/parse.ts:333-343 | A link with percent-encoded user info parses to the server it was printed from if and only if that has no host or no port, or its user info, read as base64, yields no pair or the same pair |
| PercentForm.PlainPairIsRead | src/subscription/parse.ts:333-343 | User info with a plain ':' is read as the two sides decoded, or as they stand when either is malformed, unless its base64 reading is a pair |
| PercentForm.PlainFormExactly | src/subscription/parse.ts:169-223 | A link with such user info parses to the server with that pair if and only if its port is zero (and then to nothing) or the user info, read as base64, yields no pair or the same pair |
| PercentForm.PercentFormCanMislead | src/subscription/parse.ts:333-343 | For every aes-128-gcm password that starts with "jo", the link with a host and a port is read as a server with another cipher |
| Subscription.TextsAppend | src/subscription/parse.ts:41-46 | Parsing two texts joined by a newline is parsing one after the other, whatever reads the single links |
| Subscription.SubscriptionsAppend | src/subscription/parse.ts:39-47 | Two subscriptions with links in them, joined by a newline, yield both lists of servers |
| Subscription.LinksAreNotBase64 | src/subscription/base64.ts:92-96 | A text that contains "://" is never taken for base64, whatever white space surrounds it |
| Subscription.WrappedIsRecognized | src/subscription/base64.ts:92-96 | The base64 form of a non-empty text is always taken for base64 |
| Subscription.WrappingKeepsMeaning | src/subscription/parse.ts:39-47 | Parsing the base64 form of a text that contains "://" equals parsing the text, in every variant and line breaking |
| Subscription.WrappingExactly | src/subscription/parse.ts:39-47 | Wrapping keeps the meaning of a non-empty text if and only if the text contains "://", or is not taken for base64, or what it is the base64 form of yields no server |
| Subscription.LinksWrappingExactly | src/subscription/parse.ts:39-47 | The same for the reader of share links: wrapping changes the meaning exactly of a text without "://" that is itself the base64 form of a text with servers |
| Payloads.PlainSubscription | src/subscription/parse.ts:39-47 | A text of printed vless, trojan and Shadowsocks links mixed with lines that are no link, with either line ending, yields exactly the servers of the links, in order |
| Payloads.WrappedSubscription | src/subscription/parse.ts:39-47 | So does its base64 form |
| Payloads.WrappedTwiceIsLost | src/subscription/parse.ts:39-47 | For every text of links and every variant: its base64 form yields its servers, and the base64 form of that yields none |
| Session.TotalsNeverDecrease | src/stats/session.ts:27-72 | For every sequence of samples, suspends and commits, and every continuation of it, the totals do not decrease |
| Session.ExactAccounting | src/stats/session.ts:27-72 | For every sequence of events and samples in any order: total plus what has been missed equals the true sum over generations plus what has been counted again |
| Session.ExactIff | src/stats/session.ts:27-72 | The total is exact if and only if these two amounts are the same |
| Session.MiscountsInOrder | src/stats/session.ts:27-48 | With samples in order, an accepted one is miscounted if and only if the one before it is not zero and comes from the same engine with a commit in between, or from another engine with no commit in between and no counter that goes backwards |
| Session.TotalsAgainstTruth | src/stats/session.ts:58-72 | When every commit separates two generations the total never exceeds the true sum, and equals it exactly when the restarts that were overtaken hid nothing |
| Session.OvertakenRestartHides | src/stats/session.ts:27-48 | A restart that no commit separates and no counter betrays hides the sample before it, for all counters |
| Session.OvertakenRestartIsLost | src/stats/session.ts:27-48 | A restart that no commit separates and no counter betrays: 6 counted where 11 went through |
| Session.IdleCommitDoubles | src/stats/session.ts:66-72 | A commit between two samples of one engine counts the first of them twice, for all counters |
| Session.ReportedRestartIsExact | src/client.ts:107-130 | With no other state in between, a restart reported as 'connecting' and then any terminal state is banked exactly, whatever samples are taken meanwhile |
| Metering.EmissionIsLast | android/src/main/java/com/nitroxraycore/XrayVpnService.kt:146-735 | The states that drive the sessions are exactly those the protocol emits |
| Metering.ExactInEveryRun | src/client.ts:115-130 | In every run of the protocol, destroys and overlaps included, commands, reads and replies interleaved at will: the total is exact if and only if what has been missed and what has been counted again agree |
| Metering.AlwaysExactIff | src/client.ts:410-419 | The total is exact after every prefix of a run if and only if no reply is accepted of which the session does not replace exactly what was known of its engine |
| Metering.InOrderExactIff | src/client.ts:107-130 | With replies in the order of the reads: if and only if no accepted sample meets one of the two guards, same engine with a commit in between, or another engine with no commit and no dip, after a sample that is not zero |
| Punctual.PunctualIsExact | src/client.ts:410-419 | Enough for that in every run without a destroy: what is accepted was read after its engine's 'connected', and fed in front of the next terminal state and of later replies |
| Overlaps.QuietIsExact | src/client.ts:107-130 | Enough in terms of the commands: no destroy, each START delivered after the commands before it have finished, and each accepted reply fed in front of the next terminal state and of later replies |
| WrongTotals.OverlapDoubles | src/client.ts:115-130 | A run in which a START is delivered while a STOP has yet to report: for any two samples c1 <= c2 of the new engine the total is c1 + c2 where c2 went through |
| WrongTotals.LateReplyDoubles | src/client.ts:410-419 | The same without any overlap: the second sample is read before a disconnect and fed after its 'disconnected' |
| Session.TrafficSession.Update | src/stats/session.ts:27-48 | Performs the transition for a sample; the returned total is the session's and never below the one before |
| Session.TrafficSession.CommitRestartNow | src/stats/session.ts:66-72 | Banks the last sample and resumes |
| Session.TrafficSession.SuspendSamples | src/stats/session.ts:55-57 | Freezes the totals |
| Session.TrafficSession.Reset | src/stats/session.ts:75-81 | A fresh session |
| Session.TrafficSessions.Stats | src/client.ts:94-101 | Only the session of the tag is touched; a new tag starts fresh; no two tags share a session |
| Session.TrafficSessions.OnStateChange | src/client.ts:118-129 | A state event drives every session, once |
| Session.TrafficSessions.ResetAll | src/client.ts:103-105 | Every session starts fresh |
| UrlTest.EachProbedOnce | src/urltest/urltest.ts:46-64 | Under every schedule the servers probed so far are the first ones, each once; exactly min(max(1, concurrency), n) probes are in flight until the last server has been taken, and never more |
| UrlTest.PoolStartsFull | src/urltest/urltest.ts:61-64 | Exactly min(max(1, concurrency), n) workers start, and each begins with a probe |
| UrlTest.PoolRefinesMap | src/urltest/urltest.ts:46-64 | The pool never gets stuck, ends after exactly as many probes as there are servers, and its results are position by position what the probes measured |
| UrlTest.ComparatorIsConsistent | src/urltest/urltest.ts:69-76 | The comparator is a consistent strict order on distinct positions: faster first, unreachable last, ties in input order |
| UrlTest.SortIsDetermined | src/urltest/urltest.ts:66-77 | Two copies of the same entries sorted by the comparator are equal: the sorting algorithm has no say |
| UrlTest.UrlTestRanks | src/urltest/urltest.ts:36-78 | Whatever the schedule and the sorting algorithm, the output is the reference ranking of the latencies: a permutation of the input, strictly ordered |
| UrlTest.ProbePool.TakeNext | src/urltest/urltest.ts:50-52 | One turn of a worker's loop |
| UrlTest.ProbePool.ProbeSettles | src/urltest/urltest.ts:53-58 | Stores the result in place and takes the next server |
| SerialLock.OneAtATime | src/lock.ts:7-19 | In every run, calls made at any time included, operations run one at a time and in call order |
| SerialLock.OwnOutcome | src/lock.ts:9-17 | What a call returned settles with the outcome of its own operation and with nothing else |
| SerialLock.NextAlwaysStarts | src/lock.ts:10-16 | However the earlier operations ended, the next one starts after at most two jobs of the queue |
| SerialLock.AllServed | src/lock.ts:7-19 | With every started operation settled and no job left, every call ever made has its outcome |
| SerialLock.Serializer.CallWithLock | src/lock.ts:9-17 | Performs the transition of a call on the closure variable, and keeps the invariant |

## Left out

- LastWord.QuietDestroyIsTold: one direction. With a START under way at a destroy the last report may be true or not, depending on the order of the emissions; that everything goes down, and what each START, STOP and destroy reports, is proved without exception.
- A START without a config, which reports an error without touching a live tunnel.
- Pairing each stop promise with its own STOP: the stop slot has no token, so a completion may be run by another STOP, as `StaleStopReleasesNewer` shows. The time-out of `stopXray` and the `isActive` check of its continuation are not modelled.
- Revoked.RevokedTunnelReused: what an engine does on a revoked descriptor is not modelled, only that the service uses it and reports 'connected'.
- The olcrtc bypass: starting it may succeed or fail, and nothing is claimed about stopping it.
- Two service instances at the same time.
- iOS, whose 'connected' need not mean an engine restart.
- The vmess JSON payload, which is a parameter, and parsed ports out of range, which the parser does not check.
- Query keys that name members of the object prototype, which the parsers never look up.
- The probe itself in `urlTest` (time-outs, clocks), notifications, broadcasts, foreground state, storage, permissions.
- Config building, version parsing, error mapping, `subscription-userinfo` parsing and generated code: straight-line code without state or order to reason about.
