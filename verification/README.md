# Verified model of the VPN client core

A Dafny 4.11 model of the stateful cores of a desktop VPN client, with proofs about whole runs of them.
`dafny verify dfyconfig.toml` checks everything.

| files | what they model |
|---|---|
| `VpnTypes`, `VpnSpec`, `VpnConnection`, `VpnInvariants`, `VpnTheorems`, `VpnWaiting`, `VpnOutcomes` | the connection lifecycle of `VpnConnection`: states, diagnostics, five timers, silent reconnects, deferred starts |
| `DaemonSpec`, `Daemon`, `DaemonTheorems`, `DaemonLookups`, `DaemonSwitches`, `DaemonOutcomes` | the daemon's reference-counted exclusion routes, DNS-learned routes and lookup generations |
| `Checksum` | the Internet checksum with its signed 32-bit accumulator |
| `Framing` | the newline-framed messages between controller and daemon, and both readers |
| `Settings` | the write-through settings cache with encryption, backup and restore |
| `Ping` | the ring of ping statistics with 16-bit sequence numbers |
| `Sanitize` | the argument filter for helper processes |
| `SplitTunnel` | from the split-tunnel choice to the address lists and their meaning |
| `Switches`, `Texts` | on/off values, trimming, duplicate removal |

## How to read it

*Environment.* Everything the code asks of the outside (IPC replies, the protocol factory, what `start()` and
`stop()` report from inside the call, kernel answers) is an oracle: a record of functions indexed by the number of
questions asked before (`World`, `System`). A lemma for all oracles is a lemma for all environments, so start
failures reported twice, networks that flip between two questions and deletions that fail are all covered.

*Objects and specifications.* Each class works step by step as the source does, and each of its methods is proved to
compute a specification function on a snapshot of the object. The specifications are written differently where that
says more: entering a lifecycle state is a table over the timers (`Enter`), clearing routes is one map expression that
does not depend on the order of the set (`ClearDns`), restoring settings is a map overlay (`Restore`). The theorems
are about these functions and therefore about the methods.

*History.* Some components only record what happened and influence nothing: the counters in `Tally`, how Reconnecting
lost its watchdog (`lost`), the static acquisitions not yet released (`statics`).

*Runs.* `VpnSpec.Run` and `DaemonSpec.Run` fold a step over any list of events. A timer event has an effect only
while the timer is armed, and a signal of a protocol object only while it is connected.

*The main proof* of the lifecycle carries one relation, `Reached(s, t, steady)`, through every handler: from origin
`s` the object got to `t`, the books of scheduled and used recoveries balance, and, once `steady`, no wait is unbounded.

*Outcomes.* Safety alone is met by an object that does nothing, so `VpnOutcomes`, `DaemonOutcomes` and the last sections
of `Settings`, `Sanitize` and `SplitTunnel` say what each event, request and text achieves, from the answers of the
environment and without the functions that compute it.

## Properties that do not hold of the code in general

- A wait in Reconnecting can be endless: exactly when neither watchdog nor deadline is armed (`ReconnectingEndsIff`).
  `GuardIsLostIff` says when that is so in a reachable state, `UnguardsIff` and `UnguardedHasCause` which steps do it (a
  Disconnected handled there, a deferred start dropped there, a disconnect without protocol), and
  `ReconnectingIsReached` and `DroppedStartIsReached` are runs that get there in different ways.
- A disconnect without a protocol object keeps a stored failure and an unfinished Reconnecting:
  `DisconnectWithoutProtocol` (if and only if).
- A server switch breaks the reference equation if and only if it releases a learned prefix more often than it was
  acquired statically (`SwitchBalancesIff`, lifted to runs by `ReferencesAreConserved`; `LearnedReferenceIsTaken` is a
  run). Routes stay tracked and a teardown stays complete all the same (`RoutesAreTracked`, `TeardownIsComplete`).
- Acquisitions match the configurations in use without switches (`CountsMatchUse`), not with them: every switch
  acquires the new addresses and the handshake acquires them again. `ExcessIsAccountedFor` gives the exact surplus of
  any run, `SwitchLeaks` that of one switch, `ReactivationLeaks` a family of runs.
- A host that is to be forwarded leaves the tunnel once the daemon resolves it, because every learned route is an
  exclusion; and sites listed under "all sites" are excluded when the DNS servers are not Amnezia's.
  `MeaningIsPreserved` gives exactly the destinations concerned, `ForwardedHostStrays` and `ListedSiteStrays` one each.
- The settings cache shows after removing a group with a cached member (`RemoveKeepsCoherence`, if and only if;
  `GroupRemovalIsNoticed`) and after writing a plain value that decoding changes (`TaggedValueBreaksCoherence`, if and
  only if). Migration marks settings as encrypted even when there were no keys to encrypt them (`MigrationEncrypts`).
- A backup does not reproduce values that JSON alters, such as the byte array of the server list
  (`ServerListComesBackAsText`); `BackupRestores` says key by key what is restored.
- Before the first ping a reply with sequence number 0 is accepted (`Ping.PingHelper.PingReceived`); the maximum
  latency is a bound if and only if all are below the largest unsigned int (`MaximumBoundsIffBelow`).
- The checksum is right if and only if the plain sum of the words fits an int (`RightIffItFits`): always up to 65536
  bytes (`ShortBuffersFit`), not for 65538 bytes of ones (`LongBuffersOverflow`).

## Model

| member | source | states |
|---|---|---|
| VpnWaiting.WaitingIsBounded | client/vpnConnection.cpp:1336-1362 | in every reachable state, Connecting has the watchdog or the deadline of a deferred start armed, a silent reconnect while Connected has the watchdog armed, and in Connecting and Reconnecting an armed one of them ends the wait when it fires |
| VpnWaiting.ReconnectingEndsIff | client/vpnConnection.cpp:1336-1362 | in a sound Reconnecting, some event other than user requests and protocol signals ends the wait if and only if the watchdog or the deadline is armed |
| VpnWaiting.GuardIsLostIff | client/vpnConnection.cpp:1304-1309 | in every reachable Reconnecting, a timer is armed if and only if a deadline runs or, since the watchdog was last armed, neither a Disconnected was handled there nor a deferred start dropped there |
| VpnWaiting.UnguardsIff | client/vpnConnection.cpp:1081-1111 | of the events that call neither start() nor stop(), exactly three kinds take the last timer: a live Disconnected report, a deferred action dropped when the network is ready, a disconnect without protocol |
| VpnWaiting.UnguardedHasCause | client/vpnConnection.cpp:696-761 | for every event: Reconnecting loses its last timer by one of these three, or because a start() or stop() that this very step calls reports Disconnected when Reconnecting has been reached |
| VpnWaiting.EndlessWaitHasCause | client/vpnConnection.cpp:1304-1309 | every run that ends in an endless Reconnecting contains one of the three steps or such a call |
| VpnWaiting.ReconnectingLosesWatchdog | client/vpnConnection.cpp:1304-1309 | in Reconnecting with the watchdog armed and no stop in progress, the one report that leaves the object there without watchdog is Disconnected |
| VpnWaiting.ReconnectingCanStayForEver | client/vpnConnection.cpp:239-241 | a Reconnecting with watchdog and deadline off is left by no timer, DNS or probe answer, wake-up or resume |
| VpnWaiting.ReconnectingHasNoBound | client/vpnConnection.cpp:1304-1309 | from any sound state with a live protocol, no deadline and no stop in progress, the reports Reconnecting and Disconnected lead to such a wait |
| VpnWaiting.ReconnectingIsReached | client/vpnConnection.cpp:1304-1309 | a run from the initial state that ends in such a wait, in every environment in which a first connection starts |
| VpnWaiting.DroppedStartIsReached | client/vpnConnection.cpp:1052-1111 | another such run without any report of Disconnected: two connects, the second deferred in Reconnecting, and the network coming back |
| VpnTheorems.RetryBudget | client/vpnConnection.cpp:1567-1614 | over every run the counter is in 0..3, restarts plus outstanding recoveries never exceed scheduled ones, and those never exceed three per reset plus the counter |
| VpnTheorems.RestartsBetweenResets | client/vpnConnection.cpp:1113-1154 | between any two points of a run without a reset, restarts are bounded by the attempts used plus one already under way |
| VpnTheorems.RecoveryIsExclusive | client/vpnConnection.cpp:1098-1107 | recovery timer, silent reconnect and deferred reconnect exclude each other, and a deferred reconnect always has a protocol object |
| VpnTheorems.DiagnosticsMatchLifecycle | client/vpnConnection.cpp:1489-1499 | in every reachable state Disconnected shows Idle or a problem and Error shows a problem, whatever order late diagnostics come in |
| VpnTheorems.DisconnectQuiets | client/vpnConnection.cpp:1218-1271 | a disconnect from any sound state leaves no protocol, nothing deferred and no signal connected, and starts nothing |
| VpnTheorems.NoStartAfterDisconnect | client/vpnConnection.cpp:1113-1115 | from such a state no run without a connect request ever starts a protocol |
| VpnTheorems.NothingStartsAfterDisconnect | client/vpnConnection.cpp:1218-1271 | the same for a disconnect at any point of any run |
| VpnTheorems.DisconnectCompletes | client/vpnConnection.cpp:1234-1270 | from any state with a protocol whose stop() only winds down, the call ends in Disconnected, all five timers off, counter 0 |
| VpnTheorems.DisconnectWithoutProtocol | client/vpnConnection.cpp:1242-1245 | without a protocol the result is Disconnected if and only if the state was neither Reconnecting nor a stored failure |
| VpnTheorems.FailureIsAbsorbing | client/vpnConnection.cpp:1287-1291 | from Error with a stored error, every passive run keeps state, error and a problem on display |
| VpnTheorems.FailuresAreFinal | client/vpnConnection.cpp:1287-1291 | the same for any Error with an error on record reached by any run |
| VpnTheorems.NothingIsLeftRunning | client/vpnConnection.cpp:747-753 | over every run, each protocol object that was started has been stopped, except perhaps the current one |
| VpnOutcomes.ConnectOutcome | client/vpnConnection.cpp:696-812 | a connect request: Error without repositories or protection; parked with its deadline without a network; Error with InternalError if the factory fails; Error with the error of a failed start(), shown as a failed start; otherwise Connecting under the watchdog, one more start and WaitingHandshake |
| VpnOutcomes.BeforeStartMeans | client/vpnConnection.cpp:709-753 | by then the old object is stopped and dropped, nothing is deferred, and, unless stop() reported something, the state is Connecting with budget, error and server as for a new connection |
| VpnOutcomes.ResumedStart | client/vpnConnection.cpp:1081-1111 | a parked first start has the same outcomes once there is a network, and waits unchanged until then |
| VpnOutcomes.RecoveryOutcome | client/vpnConnection.cpp:132-140 | a due recovery restarts the protocol: parked, failed, up in a silent reconnect, retried after a transient error or final, by the answers of network, factory and start() |
| VpnOutcomes.WakeOutcome | client/vpnConnection.cpp:1113-1154 | a wake-up does the same, with one reset and one attempt counted, exactly for a connection that is up and not being repaired; otherwise it changes nothing |
| VpnOutcomes.ResumeOutcome | client/vpnConnection.cpp:1081-1111 | parked reconnects go on as they began, and what the state no longer wants is dropped |
| VpnOutcomes.FailedCheckOutcome | client/vpnConnection.cpp:1567-1614 | a failed probe or lookup arms the recovery timer and uses one attempt if and only if a protocol and a known server exist, nothing is under way and fewer than three are used; the failure is shown in any case |
| VpnOutcomes.GoodCheckOutcome | client/vpnConnection.cpp:1424-1438 | good answers clear the failure, and a good probe restores the budget |
| VpnOutcomes.IdleCheckOutcome | client/vpnConnection.cpp:1440-1452 | answers in other states change nothing |
| VpnOutcomes.SilentFailureOutcome | client/vpnConnection.cpp:1364-1388 | a silent reconnect that times out, is reported Disconnected or meets a transient error is stopped and retried if fewer than three attempts are used, and ends in Error otherwise |
| VpnOutcomes.ThreeRestarts | client/vpnConnection.cpp:1589-1612 | the budget can be used up: exactly three restarts between two resets, and no fourth recovery |
| VpnOutcomes.UpIsReached | client/vpnConnection.cpp:763-812 | the state it starts from is reached by a connect and its report |
| VpnOutcomes.TimeoutOutcome | client/vpnConnection.cpp:1336-1362 | watchdog and deadline stop the protocol and end in Error with a handshake timeout on record |
| VpnOutcomes.LateTimeout | client/vpnConnection.cpp:1336-1345 | a late watchdog does nothing |
| VpnOutcomes.ReportOutcome | client/vpnConnection.cpp:216-268 | a report of each state: the state entered, the timers that run, the diagnostic and the error |
| VpnOutcomes.RoutingOutcome | client/vpnConnection.cpp:343-428 | diagnostics of the routing code are shown where they fit |
| VpnOutcomes.IgnoredReport | client/vpnConnection.cpp:1279-1291 | the reports that have no effect |
| VpnOutcomes.ErrorOutcome | client/vpnConnection.cpp:1316-1334 | an error signal is final with its error on record, or only recorded while ending |
| VpnOutcomes.OtherSignals | client/vpnConnection.cpp:181-195 | stored errors, traffic and signals that are not connected |
| VpnOutcomes.DiagnosticOutcome | client/vpnConnection.cpp:1489-1499 | a late diagnostic is shown if and only if it fits the lifecycle |
| VpnOutcomes.FifthCheckProbes | client/vpnConnection.cpp:1390-1422 | without traffic the fifth check starts a probe and no earlier one does |
| VpnOutcomes.CheckProbesAtOnce | client/vpnConnection.cpp:1399-1412 | a healthy connection, or one whose status cannot be asked, is probed at once |
| VpnOutcomes.CheckLeavesAlone | client/vpnConnection.cpp:1390-1398 | checks of a connection that is down or being repaired |
| VpnOutcomes.DisconnectStops | client/vpnConnection.cpp:1246-1262 | a disconnect stops the object it drops |
| VpnOutcomes.RestartForgetsProblem | client/vpnConnection.cpp:1168-1174 | a silent restart replaces the diagnostic that led to it |
| VpnInvariants.ChangeReached | client/vpnConnection.cpp:216-268 | entering any state from any legal one keeps the books and settles every wait |
| VpnInvariants.SilentFailureReached | client/vpnConnection.cpp:1364-1388 | a failed silent reconnect keeps the books and ends waiting, whether retried or given up |
| VpnInvariants.DeliverAllReached | client/vpnConnection.cpp:814-819 | any sequence of signals inside one call keeps the books and, if waits were bounded, keeps them bounded |
| VpnInvariants.DeferReached | client/vpnConnection.cpp:1052-1072 | deferring without a network keeps a released recovery as a deferred one and bounds a first start by its deadline; with a network it keeps the books |
| VpnInvariants.SilentRestartReached | client/vpnConnection.cpp:1168-1216 | a silent restart paid for by one released recovery keeps every invariant and the ledger, however start() behaves |
| VpnInvariants.ReconnectReached | client/vpnConnection.cpp:1113-1154 | a wake-up keeps every invariant, whether coalesced, deferred or carried out |
| VpnInvariants.ResumeReached | client/vpnConnection.cpp:1081-1111 | resuming a deferred action keeps every invariant |
| VpnInvariants.ConnectReached | client/vpnConnection.cpp:696-761 | a connect request keeps every invariant on all its paths |
| VpnInvariants.DisconnectReached | client/vpnConnection.cpp:1218-1271 | a disconnect keeps every invariant whatever stop() reports |
| VpnInvariants.TimedOutReached | client/vpnConnection.cpp:1336-1362 | a timeout leaves a state with bounded waits even when entered without |
| VpnInvariants.StepReached | client/vpnConnection.cpp:112-175 | every event in every environment keeps the invariant and the ledger |
| VpnInvariants.RunReached | client/vpnConnection.h:127-141 | every run does |
| VpnConnectionObject.VpnConnection.constructor | client/vpnConnection.h:127-141 | the initial members satisfy the invariant |
| VpnConnectionObject.VpnConnection.SetConnectionHealth | client/vpnConnection.cpp:1454-1499 | a diagnostic replaces the shown one exactly when it may be published |
| VpnConnectionObject.VpnConnection.OnConnectionStateChanged | client/vpnConnection.cpp:216-444 | the switch over the new state has the effect of the table `Enter` on timers, error and diagnostic |
| VpnConnectionObject.VpnConnection.SetConnectionState | client/vpnConnection.cpp:1273-1314 | ignored, redirected and real state changes, with the Reconnecting exception |
| VpnConnectionObject.VpnConnection.HandleSilentReconnectFailure | client/vpnConnection.cpp:1364-1388 | the failed protocol is silenced, then a recovery is scheduled or Error entered; the result says which |
| VpnConnectionObject.VpnConnection.RecoverConnectedTunnel | client/vpnConnection.cpp:1567-1614 | one of impossible, under way, exhausted, scheduled, with the effect of each |
| VpnConnectionObject.VpnConnection.OnProtocolError | client/vpnConnection.cpp:1316-1334 | recoverable errors of a silent reconnect are retried, others end in Error unless already ending |
| VpnConnectionObject.VpnConnection.HandleSignals | client/vpnConnection.cpp:814-819 | signals reported inside one call are handled in order, disconnected ones have no effect |
| VpnConnectionObject.VpnConnection.DeferUntilPhysicalNetworkReady | client/vpnConnection.cpp:1052-1072 | without a network the action is parked with its timers and the watchdog is off |
| VpnConnectionObject.VpnConnection.StartConfiguredConnection | client/vpnConnection.cpp:763-812 | factory failure, start failure and success of a first start |
| VpnConnectionObject.VpnConnection.StartSilentReconnect | client/vpnConnection.cpp:1156-1216 | called only with a protocol object, it coalesces, defers or restarts |
| VpnConnectionObject.VpnConnection.RestartSilently | client/vpnConnection.cpp:1168-1216 | replacing the protocol, with all outcomes of its start |
| VpnConnectionObject.VpnConnection.ReconnectToVpn | client/vpnConnection.cpp:1113-1154 | acts only when connected, idle and with a protocol; the counter restarts at one |
| VpnConnectionObject.VpnConnection.ResumePendingNetworkAction | client/vpnConnection.cpp:1081-1111 | resumes the parked action; the invariant alone gives the protocol it uses without a test |
| VpnConnectionObject.VpnConnection.ConnectToVpn | client/vpnConnection.cpp:696-761 | missing repositories, refused protection, deferral and start of a connect request |
| VpnConnectionObject.VpnConnection.DisconnectFromVpn | client/vpnConnection.cpp:1218-1271 | both branches of a disconnect, with the signals of stop() |
| VpnConnectionObject.VpnConnection.OnConnectingTimedOut | client/vpnConnection.cpp:1336-1362 | a silent reconnect is retried, a first connection fails, other states are left alone |
| VpnConnectionObject.VpnConnection.OnConnectedRecoveryTimer | client/vpnConnection.cpp:132-140 | the timer's guard, then a silent reconnect |
| VpnConnectionObject.VpnConnection.OnPendingNetworkDeadline | client/vpnConnection.cpp:148-155 | only a parked first start times out |
| VpnConnectionObject.VpnConnection.CheckConnectedHealth | client/vpnConnection.cpp:1390-1422 | when a probe is started and how checks without traffic are counted |
| VpnConnectionObject.VpnConnection.OnDnsLookup | client/vpnConnection.cpp:1545-1564 | a failed lookup starts recovery, a good one clears a DNS failure |
| VpnConnectionObject.VpnConnection.OnConnectivityProbeSucceeded | client/vpnConnection.cpp:1424-1438 | a good probe clears the error and the counter, and a DNS failure stays on display |
| VpnConnectionObject.VpnConnection.OnConnectivityProbeFailed | client/vpnConnection.cpp:1440-1452 | a failed probe starts recovery unless one runs |
| VpnConnectionObject.VpnConnection.Handle | client/vpnConnection.cpp:112-175 | every event is handled as specified and the invariant holds again |
| VpnConnectionObject.VpnConnection.HandleAll | client/vpnConnection.cpp:112-175 | every list of events is handled as specified with balanced recovery books; a new object stays within its restart budget, a quiescent one starts nothing without a connect request, a failed one stays failed |
| DaemonTheorems.ReferencesAreConserved | client/daemon/daemon.cpp:217-237 | over every run each count is its static acquisitions not yet released, plus one if DNS-learned, at every point, if and only if no server switch takes a learned reference |
| DaemonTheorems.RoutesAreTracked | client/daemon/daemon.cpp:217-237 | over every run, switches included: counted prefixes are installed, and are exactly the installed ones when deletions succeed; the kill switch was told every learned route while it is on; hosts to resolve are among the rules |
| DaemonTheorems.RunKeeps | client/daemon/daemon.cpp:217-237 | the same if and only if from any tracked, balanced state |
| DaemonTheorems.StepKeeps | client/daemon/daemon.cpp:66-171 | every event keeps routes tracked, and keeps balanced books balanced if and only if it is not a switch that takes a learned reference |
| DaemonTheorems.SwitchBalancesIff | client/daemon/daemon.cpp:568-621 | a switch keeps the books balanced if and only if it releases no learned prefix more often than it was acquired statically |
| DaemonTheorems.SwitchCounts | client/daemon/daemon.cpp:568-621 | for every prefix: plus the acquisitions of the new configuration, minus one for each address of the old one while any is left, in the counts and in the static acquisitions |
| DaemonSwitches.SwitchAndHandshake | client/daemon/daemon.cpp:568-621 | a switch and its handshake, for any two configurations: acquired twice, released once, learned routes dropped |
| DaemonSwitches.LearnedReferenceIsTaken | client/daemon/daemon.cpp:598-605 | a run from the start in which a switch takes the reference of a learned route, which then has no count |
| DaemonSwitches.CountsMatchUse | client/daemon/daemon.cpp:654-739 | without a switch, with one matching peer for each connection and additions that succeed, every count is what the configurations in use need, plus one if DNS-learned |
| DaemonSwitches.ExcessIsAccountedFor | client/daemon/daemon.cpp:568-621 | for any run with additions that succeed, the acquisitions beyond those in use are exactly what its switches and repeated matches have added since the last teardown |
| DaemonSwitches.SwitchExceeds | client/daemon/daemon.cpp:568-621 | what one switch adds to them, whether it completes or fails at either peer operation |
| DaemonSwitches.SwitchLeaks | client/daemon/daemon.cpp:577-605 | a completed switch of a shaken connection leaks exactly one acquisition for each occurrence of each new address |
| DaemonTheorems.CheckHandshakeKeeps | client/daemon/daemon.cpp:654-691 | polling handshakes keeps routes tracked and books balanced, whatever peers report |
| DaemonTheorems.TearDownKeeps | client/daemon/daemon.cpp:511-543 | a teardown keeps routes tracked and balances the books even if they did not balance |
| DaemonTheorems.ClearingRestoresStatics | client/daemon/daemon.cpp:721-729 | clearing DNS routes leaves exactly the table of static acquisitions, and exactly its routes in the kernel when deletions succeed |
| DaemonTheorems.TeardownIsComplete | client/daemon/daemon.cpp:496-546 | after any run, switches included, of a daemon without connections or past run(Down): no count, learned route, connection, host or rule is left, and a kernel route survives if and only if it was not counted or this teardown's own deletion of it is refused |
| DaemonLookups.StepGeneration | client/daemon/daemon.cpp:693-700 | the generation moves on exactly when the pipeline is reconfigured or torn down, never back |
| DaemonLookups.StaleAnswersAreHarmless | client/daemon/daemon.cpp:741-763 | in any interleaving a lookup's answer is applied if and only if no reconfiguration or teardown came between |
| DaemonLookups.AnswersAreAUnion | client/daemon/daemon.cpp:741-787 | in a run that renews nothing, with any other events in between, the learned routes are the union of all current answers, and part of it if additions are refused |
| DaemonLookups.RepeatedAnswersAreAUnion | client/daemon/daemon.cpp:765-787 | when no addition is refused, answers in any order, splitting and repetition add one reference for each prefix of their union, all told to the kill switch |
| DaemonLookups.RefusalsOnlyOmit | client/daemon/daemon.cpp:765-787 | whatever additions are refused, only answered prefixes are learned, none is forgotten, and the learned set alone determines counts, kernel routes and allowances |
| DaemonSwitches.SwitchingLeaksReferences | client/daemon/daemon.cpp:568-621 | m switches to the configuration in use, with any address list, raise every count by m times its occurrences in the list |
| DaemonSwitches.ReactivationLeaks | client/daemon/daemon.cpp:66-171 | from the start of the daemon, m activations of one configuration with their handshakes count each address m times while one is in use |
| DaemonOutcomes.ActivationLinks | client/daemon/daemon.cpp:84-168 | the connections after an activation: on a free hop the new one if it comes up; a switched hop replaced if the peer operations succeed; otherwise the new one alone if run(Down), the interface deletion and the activation succeed, none if only the later ones fail, the old ones if the first does |
| DaemonOutcomes.ActivationBooks | client/daemon/daemon.cpp:84-168 | what else it touches: nothing on a free hop, everything when a connection is replaced |
| DaemonOutcomes.RefusedDeactivation | client/daemon/daemon.cpp:499-505 | a daemon that cannot go down stays as it is |
| DaemonOutcomes.PollLinks | client/daemon/daemon.cpp:654-691 | after a poll a connection is shaken if and only if it was or a peer with its key reports a handshake |
| DaemonOutcomes.HandshakeOutcome | client/daemon/daemon.cpp:693-719 | kill switch, hosts, rules and lookups after a handshake, by the rules of the configuration |
| DaemonOutcomes.AnswerAfterHandshake | client/daemon/daemon.cpp:741-787 | an answer teaches exactly the IPv4 addresses it names, and the kill switch hears of them if and only if the configuration has it on |
| DaemonOutcomes.RefusedRoutesStay | client/daemon/daemon.cpp:229-237 | over every run a kernel route goes only by a granted deletion |
| DaemonObject.Daemon.constructor | client/daemon/daemon.h:97-109 | a new daemon has empty, tracked and balanced books |
| DaemonObject.Daemon.AddExclusionRoute | client/daemon/daemon.cpp:217-227 | a known prefix gains a reference, a new one needs a kernel route |
| DaemonObject.Daemon.DelExclusionRoute | client/daemon/daemon.cpp:229-237 | the last reference takes the route along |
| DaemonObject.Daemon.ClearSplitTunnelDnsRoutes | client/daemon/daemon.cpp:721-729 | in whatever order the set is visited, the result is the order-free `ClearDns` |
| DaemonObject.Daemon.RefreshSplitTunnelStaticRoutes | client/daemon/daemon.cpp:731-739 | every non-blank address is acquired, failures are ignored |
| DaemonObject.Daemon.OnSplitTunnelHostResolved | client/daemon/daemon.cpp:765-787 | new prefixes are learned, and telling the kill switch at the end equals telling it at once |
| DaemonObject.Daemon.RouteResolved | client/daemon/daemon.cpp:770-782 | one resolved address: skipped if routed, learned if a route could be added |
| DaemonObject.Daemon.OnLookupAnswered | client/daemon/daemon.cpp:744-761 | answers of another generation are dropped |
| DaemonObject.Daemon.ConfigureSplitTunnelDnsRoutes | client/daemon/daemon.cpp:693-719 | a new generation, no learned routes, the exact hosts and the host rules without duplicates |
| DaemonObject.Daemon.ReadRules | client/daemon/daemon.cpp:702-714 | subnets and malformed rules are skipped, exact hosts are resolved, all hosts are rules |
| DaemonObject.Daemon.RefreshSplitTunnelDnsRoutes | client/daemon/daemon.cpp:741-763 | one lookup for each host, stamped with the generation |
| DaemonObject.Daemon.CheckHandshakes | client/daemon/daemon.cpp:654-691 | every waiting connection, in hop order, and every matching peer |
| DaemonObject.Daemon.Deactivate | client/daemon/daemon.cpp:496-546 | nothing happens if run(Down) refuses, otherwise everything is torn down and the result is that of deleting the interface |
| DaemonObject.Daemon.DeleteExclusionRoutes | client/daemon/daemon.cpp:536-540 | the sweep deletes every counted route the system agrees to delete |
| DaemonObject.Daemon.SwitchServer | client/daemon/daemon.cpp:568-621 | acquisitions of the new, releases of the old configuration, and both failures |
| DaemonObject.Daemon.Activate | client/daemon/daemon.cpp:66-171 | the three scenarios of an activation, with a teardown that fails at its end |
| DaemonObject.Daemon.Handle | client/daemon/daemon.cpp:66-171 | every event is handled as specified, keeps routes tracked, and keeps balanced books balanced exactly if it takes no learned reference |
| Checksum.InetChecksum | client/mozilla/pingsender.cpp:13-48 | for every length that fits an int the answer is the complemented one's-complement sum if and only if the plain sum of the words fits an int |
| Checksum.RightIffItFits | client/mozilla/pingsender.cpp:13-48 | the same about the function the method computes, overflow wrapping around |
| Checksum.WrappedSumIsNoticed | client/mozilla/pingsender.cpp:27-46 | any sum beyond the range that a buffer can have gives a wrong answer, since each wrap shifts it by one modulo 65535 |
| Checksum.TwoFoldsSuffice | client/mozilla/pingsender.cpp:43-46 | two folds reduce any sum the accumulator can hold |
| Checksum.RepOfSum | client/mozilla/pingsender.cpp:27-34 | plain addition with late carries agrees with end-around-carry addition |
| Checksum.ShortBuffersFit | client/mozilla/pingsender.cpp:14-34 | up to 65536 bytes nothing overflows |
| Checksum.LongBuffersOverflow | client/mozilla/pingsender.cpp:14-34 | 65538 bytes of ones get a wrong answer in either byte order |
| Checksum.ChecksumVerifies | client/mozilla/pingsender.cpp:13-48 | with the checksum in its zeroed, word-aligned field a buffer checks to zero (section 1 of RFC 1071), for the code's own answers up to 65536 bytes |
| Checksum.ByteOrderIndependence | client/mozilla/pingsender.cpp:27-41 | hosts of both byte orders compute the same bytes, odd lengths included (section 2(B) of RFC 1071), also with the code's own answers up to 65536 bytes |
| Checksum.SwappingCommutes | client/mozilla/pingsender.cpp:27-34 | for even lengths, exchanging the bytes of all words exchanges the bytes of the checksum, also of the code's own answer up to 65536 bytes |
| Framing.DaemonReader.ReadData | client/daemon/daemonlocalserverconnection.cpp:49-83 | delivers exactly the trimmed non-empty lines of buffer and input, keeps the rest, and empties the socket unless a read returns nothing |
| Framing.ControllerReader.ReadData | client/mozilla/localsocketcontroller.cpp:373-399 | the same contents for the reader that reads once, which loses nothing of what it leaves in the socket |
| Framing.MoreBytes | client/mozilla/localsocketcontroller.cpp:373-399 | messages of a longer stream are those of the first part, then those of its remainder continued |
| Framing.ChunkingIsIrrelevant | client/daemon/daemonlocalserverconnection.cpp:49-83 | any number of reads of any sizes deliver the messages of the whole stream |
| Framing.RoundTrip | client/daemon/daemonlocalserverconnection.cpp:176-179 | written messages arrive as written, whatever the chunking, if and only if each is one non-empty line without blanks around it |
| Settings.DecodeInvertsEncode | client/secureQSettings.cpp:91-115 | a written value reads back if and only if it is encrypted or decoding leaves it alone |
| Settings.GetIsTransparent | client/secureQSettings.cpp:47-89 | a read equals decoding the disk and keeps the cache coherent |
| Settings.SetKeepsCoherence | client/secureQSettings.cpp:91-115 | a write keeps coherence if and only if it is refused or its value reads back |
| Settings.RemoveKeepsCoherence | client/secureQSettings.cpp:117-123 | removal keeps coherence if and only if nothing below the key is cached |
| Settings.TaggedValueBreaksCoherence | client/secureQSettings.cpp:60-68 | a plain write keeps coherence if and only if decoding leaves its value alone; without keys, if and only if it carries no tag |
| Settings.ApplyRefines | client/secureQSettings.cpp:47-123 | on a coherent cache every request answers as a store without cache does, and leaves the cache coherent if and only if it is benign: no value that decoding changes, no removal above a cached key |
| Settings.CacheIsTransparent | client/secureQSettings.cpp:47-123 | over every run of requests that are benign in the state they meet, the answers equal those of a store without cache |
| Settings.GroupRemovalIsNoticed | client/secureQSettings.cpp:117-123 | a run in which they differ |
| Settings.TaggedValueIsNoticed | client/secureQSettings.cpp:60-68 | writing any plain value that decoding changes and reading it back gives answers that differ from those of a store without cache |
| Settings.BackupRestores | client/secureQSettings.cpp:125-178 | a backup restored under other keys: each written key reads as what JSON carried if and only if that is faithful there, and as the source's value if JSON keeps it; all other keys and the installation id stay; the cache stays coherent if and only if every carried value is faithful |
| Settings.ServerListComesBackAsText | client/core/repositories/secureServersRepository.cpp:186 | the server list, stored as a byte array, reads as the text of it after backup and restore, encrypted or not |
| Settings.BackupContents | client/secureQSettings.cpp:125-159 | a key is in the backup if and only if it is on disk, begins with Conf/ or Servers/ and is not the installation id |
| Settings.RestoreWrites | client/secureQSettings.cpp:161-178 | whatever the file says: the installation id is never changed, the server list not without keys, and every other key of the file is written |
| Settings.SettingSurvives | client/secureQSettings.cpp:125-178 | the round trip of every such key by its name, encrypted or plain |
| Settings.WriteOutcome | client/secureQSettings.cpp:91-115 | which values are tagged and encrypted on disk, and that nothing else changes |
| Settings.RemovalOutcome | client/secureQSettings.cpp:117-123 | what a removal takes from disk and cache, by the names of the keys |
| Settings.ClearOutcome | client/secureQSettings.cpp:180-185 | after clearing every read gives its fallback |
| Settings.ReadOutcome | client/secureQSettings.cpp:47-89 | cached, missing, undecryptable and decoded reads, by the tag on disk |
| Settings.MigrationKeepsMeaning | client/secureQSettings.cpp:33-44 | converting old settings changes the meaning of no key but the flag and leaves a coherent cache |
| Settings.MigrationHappens | client/secureQSettings.cpp:33-44 | settings are converted if and only if encryption is required and the flag not set, and only the server list and the flag change |
| Settings.MigrationEncrypts | client/secureQSettings.cpp:36-43 | the flag is set in any case; the server list ends up encrypted if and only if there are keys or it was encrypted before |
| Settings.SecureQSettings.constructor | client/secureQSettings.cpp:30-45 | settings found unencrypted are converted as specified, in whatever order keys are visited, and the cache is coherent |
| Settings.SecureQSettings.Value | client/secureQSettings.cpp:47-89 | cached, missing, undecryptable and decoded reads |
| Settings.SecureQSettings.SetValue | client/secureQSettings.cpp:91-115 | writes through, or not at all when encryption is required without keys |
| Settings.SecureQSettings.Remove | client/secureQSettings.cpp:117-123 | the disk loses the key and everything below, the cache the key only |
| Settings.SecureQSettings.ClearSettings | client/secureQSettings.cpp:180-185 | both are emptied |
| Settings.SecureQSettings.BackupAppConfig | client/secureQSettings.cpp:125-159 | in whatever order keys are visited, the answer for every backed key; the disk, all answers and coherence stay |
| Settings.SecureQSettings.RestoreAppConfig | client/secureQSettings.cpp:161-178 | in whatever order, the overlay of all writable keys but the installation id; false only for an empty backup |
| Ping.SlotMatchesRecent | client/mozilla/pinghelper.cpp:101-104 | a slot holds a sequence number exactly when one of the last 32 pings used it, across the 16-bit wrap |
| Ping.AverageBetween | client/mozilla/pinghelper.cpp:132-134 | the rounded average lies between the extremes and is off by at most half a unit |
| Ping.AverageBelowLargest | client/mozilla/pinghelper.cpp:157-170 | it never exceeds the maximum while latencies are below the largest unsigned int |
| Ping.MaximumBoundsIffBelow | client/mozilla/pinghelper.cpp:157-170 | the maximum bounds every latency if and only if all are below the largest unsigned int |
| Ping.UnboundedLatencyIsLost | client/mozilla/pinghelper.cpp:164-167 | a witness: one latency of that value has the average above the maximum |
| Ping.PingHelper.constructor | client/mozilla/pinghelper.cpp:26-33 | a new ring tracks no ping |
| Ping.PingHelper.Start | client/mozilla/pinghelper.cpp:62-68 | the statistics are reset |
| Ping.PingHelper.NextPing | client/mozilla/pinghelper.cpp:84-99 | the ring tracks one ping more |
| Ping.PingHelper.PingReceived | client/mozilla/pinghelper.cpp:101-114 | after a ping, a reply is accepted if and only if it answers one of the last 32, and is timed against that one |
| Ping.PingHelper.Latency | client/mozilla/pinghelper.cpp:116-135 | the rounded average of the answered pings, 0 without any |
| Ping.PingHelper.Maximum | client/mozilla/pinghelper.cpp:157-170 | the largest answered latency below the largest unsigned int |
| Sanitize.Filter | ipc/ipc.h:88-115 | the index-skipping loop keeps exactly the specified arguments |
| Sanitize.SanitizeArguments | ipc/ipc.h:61-116 | for every process kind |
| Sanitize.UnchangedIffAcceptable | ipc/ipc.h:90-113 | a command line passes unchanged if and only if it is acceptable |
| Sanitize.KeptIsSubsequence | ipc/ipc.h:90-113 | the result is a subsequence of the input |
| Sanitize.SanitizingIsSound | ipc/ipc.h:61-116 | for every process and input: subsequence, acceptable, bounded positionals, stable under a second pass |
| Sanitize.ProcessOutcome | ipc/ipc.h:66-86 | for each process, by the accepted texts: every result is a permitted command line, and exactly the permitted ones pass unchanged |
| SplitTunnel.AppendSplitTunnelingConfig | client/vpnConnection.cpp:904-971 | the loops over the site list produce the plan |
| SplitTunnel.BuildLists | client/mozilla/localsocketcontroller.cpp:212-262 | the allowed and excluded lists of a plan |
| SplitTunnel.MeaningIsPreserved | client/vpnConnection.cpp:904-971 | for every mode, site list, DNS pair and set of learned routes, an IPv4 destination is routed as the choice says if and only if it is not stray: learned for a forwarded host or under "all sites", or listed under "all sites" while foreign DNS servers are excluded |
| SplitTunnel.ServersAreRouted | client/mozilla/localsocketcontroller.cpp:251-262 | the VPN server is always outside; foreign DNS servers are outside unless only listed sites are forwarded; Amnezia's are then inside until an answer names them |
| SplitTunnel.ResolvedHostLeaves | client/daemon/daemon.cpp:765-787 | when only listed sites are forwarded, a destination of a listed site is inside, and leaves the tunnel exactly when a host is resolved to it |
| SplitTunnel.ForwardedHostStrays | client/vpnConnection.cpp:934-941 | a concrete forwarded host, inside at first and outside once resolved, though wanted inside |
| SplitTunnel.ListedSiteStrays | client/vpnConnection.cpp:961-966 | a concrete site under "all sites", wanted inside but excluded |
| SplitTunnel.TrimmingKeepsMeaning | client/mozilla/localsocketcontroller.cpp:252-258 | trimming a text does not change the destinations it covers |
| SplitTunnel.PlanTexts | client/vpnConnection.cpp:904-971 | mode, sites and DNS rules of the plan for every choice, by the rules listed |
| SplitTunnel.DefaultRoutes | client/mozilla/localsocketcontroller.cpp:214-227 | the default routes of both families are allowed unless only listed sites are |
| SplitTunnel.SubnetReads | client/mozilla/localsocketcontroller.cpp:230-247 | an address, a slash and any decimal text of n is read as the range of length n |
| SplitTunnel.SignedReads | client/mozilla/localsocketcontroller.cpp:235 | a signed length is read with its sign |
| SplitTunnel.SubnetCovers | client/mozilla/localsocketcontroller.cpp:230-247 | a destination is covered by it if and only if it agrees with the address on its first n bits |
| Texts.TrimmedOf | client/daemon/daemon.cpp:733 | which texts trimming leaves alone |

## Left out

- SplitTunnel.MeaningIsPreserved: an empty address denotes nothing; whether a platform accepts the empty range that an empty DNS server becomes is not modelled.
- DaemonLookups.RepeatedAnswersAreAUnion: speaks of additions that succeed, because a refused prefix is not learned; DaemonLookups.RefusalsOnlyOmit covers the rest.
- Checksum.InetChecksum: signed overflow is modelled as wrap-around, which C++ leaves undefined, and lengths beyond an int get no promise but the 16-bit range.
- VpnConnection on Android, iOS and macOS network extensions: other protocol ownership; the desktop path is modelled.
- VpnConnection members are components of one record-valued field, so that a snapshot is the value the specification speaks about.
- Re-entrant user requests from nested event loops: handlers are atomic apart from the signals of `start()` and `stop()`, so the tests that the protocol object is still the same (client/vpnConnection.cpp:796, 806, 1194, 1210) never fail and are not modelled.
- The legacy routing block (client/vpnConnection.cpp:343-428): an arbitrary list of published diagnostics.
- The flag m_noTrafficRecoveryAttempted, logging and signals to the user interface.
- Tunnel routes, peers, resolvers and interfaces in the daemon: one answer for a whole activation; only exclusion routes are tracked.
- The lookup generation is unbounded: a wrap of the 32-bit counter is not modelled.
- A daemon without DNS utilities: its deactivation dereferences them, so they are taken to be present.
- Destruction of the daemon's reader inside a command (client/daemon/daemonlocalserverconnection.cpp:76-81).
- JSON, ciphers, QVariant serialisation, address parsing and number parsing: functions with the inverse laws stated where used.
- Settings keys are in QSettings normal form, and keychain answers do not change while the program runs.
- Ping latencies are summed without a 64-bit bound; standard deviation and loss are not modelled.
- Peers whose AllowedIPs are not the two default routes, application split tunnelling and IPv6 destinations.
- Trimming knows the ASCII blanks only.
- parseConfig, getStatus, text output, logging, network watchers, socket setup: plumbing.
