# dockprox, modelled in Dafny

dockprox is a local proxy that owns long-lived upstream connections (an SSH session, an openconnect VPN
process) and routes traffic onto them. This project models the parts of it that are hard to get right by
reading: the two connection clients with their locks, the supervisor that keeps listeners in step with
their upstreams, routing, SOCKS5 on both sides, and a few stream and string functions.

`dafny verify dfyconfig.toml` checks everything.

## How it is modelled

**Protocols.** Where goroutines interleave, the code is a state machine: a `Shared` value, a map from
goroutines to program points, and a `Step` function from a state and an event to the next state, or to
`None` where the event cannot happen. Any number of callers may be around, at any point of any operation.
A run is a sequence of events with the states between them, and a theorem about a run is about every
interleaving. Arrival and failure times are read off a clock that advances at every step. Accesses that
only the holder of a lock can make are merged with a neighbouring step of that holder, as are its stores to
`state`. What other goroutines may get in between is a step of its own: taking a lock, reading
and writing `held`, reading `manualOnly`, the check and the store of `setAbort`, the stores of an exiting
process's goroutine, what happens to a dial in flight.

| part | files |
|---|---|
| SSH client | `SshMachine` (steps), `SshInvariant` (what every step keeps), `SshRuns` (theorems), `SshRaces` (how long a `Down` lasts), `SshGets` (what stands behind a get), `SshClient` (the methods as written, and their steps), `SshCalls` (progress) |
| VPN client | `VpnMachine`, `VpnInvariant`, `VpnRuns`, `VpnRaces`, `VpnGets`, `VpnState` (what State shows), `VpnClient` (the methods), `VpnSteps` (their steps), `VpnCalls` |
| tunnel supervisor | `TunnelMachine`, `TunnelInvariant`, `TunnelRuns`, `TunnelRaces` (two runs in which it goes wrong), `TunnelSync` (the methods), `TunnelSteps` (their steps), `TunnelCalls` (convergence in terms of calls, and progress) |
| runs of any step function | `Runs` |
| an SSH upstream over a VPN | `SshDialer` |
| disconnecting | `Disconnect` |
| routing | `Strings`, `Matcher`, `Config`, `Registry`, `Routing` |
| SOCKS5 | `Wire` (streams and messages), `Socks5` (server and client) |
| one dial's deadlines | `Attempt` |
| probing | `Probe` |
| approvals | `Approval` |
| openconnect's output | `Tail` |
| quoting | `Quoting` |

**Sequential code** is written as the source writes it: classes whose methods change fields, loops with
invariants, each method proved against a specification. `SshClient`, `VpnSteps` and `TunnelSteps` tie the
methods to the protocols: what a method does is what the protocol's steps, those of the goroutines it waits
for included, do when nothing else comes in between.

The invariants are split by program point. For each group of points one lemma (`...Step`) says that a
goroutine's step from there establishes what holds at its next point and keeps what all others rely on;
`Stable` says that this is enough for the others, and `InvStep` puts the two together. What a waiting `Down`
may rely on is a fact about a pair of goroutines, the one that publishes its cancel function and the one that
has set `held` (`PairOther`).

## Where the code does not do what one would expect

- A `StopTunnel` that runs while a sync has selected its tunnel to be bound finds no listener to close, and
  the sync then binds it: the tunnel listens although it is stopped (`TunnelRaces.StopRacesBind`). A
  `StartTunnel` that overlaps a `StopTunnel` can leave the tunnel unbound although it is wanted
  (`TunnelRaces.StartLosesTunnel`). `TunnelRuns.QuietTunnel` gives the exact condition: which event was the
  last to concern the tunnel. `TunnelCalls.CallsApartConverge` says which calls have to be kept apart. The comment
  on `syncTunnels` promises more.
- A `Down` that overlaps an `Up` need not last: an `Up` that clears `held` after the `Down` has set it, and
  before the `Down` has left its critical section, goes on to connect, and no later `Up` is needed for that
  (`SshRaces.UpOvertakesDown`, `VpnRaces.UpOvertakesDown`). `SshRaces.DownLasts` gives the exact condition under
  which nothing connects until the next `Up` or `Close`, however the run goes on: `held` is set when the `Down`
  leaves its critical section. For the VPN client it is that `held` is set or the client closed
  (`VpnRaces.DownLasts`). `HeldIsLastStore` says what that means for the order of the calls.
- State of the VPN client can stay Connected with no process: a get that comes between the exit goroutine's
  store to `state` and its close of the done channel finds the process not done, hands it out and stores Connected
  (`VpnState.ConnectedIsStale`). `VpnState.ConnectedIsFound` says exactly when State is Connected, and
  `VpnState.StateMirrorsProcess` what holds all the same.
- `stripPort` truncates a bare IPv6 address, and both servers pick with the host without brackets. An exact
  rule for an address such as `::1` does not cover it (`Matcher.BareIPv6IsMissed`); `Matcher.RuleCoversBare`
  says exactly which exact rules cover their own host.
- `Validate` accepts an upstream with the empty name, and disconnecting it takes down every connection
  upstream that has no via, since their via is empty too (`Disconnect.UnnamedTakesAllDown`).
  `Disconnect.DisconnectIsClosure` gives the condition.
- The VPN client's `get` looks at `held` only when it is about to start a process. A `Down` is durable all
  the same, since it leaves no process behind to be reused.
- A client with SOCKS5 credentials offers only username and password, which the repository's own server
  never accepts (`Socks5.SessionWithCredentialsFails`).

## Model

| member | source | states |
|---|---|---|
| SshInvariant.InvStep | pkg/sshclient/client.go:153-304 | every step of every goroutine, and of the outside world, keeps the invariant from which the theorems on SSH runs follow |
| SshRuns.DownAbortsDial | pkg/sshclient/client.go:187-206 | while a Down past its abort section waits on mu and the holder is inside dial, that dial is cancelled, or an Up cleared held after this Down set it: never neither |
| SshRuns.HeldIsDown | pkg/sshclient/client.go:187-194 | the time a Down carries, against which the Ups of the other theorems are compared, is that of its own store to held |
| SshRuns.AbortWindow | pkg/sshclient/client.go:269-275 | abort is set exactly while the holder of mu is between its two setAbort calls, and is then the context of that holder's dial |
| SshRuns.DownBegins | pkg/sshclient/client.go:187-206 | whatever held is, a Down that leaves its critical section leaves no connection, no failure recorded and no get past its checks; the shared state is otherwise as it was, and held is what decides whether DownIsDurable applies |
| SshRuns.HeldIsLastStore | pkg/sshclient/client.go:176-194 | held is set exactly if some Down has set it and no Up has cleared it since |
| SshRuns.DownIsDurable | pkg/sshclient/client.go:184-206 | from the end of a Down that leaves held set to the next Up or Close no connection is open, State is ConnUnknown, no failure is recorded, and no get is past the check of held |
| SshRuns.DownRefusesGets | pkg/sshclient/client.go:250-261 | every get of any goroutine that ends in that time returns ErrDisconnected |
| SshRaces.DownLasts | pkg/sshclient/client.go:176-206 | a Down lasts, in that nothing is open after any continuation of the run without an Up or a Close, if and only if held is set when it leaves its critical section: otherwise some continuation without one opens a connection |
| SshRaces.UpOvertakesDown | pkg/sshclient/client.go:176-206 | there is a run in which a Down ends with held cleared by an overlapping Up, and a continuation of it without an Up or Close in which a connection opens |
| SshRuns.CloseEnds | pkg/sshclient/client.go:209-223 | when a Close leaves its critical section no connection is open, cli is unset and State is ConnDisconnected, whatever other goroutines do; held, autoconnect and the recorded failure are as before |
| SshRuns.OneConnection | pkg/sshclient/client.go:254-303 | at most one connection is open; it is cli or the one the holder of mu is dialling |
| SshRuns.OnlyDeadIsDropped | pkg/sshclient/client.go:225-237 | forget and the watcher only ever drop a current connection that has closed: a stale one never drops a newer connection |
| SshRuns.StateMirrorsConnection | pkg/sshclient/client.go:405-438 | whenever mu is free, State is Connected exactly if cli is set; Connecting and AwaitingApproval show only inside a dial of the holder of mu |
| SshRuns.FailuresAreShared | pkg/sshclient/client.go:263-267 | a get dials if and only if no uncancelled failure recorded after its arrival still stands; otherwise it returns the error of such a failure |
| SshRuns.LastErrStands | pkg/sshclient/client.go:285-298 | the recorded error is that of an uncancelled dial which no success or Down has superseded |
| SshRuns.StandingIsLastErr | pkg/sshclient/client.go:285-298 | conversely, a failure that stands is the recorded one unless a later one took its place |
| SshRuns.SinceIsArrival | pkg/sshclient/client.go:241-245 | the arrival time a get compares with is the time of its own first step |
| SshGets.DialPassedTheChecks | pkg/sshclient/client.go:241-277 | every dial, of any goroutine, comes from a get that since its arrival has found, in this order, held clear, no connection, autoconnect on unless it is an Up, and no newer failure that stands |
| SshGets.GetAnswers | pkg/sshclient/client.go:241-304 | every get that returns has its reason: a connection is the current one; ErrDisconnected means a Down that no Up has undone, or a request while autoconnect was switched off last; an error is that of its own dial or of a newer failure that stood |
| SshGets.AbortedDialIsDiscarded | pkg/sshclient/client.go:483-492 | a finished handshake is closed and fails exactly if the abort of its dial has started by then, and goes on to be adopted otherwise |
| SshGets.AdoptedWasFinished | pkg/sshclient/client.go:296-303 | a connection is adopted only by the dial that made it, whose abort had not started when it finished; it then is cli, and State is Connected |
| SshGets.CancelledIsHistory | pkg/sshclient/client.go:187-197 | a dial is cancelled exactly if its caller has given up, a Down has found it published, or its own get is through with it |
| SshGets.AbortNeedsCancel | pkg/sshclient/client.go:440-443 | the abort of a dial starts only once that dial is cancelled |
| SshGets.CancelStartsAbort | pkg/sshclient/client.go:440-443 | and it can start as soon as that is so |
| SshGets.ApprovalIsShown | pkg/sshclient/client.go:405-438 | at every state of every run State is AwaitingApproval exactly if a sign request has begun and neither it nor its dial has ended |
| SshRuns.ChannelRetryIsFresh | pkg/sshclient/client.go:148-172 | a DialContext opens at most two channels, the second on another connection than the first, whatever others do in between |
| SshGets.ChannelOutcome | pkg/sshclient/client.go:153-172 | a DialContext of any run returns what its last channel open brought, and goes round again only after a broken first one |
| SshCalls.CallsDoWell | pkg/sshclient/client.go:153-350 | in every run each kind of call stays at its own steps and ends with a result of its kind; every connection ever adopted has a watcher of its own, and the current one's has yet to drop it |
| SshCalls.DeadStaysDead | pkg/sshclient/client.go:225-237 | a connection that has died is never open again |
| SshCalls.NobodyIsStuck | pkg/sshclient/client.go:153-304 | in every state of every run in which some call has not returned, some goroutine can take its next step, or the dial or channel open it waits for can turn out: the two locks never deadlock |
| SshClient.DownIsItsSteps | pkg/sshclient/client.go:187-206 | the method Down does what an uninterrupted Down of the protocol does |
| SshClient.CloseIsItsSteps | pkg/sshclient/client.go:209-223 | the same for Close |
| SshClient.ForgetIsItsSteps | pkg/sshclient/client.go:227-237 | the same for forget, after which DialContext goes round its loop |
| SshClient.GetIsItsSteps | pkg/sshclient/client.go:241-304 | the same for get in all its branches, called by a Get, an Up or a DialContext, for a dial that succeeds, fails or is cancelled |
| SshClient.UpIsItsSteps | pkg/sshclient/client.go:176-182 | the same for Up, its store to held included |
| SshClient.DialContextIsItsSteps | pkg/sshclient/client.go:153-172 | the same for DialContext, through both of its rounds, with the outcome of each channel open |
| SshCalls.GetInRun | pkg/sshclient/client.go:241-304 | what these ask of the contexts holds at every state of every run at which both locks are free, so that a get does there what the method does |
| SshCalls.NoContextIsLeft | pkg/sshclient/client.go:269-275 | while mu is free, every context that any get has made is cancelled |
| SshClient.Client.Down | pkg/sshclient/client.go:187-206 | held is set, the published dial is cancelled, the connection is closed, the failure forgotten, State ConnUnknown, nothing else changes |
| SshClient.Client.Close | pkg/sshclient/client.go:209-223 | the connection is closed, cli unset and State ConnDisconnected; held, autoconnect, the recorded failure and abort stay |
| SshClient.Client.Forget | pkg/sshclient/client.go:227-237 | the connection is closed in any case, and dropped only if it is the current one |
| SshClient.Client.Get | pkg/sshclient/client.go:241-304 | the whole new state and the result, branch by branch |
| SshClient.Client.SetAbort | pkg/sshclient/client.go:392-403 | refuses to publish exactly while held; otherwise changes abort alone |
| SshClient.Client.DialContext | pkg/sshclient/client.go:153-172 | at most two channel opens, a second only after a broken first and on another connection; success exactly if the last one opened; the whole new state |
| VpnInvariant.InvStep | pkg/openconnect/client.go:210-412 | every step, those of process-exit goroutines included, keeps the invariant from which the theorems on VPN runs follow |
| VpnRuns.DownAbortsStart | pkg/openconnect/client.go:220-239 | while a Down past its abort section waits on mu and the holder is inside start, that start is cancelled, or an Up cleared held after this Down set it |
| VpnRuns.HeldIsDown | pkg/openconnect/client.go:220-227 | the time a Down carries is that of its own store to held |
| VpnRuns.AbortWindow | pkg/openconnect/client.go:291-297 | abort is set exactly while the holder of mu is between its two setAbort calls, and is then the context of that holder's start |
| VpnRuns.DownBegins | pkg/openconnect/client.go:220-239 | whatever held is, a Down that leaves its critical section leaves no process, no exit goroutine, no failure recorded and no get past its checks; held or a closed client decides whether DownIsDurable applies |
| VpnRuns.HeldIsLastStore | pkg/openconnect/client.go:210-227 | held is set exactly if some Down has set it and no Up has cleared it since |
| VpnRuns.DownIsDurable | pkg/openconnect/client.go:218-239 | from the end of a Down that leaves held set, or the client closed, to the next Up or Close no process runs, State stays ConnUnknown though exit goroutines of earlier processes may have been around, and no get can go on to start one |
| VpnRuns.DownRefusesGets | pkg/openconnect/client.go:267-296 | every get that ends in that time returns ErrDisconnected, or that the client is closed |
| VpnRaces.DownLasts | pkg/openconnect/client.go:210-239 | a Down lasts, in that nothing runs after any continuation of the run without an Up or a Close, if and only if held is set, or the client closed, when it leaves its critical section |
| VpnRaces.UpOvertakesDown | pkg/openconnect/client.go:210-239 | there is a run in which a Down ends with held cleared by an overlapping Up, and a continuation of it without an Up or Close in which a process starts |
| VpnRuns.OneProcess | pkg/openconnect/client.go:271-316 | at most one process runs; it is proc or the one the holder of mu is starting or stopping |
| VpnRuns.NoProcessLeftBehind | pkg/openconnect/client.go:391-411 | when start has failed, or stop has returned to Down or Close, no process runs and no exit goroutine has yet to publish a state |
| VpnRuns.FailuresAreShared | pkg/openconnect/client.go:285-289 | a get starts a process if and only if no uncancelled failure recorded after its arrival still stands; otherwise it returns the error of such a failure |
| VpnRuns.LastErrStands | pkg/openconnect/client.go:301-314 | the recorded error is that of an uncancelled start which nothing has superseded |
| VpnRuns.StandingIsLastErr | pkg/openconnect/client.go:301-314 | conversely, a failure that stands is the recorded one unless a later one took its place |
| VpnGets.StartPassedTheChecks | pkg/openconnect/client.go:261-291 | every start, of any goroutine, comes from a get that since its arrival has found, in this order, no Close begun, no process that is not done, autoconnect on unless it is an Up, and no newer failure that stands |
| VpnGets.PublishedUnheld | pkg/openconnect/client.go:319-332 | a start is published only by a get that found held clear, no Down having set it since the last Up |
| VpnGets.GetAnswers | pkg/openconnect/client.go:261-317 | every get that returns has its reason: an address is that of the client's process; ErrClosed means that a Close had begun; ErrDisconnected a Down not undone, or autoconnect off; an error is that of its own start or of a newer failure that stood |
| VpnGets.ClosedIsClose | pkg/openconnect/client.go:243-244 | the client is closed exactly if some Close has begun |
| VpnGets.ClosingRefusesGets | pkg/openconnect/client.go:267-269 | a get that looks at the client after some Close has begun returns ErrClosed, and any other goes on |
| VpnGets.CloseEnds | pkg/openconnect/client.go:243-257 | when a Close leaves its critical section the client is closed, no process and no exit goroutine is left, State is ConnDisconnected and no get is past its checks; held, autoconnect and the recorded failure are as before |
| VpnGets.ClosedForGood | pkg/openconnect/client.go:241-257 | from there on, for ever and whatever Ups and Downs come, no process runs and State is Disconnected or Unknown |
| VpnGets.CloseRefusesGets | pkg/openconnect/client.go:241-257 | every get of any goroutine that ends after it returns ErrClosed |
| VpnGets.CancelledIsHistory | pkg/openconnect/client.go:220-227 | a start is cancelled exactly if its caller has given up, a Down has found it published, or its own get is through with it |
| VpnGets.NoContextIsLeft | pkg/openconnect/client.go:291-297 | while mu is free, every context that any get has made is cancelled |
| VpnState.StateMirrorsProcess | pkg/openconnect/client.go:278-316 | at every state of every run State reports an attempt only inside a start, always while that start prepares its process or waits for one whose exit is not published, and is Connected whenever mu is free and the client has a process whose exit is not published |
| VpnState.StateIsLastWritten | pkg/openconnect/client.go:278-383 | State is what the last of its writers has stored: gets, Downs and Closes under mu, exit goroutines without it |
| VpnState.ConnectedIsFound | pkg/openconnect/client.go:271-316 | State is Connected exactly if the last of them was a get that adopted its process or found the client's process not done |
| VpnState.ConnectedIsStale | pkg/openconnect/client.go:271-383 | a run that ends with every goroutine through, State Connected and no process running |
| VpnCalls.NobodyIsStuck | pkg/openconnect/client.go:210-412 | in every state of every run in which some call or exit goroutine has not ended, some goroutine can take its own next step, or a process runs whose exit goroutine waits for it: no start has to give up for that, and a Down or Close that holds mu while it waits for its process blocks nobody whom that process's end needs |
| VpnCalls.CallsDoWell | pkg/openconnect/client.go:210-412 | in every run each kind of call stays at its own steps and ends with a result of its kind |
| VpnSteps.DownIsItsSteps | pkg/openconnect/client.go:220-239 | the method Down does what a Down of the protocol does together with the process it stops and the exit goroutine it waits for, wherever that one is |
| VpnSteps.CloseIsItsSteps | pkg/openconnect/client.go:243-257 | the same for Close |
| VpnSteps.GetIsItsSteps | pkg/openconnect/client.go:261-412 | the same for get in all its branches, with a start that fails early, exits, is cancelled, is closed, runs out of time or succeeds |
| VpnSteps.UpIsItsSteps | pkg/openconnect/client.go:210-216 | the same for Up, its store to held included |
| VpnCalls.StepsApply | pkg/openconnect/client.go:365-383 | what these ask of the exit goroutines and of the recorded failure holds at every state of every run |
| VpnClient.FailedStartLeavesNoProcess | pkg/openconnect/client.go:391-411 | a start that fails, by whatever case of its select, leaves the processes it found; one that succeeds adds exactly one |
| VpnClient.AddressMeansProcess | pkg/openconnect/client.go:271-316 | get hands out an address only with a process behind it whose done channel is open, with State Connected and the client not closed |
| VpnClient.Client.Start | pkg/openconnect/client.go:336-412 | polls until the first event that ends it, succeeds exactly if that is a tick that finds the tunnel up, and reports no drop |
| VpnClient.Client.Exit | pkg/openconnect/client.go:367-383 | publishes Disconnected, closes done, and reports a drop exactly if the tunnel was up, was not being stopped and the client is open |
| VpnClient.Client.StopProcess | pkg/openconnect/client.go:500-510 | returns with the process gone and its done channel closed, without a drop |
| VpnClient.Client.Down | pkg/openconnect/client.go:220-239 | held is set, the process has ended with its done channel closed, the failure is forgotten, State is ConnUnknown; no drop is reported |
| VpnClient.Client.Close | pkg/openconnect/client.go:243-257 | the client is closed, its process has ended with its done channel closed, State is ConnDisconnected; held, autoconnect, the recorded failure and abort stay; no drop is reported |
| VpnClient.Client.Get | pkg/openconnect/client.go:261-317 | the whole new state and the result, branch by branch |
| SshDialer.SSHDialer.Up | pkg/upstream/ssh.go:86-98 | undoes a Down of the via, then of the connection; the SSH client is untouched unless the via came up, and starts no dial before |
| SshDialer.SSHDialer.Dial | pkg/upstream/ssh.go:48-59 | no SSH dial starts unless the via is up; a via that fails leaves the SSH client untouched, otherwise the result and the new state are those of DialContext |
| SshDialer.SSHDialer.ConnectVia | pkg/upstream/ssh.go:122-130 | succeeds exactly if there is no via to connect or it came up, autoconnect permitting |
| TunnelRuns.InvStep | internal/menubar/controller.go:470-857 | every step of syncs, stops, starts, hooks and Serve goroutines keeps the supervisor's invariant |
| TunnelRuns.QuietTunnel | internal/menubar/controller.go:702-749 | at every state with no sync due or running, no StartTunnel of it inside Up and no unbind of it in progress, a pinned tunnel listens exactly if its upstream is connected and it is not stopped, if and only if the last event that concerned it was no racing StopTunnel and, if it should listen, no mishap; calls on other tunnels may be anywhere |
| TunnelRuns.FlagsAreHistory | internal/menubar/controller.go:470-517 | the flags of the protocol say exactly that: the last event that concerned the tunnel was a StopTunnel racing its selection, or was a failed bind or Serve, a StopTunnel that closes a listener after a StartTunnel undid its mark, or a sync that should bind it and finds it still closing |
| TunnelRuns.TunnelsConverge | internal/menubar/controller.go:702-749 | without those events, at every state of every run that is quiet for it a pinned tunnel listens exactly if its upstream is connected and it is not stopped |
| TunnelRuns.DisconnectedIsUnbound | internal/menubar/controller.go:702-749 | without a racing StopTunnel, a tunnel of an upstream that is not connected does not listen at a state quiet for it, whatever else failed |
| TunnelCalls.CallsApartConverge | internal/menubar/controller.go:470-517 | in terms of calls: if no StopTunnel of a tunnel overlaps a sync or a StartTunnel of it, and no bind or Serve of it fails, then at every state quiet for it the tunnel listens exactly if its upstream is connected and it is not stopped |
| TunnelCalls.SyncsHaveACause | internal/menubar/controller.go:702-749 | in every run each sync that selects comes from a StartTunnel or from a change of some upstream's state; one of an earlier registry never selects |
| TunnelCalls.SelectionIsUndisturbed | internal/menubar/controller.go:712-731 | while a sync selects, no other goroutine changes a stop mark or a listener |
| TunnelCalls.NobodyIsStuck | internal/menubar/controller.go:679-749 | in every state of every run in which some call, sync or cancelled Serve goroutine has not ended, some goroutine can go on, however they wait for mu, syncMu and the done channels of listeners |
| TunnelRaces.StopRacesBind | internal/menubar/controller.go:479-482 | a run that ends quiet with a stopped tunnel that listens |
| TunnelRaces.StartLosesTunnel | internal/menubar/controller.go:506-516 | a run that ends quiet with a wanted tunnel that does not listen |
| TunnelSync.ProxyController.SyncTunnels | internal/menubar/controller.go:705-749 | a sync of the running registry leaves listening exactly the wanted tunnels that were bound or can be, keeps the listeners of those, and touches no stop mark; any other sync changes nothing |
| TunnelSteps.SyncIsItsSteps | internal/menubar/controller.go:705-749 | a sync of the protocol, with the Serve goroutines it waits for, does the same |
| TunnelSteps.StopIsItsSteps | internal/menubar/controller.go:470-483 | a StopTunnel of the protocol, with the Serve goroutine it waits for, does what the method does |
| TunnelSteps.StartIsItsSteps | internal/menubar/controller.go:492-857 | a StartTunnel of the protocol, with connectTunnel's goroutine and the Serve goroutines it waits for, does what the method does |
| TunnelSteps.ServedAt | internal/menubar/controller.go:800-832 | what these three ask of the listeners and the locks holds, at the states of runs, exactly when no cancelled listener has yet to be cleared and no goroutine is between taking and leaving a lock |
| TunnelSync.ProxyController.BindTunnel | internal/menubar/controller.go:649-677 | keeps the listener of a bound tunnel, else makes a new one if the address can be bound |
| TunnelSync.ProxyController.StopTunnel | internal/menubar/controller.go:470-483 | stops and unbinds the named tunnel and no other; fails exactly for an unknown name |
| TunnelSync.ProxyController.StartTunnel | internal/menubar/controller.go:492-517 | undoes the stop mark of the named tunnel only, and the sync that follows its Up brings every tunnel to what it should do |
| Disconnect.DisconnectIsClosure | internal/menubar/controller.go:623-646 | in an accepted configuration a disconnect holds down exactly the upstreams whose via chain reaches the named one, if and only if it does not catch bystanders, which takes an upstream with the empty name |
| Disconnect.NoLongChain | pkg/config/validate.go:131-147 | in an accepted configuration no chain of vias has two links |
| Disconnect.ViaIsShallow | pkg/config/validate.go:199-203 | only ssh upstreams have a via, which exists and has none itself |
| Disconnect.DisconnectUnbinds | internal/menubar/controller.go:623-646 | as long as the Downs of a disconnect hold, with neither an Up nor a Close since, once the state is quiet for a tunnel that is pinned to a disconnected upstream, or to one that reaches its bastion through it, that tunnel does not listen, unless a StopTunnel of it raced its selection |
| Disconnect.UnnamedTakesAllDown | internal/menubar/controller.go:782-786 | an accepted configuration in which a disconnect takes down an unrelated upstream |
| Disconnect.Controller.DisconnectUpstream | internal/menubar/controller.go:630-646 | holds down the named upstream and its dependents, or fails and changes nothing |
| Disconnect.Controller.UpstreamDropped | internal/menubar/controller.go:755-768 | holds down the dependents of a dropped upstream but not the upstream itself |
| Matcher.Matcher.First | pkg/match/match.go:63-87 | the index answers with the very rule that a scan of the rules finds first |
| Matcher.Matcher.Add | pkg/match/match.go:47-56 | indexing one more rule keeps the index in agreement with the rule list, duplicates and overlaps included |
| Matcher.ScanIsLeast | pkg/match/match.go:60-62 | the scan's answer is the lowest rule whose lower-cased pattern covers the host, and there is no other such answer |
| Matcher.BestIsScan | pkg/match/match.go:63-87 | the minimum over the exact entry and the matching suffix entries is the scan's answer |
| Matcher.CaseIsIgnored | pkg/match/match.go:47-64 | hosts that differ only in the case of letters get the same answer, from rule lists whose patterns differ only in case |
| Matcher.CoversMeans | pkg/match/match.go:47-87 | a pattern with a leading *. covers exactly the hosts that end, case aside, in the rest of it after a dot; any other exactly those that equal it, case aside |
| Matcher.PatternIsValid | pkg/match/match.go:107-126 | the accepted patterns are the non-empty ones without a star, and those with one star, in a leading *. |
| Strings.LowerIsExact | pkg/match/match.go:46-64 | lower-casing leaves no capital letter and identifies exactly the strings that differ only in case |
| Matcher.New | pkg/match/match.go:32-59 | fails with the complaint about the first bad rule, else builds a valid matcher for exactly these rules |
| Matcher.FirstErrorIsFirst | pkg/match/match.go:36-45 | that complaint is true, and true of no earlier rule |
| Matcher.StripPortOfJoined | pkg/match/match.go:89-105 | stripPort undoes net.JoinHostPort exactly for the hosts described |
| Matcher.StripPortOfBare | pkg/match/match.go:89-105 | a host without port is left as it is exactly under the stated condition, which a bare IPv6 address fails |
| Matcher.RuleCoversBare | pkg/match/match.go:63-87 | an exact rule for a host covers that host, given bare, exactly under the stated condition |
| Matcher.RuleCoversJoined | pkg/match/match.go:63-87 | and given with a port, as net.JoinHostPort writes it, exactly under another |
| Matcher.BareIPv6IsMissed | pkg/socks5server/handler.go:149-155 | an accepted rule for the address ::1 that does not cover it bare, and does with brackets and port |
| Config.Validate | pkg/config/validate.go:41-160 | accepts exactly the configurations with which nothing is wrong, and otherwise names what is wrong first in the order of its checks: of a bad upstream its first fault, of vias and references the first by sorted name |
| Config.FirstIsUnique | pkg/config/validate.go:41-160 | for every configuration there is at most one first complaint, unless several upstreams are bad |
| Config.ValidateUpstream | pkg/config/validate.go:164-305 | an upstream passes exactly if none of its nineteen kinds of fault is in it, those of its type, fields of other types and the dns mode; otherwise the first in the order of the checks is returned |
| Config.CheckListener | pkg/config/validate.go:85-129 | a listener passes exactly if none of the eight complaints about it applies; otherwise the first that does is returned |
| Config.CheckVias | pkg/config/validate.go:131-147 | every via exists and is no ssh upstream, or the first in name order that does not or is gets named; collects exactly the vias used |
| Registry.NewRegistry | pkg/upstream/registry.go:19-42 | in every map order, succeeds exactly if every upstream can be built, and then holds exactly the configured names, each over the dialer of its via; when a build fails everything built that has a Close is closed |
| Registry.Pass | pkg/upstream/registry.go:26-39 | one pass builds exactly the upstreams of its kind, or stops at one that cannot be built |
| Registry.Registry.Close | pkg/upstream/registry.go:47-57 | closes exactly the dialers of ssh and openconnect upstreams, which have a Close |
| Routing.RulesAreAccepted | pkg/match/match.go:107-126 | match.New accepts the rules of every configuration that Validate accepts |
| Routing.ViasAreBuilt | pkg/upstream/registry.go:93-99 | in an accepted configuration each ssh upstream got the registry's own dialer for its via |
| Routing.Server.Pick | pkg/proxy/handler.go:145-153 | the dialer of the first rule that covers the host, or the direct one |
| Routing.Start | internal/menubar/controller.go:257-320 | from a configuration to a server: succeeds exactly if it is accepted and every upstream can be built |
| Routing.Server.PickServing | pkg/proxy/handler.go:145-153 | on a server for an accepted configuration every host goes to the configured dialer of its first covering rule, and to the direct one only if no rule covers it |
| Wire.Conn.ReadFull | pkg/socks5server/handler.go:77-80 | reads exactly n bytes however the stream is fragmented, or fails at its end |
| Wire.ParseOfMessage | pkg/socks5server/handler.go:113-168 | parsing a request or reply written for any address and port gives it back and leaves what follows |
| Wire.MessageOfParse | pkg/socks5server/handler.go:113-168 | only such messages parse |
| Wire.ParseOfAuthMessage | pkg/upstream/socks5.go:83-96 | the credentials message of section 2 of RFC 1929 reads back as user and password |
| Socks5.NegotiateMethod | pkg/socks5server/handler.go:76-99 | accepts exactly the greetings of section 3 of RFC 1928 that offer no authentication, and then stands behind them; refuses the others, for every input |
| Socks5.GreetingOutcome | pkg/socks5server/handler.go:76-99 | in terms of greetings: one that offers no authentication is answered 5 0, any other 5 255, and what is no greeting not at all |
| Socks5.ReadRequest | pkg/socks5server/handler.go:115-168 | consumes exactly one request and returns its command, address and port, or says what is wrong with the input |
| Socks5.RequestErrorMeans | pkg/socks5server/handler.go:115-168 | what the errors mean: another version, an unknown address type, or a stream that ends where more bytes would have made it a request |
| Socks5.WriteReply | pkg/socks5server/handler.go:171-174 | writes a reply of section 6 of RFC 1928 with a zero bound address |
| Socks5.DrainReply | pkg/upstream/socks5.go:150-179 | succeeds exactly on a reply with code 0 and any well-formed bound address, and then stands behind it; a reply with another code is reported with that code |
| Socks5.ReplyOutcome | pkg/upstream/socks5.go:150-179 | the same for the function that specifies it; a failure code is reported only if it was in the reply |
| Socks5.Dial | pkg/upstream/socks5.go:32-184 | for every answer of the proxy, how Dial ends and what it has sent: it succeeds exactly if credentials and name fit, the proxy takes method and credentials, and its reply has code 0, and then stands behind the reply; another code is its error |
| Socks5.DialOutcome | pkg/upstream/socks5.go:64-181 | the same for the function that specifies it, with the status byte of RFC 1929 and the refusal of another method |
| Socks5.SuccessSendsTranscript | pkg/upstream/socks5.go:64-148 | a Dial that succeeds has sent exactly the greeting, the credentials if any, and the request |
| Socks5.SendConnect | pkg/upstream/socks5.go:108-181 | sends exactly the request of section 4 of RFC 1928 for the target, an IPv4-mapped address as IPv4, and nothing for a name of more than 255 bytes |
| Socks5.AddressGoesOut | pkg/upstream/socks5.go:127-133 | an address of four bytes, and one of sixteen that maps it, go out as the same IPv4 address; any other of sixteen as it is |
| Socks5.ReplyIsDrained | pkg/upstream/socks5.go:150-179 | the client drains every successful reply, with any bound address, up to the first payload byte |
| Socks5.RequestIsUnderstood | pkg/socks5server/handler.go:115-168 | the server reads from the client's bytes the command, address and port the client was given, and stands at the first payload byte |
| Socks5.AnswerIsUnderstood | pkg/upstream/socks5.go:64-81 | the client takes the server's answers for success and stands at the first payload byte |
| Socks5.SessionWithCredentialsFails | pkg/upstream/socks5.go:64-81 | a client with credentials is refused by this server, and says so |
| Attempt.Attempt.Add | pkg/sshclient/attempt.go:28-34 | a new socket gets the shared deadline, an expired one after an abort |
| Attempt.Attempt.Extend | pkg/sshclient/attempt.go:36-48 | moves the deadline of every socket, and none after an abort |
| Attempt.Attempt.Abort | pkg/sshclient/attempt.go:50-60 | expires every socket |
| Attempt.AbortSticks | pkg/sshclient/attempt.go:28-76 | in every run of a dial all sockets carry one deadline until the connection is handed out; once abort has run, present and later sockets stay expired |
| Attempt.DeadlineIsLast | pkg/sshclient/attempt.go:28-76 | in every run the deadline all sockets carry is the one set last, the attempt's own before any, and the past one of time 1 exactly from where abort has run |
| Attempt.HandedOutIsNeverExpired | pkg/sshclient/client.go:483-492 | a connection handed out carries no deadline and none is put on it later, however late the cancel |
| Attempt.StartedAbortDiscards | pkg/sshclient/client.go:440-488 | in every run, dial has kept its connection exactly if it stopped the timer before abort had started, whatever was cancelled and when; once abort has started it keeps none |
| Attempt.AbortStartsInDial | pkg/sshclient/client.go:440-443 | abort starts only after a cancel, and never once dial has returned, with a connection or without |
| Attempt.DialsEnd | pkg/sshclient/client.go:440-492 | a run that hands its connection out although the context is cancelled right after the timer was stopped, and one whose cancel expires every socket |
| Probe.Keepalive | pkg/sshclient/client.go:357-387 | ends at the stated time and way, no later than max(probe, stall + 1s) |
| Probe.OneOutcome | pkg/sshclient/client.go:357-387 | the stated time and way are unique |
| Probe.NeverTooSoon | pkg/sshclient/client.go:353-356 | a probe is given up, answered later or never, not before probe, nor before stall while every look sees a write in flight, at no look that finds an answer, and at the first look at which neither excuse holds |
| Probe.PromptAnswerSucceeds | pkg/sshclient/client.go:370-375 | an answer before the first look always counts |
| Probe.Watch | pkg/sshclient/client.go:329-350 | a connection silent after some time ends within two heartbeats and the bound of a probe, one that was active until it closed ends right then; only one that read nothing for a heartbeat and failed a probe is given up, and none is probed once it has closed where the select prefers that |
| Approval.InvStep | internal/menubar/controller.go:888-899 | every step of every hook keeps the count equal to the number of upstreams reported pending, and the app in front only while it is positive |
| Approval.ReportsAlternate | internal/menubar/controller.go:885-899 | each hook reports true, false, true and so on |
| Approval.HookGoesOn | internal/menubar/controller.go:885-899 | a hook under way can always go on, and ends having told the counter whether its upstream awaits an approval, if that is news |
| Approval.OneApproval | internal/menubar/controller.go:885-899 | a run in which one approval activates the app and hides it again |
| Approval.PendingIsAwaiting | internal/menubar/foreground.go:96-119 | once no hook is under way the counter equals the number of upstreams that await an approval |
| Approval.GuardNeverFires | internal/menubar/foreground.go:109-111 | whenever the counter is told of an end, it is positive, and goes down by one |
| Approval.ActivatedHasPending | internal/menubar/foreground.go:113-118 | the app counts as activated only while a request is pending |
| Approval.ActivatedIsHistory | internal/menubar/foreground.go:96-150 | the app counts as activated exactly if the first of the requests now pending had its activation dispatched in time, with the counter positive ever since |
| Approval.Foreground.Set | internal/menubar/foreground.go:96-119 | the new counter, and that the app hides exactly when the last request of an activation goes |
| Tail.Tail.Write | pkg/openconnect/tail.go:23-51 | the loop ends, and moves the complete lines of buffer and input, trimmed and non-blank, to a window of the last ten |
| Tail.KeptAreNonBlank | pkg/openconnect/tail.go:35-44 | what is kept of lines is what trimming leaves of those that are not blank |
| Tail.LastTenAreLast | pkg/openconnect/tail.go:44-47 | the window is the end of what is kept, all of it or ten lines |
| Tail.WrittenTwice | pkg/openconnect/tail.go:23-51 | from any state, two writes do what one write of both does |
| Tail.ChunksDoNotMatter | pkg/openconnect/tail.go:15-51 | however a stream is cut into writes, a tail ends with what it leaves after its complete lines and the last ten non-blank trimmed ones |
| Tail.LinesAreSplit | pkg/openconnect/tail.go:29-36 | the lines and the rest lose nothing and hold no newline |
| Tail.SplitIsUnique | pkg/openconnect/tail.go:29-36 | there is no other such split |
| Tail.RestIsAfterLast | pkg/openconnect/tail.go:29-36 | the rest is what follows the last newline |
| Tail.Tail.String | pkg/openconnect/tail.go:53-63 | the kept lines and the unfinished one, if not blank, joined; nothing changes |
| Strings.JoinFromTheRight | pkg/openconnect/tail.go:62-62 | joining puts one separator between neighbours and nothing else |
| Strings.TrimSpaceIsExact | pkg/openconnect/tail.go:35-35 | trimming drops the white space at both ends, all of it and nothing else |
| Quoting.ShellReadsQuoted | pkg/openconnect/sudoers.go:104-107 | a reader of section 2.2 of the POSIX Shell Command Language reads the quoted form of any string as that string, and goes on unquoted |
| Quoting.ShellReadsOneWord | pkg/openconnect/sudoers.go:104-107 | one word, equal to the string, if what follows ends a word |
| Quoting.TwoPassesAreOne | pkg/openconnect/sudoers.go:110-114 | the two replacement passes equal one escape per character |
| Quoting.LiteralReadsBack | pkg/openconnect/sudoers.go:109-115 | undoing the escapes of an AppleScript literal gives the string, and the literal ends where it should |
| Quoting.ScriptWritesContent | pkg/openconnect/sudoers.go:94-102 | through both quoters, the word that the install script hands to printf is the content |

## Left out

- Real sockets, TLS, the SSH handshake, agents, host keys, exec, signals and sudo: their outcomes are events or parameters (a dial connects, fails or is cancelled; a process becomes ready or exits; an address can be bound or not).
- `MarkConnecting` and `SSHDialer.Connect`: a lock-free display hint that may show Connecting with no dial under way, so `SshRuns.StateMirrorsConnection` excludes it.
- The callbacks of setState in the two client protocols: the supervisor and the approval counter model them, as steps that follow a state change.
- The VPN's resolver, its tun script and the drop hook inside the protocol: `VpnClient.Client.Exit` models the decision that a process has dropped, without interleaving.
- Start, Stop, Restart and the launch of the Serve goroutines: supervisor runs begin when Start has returned, with the registry that is then the running one; syncs of an earlier registry appear as stale.
- Shutdown timeouts: an unbind waits until its listener has closed.
- Fairness: the progress theorems say that some goroutine can go on while a call is under way, not that a given call ends; Up inside a StartTunnel, dials, channel opens and processes are taken to end at some time.
- Listeners that are not pinned to a connection upstream: they bind in Start and follow no state.
- TunnelRuns.TunnelsConverge: excludes the events after which it can fail; `TunnelRuns.QuietTunnel` is the form without exclusions.
- Order within the lists of syncTunnels, connNames and NewRegistry's maps: loops take the elements in any order, which includes the source's.
- SshClient.Client.Get: the method, like the others of `SshClient`, `VpnClient` and `TunnelSync`, is sequential; what comes in between is the matter of the protocols.
- VpnSteps.GetIsItsSteps: but for the clock, and the time of a failure that it records, since the protocol's clock advances meanwhile.
- Config.Validate: of several bad upstreams any may be named, as the source walks a map.
- Config: net.SplitHostPort, url.Parse and the decoding of base64 are parameters; any functions will do.
- Strings: lower-casing and white space are ASCII, and text is a sequence of characters, not of UTF-8 bytes.
- Socks5.Dial: the resolved address and the secrets behind credentials are inputs, so the failures of finding them are not modelled, nor are write errors and timeouts on the connection.
- The SOCKS5 server renders addresses as text before it picks a dialer; addresses stay bytes here.
- Attempt: onSign is taken to be set, as dial sets it.
- Probe.Watch: timers and tickers are ideal, and reads and answers are known at once; it is followed up to a given time, since a live connection is watched for ever.
- Approval: state changes of one upstream do not overlap, since they happen under its client's mu, and onApproval is taken to be set; whether activating the app succeeds is an input.
- Quoting: the reader refuses words that ask for expansions and does not model file name patterns or comments, none of which a quoted word contains.
- HTTP parsing and forwarding, byte splicing, secrets, settings, tray, icons, the command line, YAML loading and log files: they rest on libraries that are not visible here or would add easy members only.
