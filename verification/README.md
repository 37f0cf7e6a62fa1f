# What Yuzora's Companion promises, in Dafny

This project models the stateful core of Yuzora's Companion and of its neighbours, and proves what
their comments promise. `dafny verify dfyconfig.toml` checks all of it.

**The take-down protocol.** A gateway that leaves must hold its port until nothing forwards to it any
more. Three parts share that duty:

- `Gateway`, `GatewayRuns` and the three modules on top: the gateway supervisor. `Gateway` gives each
  critical section as a function, and a class that performs it on its fields. `GatewayRuns` lets
  starts, stops, event readers of old and new processes, disk writes, deliveries of push messages,
  deadlines and commands interleave. `CommandAnswers` is about what callers are told, `GatewayStatus` about what
  is shown, `GatewayHalts` about what a halted gateway can still do.
- `Node`: the same for the node supervisor.
- `Takedown`: both supervisors, the sidecar behind its two pipes and the orchestration, as one
  transition system. An action is one critical section, one write or one sidecar command. The locks
  `ops` and `serving`, the leaving count, the closing tasks, the queued cleanups and notices are
  explicit. A wait may end by its deadline at any time, so nothing rests on how long anything takes.
- `TakedownSafety`: the inductive invariant. `PortHeld`: the main result.
- `EnablePath` and `EnableEnds`: what an enable goes through, and what it or a disable ends with.
- `NodeReports`: what the node supervisor knows. `NodeEnds`: how a cleanup, a login and a logout end.
- `SettingsFollow`: the node's identity in the settings.
- `ServedGateway` and `StaleServing`: what the answer of an enable means.

**The rest.** `Devices` (the paired devices and their file), `Records` (the capped line reader),
`Askpass` and `AskpassRuns` (the secret broker), `PushStore` and `PushCooldown` (push
subscriptions and the one-minute rule), `Slots` (the listener's connections), `CertLoop` and
`NodeEvents` (the status poll, its certificate loops and what the desktop hears of them),
`LogLimits` and `RejectLimiter` (rate limits), `CredentialKey` and `MsiVersion` over `Decimal` (two encodings).

Objects whose methods update fields are classes whose methods are proved equal to functions of the
old state; the results over runs are about those functions. A write to disk succeeds, or fails and
leaves the old or the new file (`Devices.WriteOutcome`). Clocks, process ids, WhoIs answers, the
order of events and every choice of the environment are parameters of actions.

## What the code does not keep

Nine statements one would expect turn out to hold only under a condition. Each has its exact
condition and, where it fails, a run or a continuation that shows it.

- *The listener behind a successful enable is the new gateway's.* A gateway that crashes leaves
  `serving` set. If the user enables again before the cleanup gets `ops`, the new `serve` is
  answered by that flag, while the sidecar refuses the command because it is already serving. The
  listener goes on with the proxy secret and the login of the earlier `serve`
  (`ServedGateway.ServedExactly`, `StaleServing.StaleRun`).
- *A start gives the gateway the device list on disk.* The list is read before the store lock is
  taken, so an event of the process before, whose write outlasts it, can slip in between
  (`GatewayRuns.FreshListExactly`, `GatewayRuns.StaleListRun`).
- *A new gateway starts with no expiry against it.* An expiry of the process before that is in hand
  as the start begins is marked after the start has cleared the mark
  (`GatewayRuns.UnexpiredExactly`, `GatewayRuns.ExpiredRun`).
- *A start that nobody stops installs its process or says why it could not.* When a change that the
  process before had reported cannot be written, that halts whatever is there, a start under way too
  (`GatewayStatus.StartsExactly`, `GatewayStatus.CalledOffRun`).
- *Nothing a halted gateway says is acted on.* An event that is past the check when the halt lands
  is still written and applied; and a stop overwrites the status that marks the halt, after which
  every event counts again (`GatewayHalts.HaltedExactly` and `GatewayHalts.InHandRun`,
  `GatewayHalts.StopReopens` and `GatewayHalts.StoppedRun`).
- *A process that has been replaced changes nothing.* No event of it does, but a push delivery that
  it has asked for deletes a subscription when the push service answers late
  (`GatewayRuns.DeliveriesExactly`, `GatewayRuns.OldDeliveryRun`).
- *At most twice the maximum of log lines passes in a window's length.* A close starts a new window
  at once, and requests that are still being served write after it. With n closes the bound is
  2 + n times the maximum, and it is reached: for the ten lines a minute of the code and one close,
  30 lines (`LogLimits.FloodExactly`, `LogLimits.FloodIsReached`).
- *A rejected peer is reported once a minute.* A call reads the clock before it takes the lock. Another
  call that has read it later, but gets the lock first, may clear a full table of keys that are still
  recent for the first (`RejectLimiter.AnswersExactly`, `RejectLimiter.LostExactly`,
  `RejectLimiter.RaceRun`).
- *At most one certificate loop runs.* The empty name doubles as "no loop runs"; under the DNS name
  "." each poll starts another loop (`CertLoop.OneLoopExactly`, `CertLoop.DotLoops`).

## Model

| member | source | states |
|---|---|---|
| PortHeld.QuietUntilGone | src-tauri/src/companion_commands.rs:51-65 | In every run of enable, disable, login, logout, settings commands, expiry, halts, deadlines, crashes and late frames: from the moment a gateway is sent its shutdown frame or its kill until it is gone, the sidecar is gone, has its shutdown frame, or has neither a listener nor a `serve` to come |
| PortHeld.HeldStep | src-tauri/src/companion_commands.rs:128-142 | While a gateway that was signalled is still there, every action leaves the node settled and keeps whoever holds `ops` from telling it to serve |
| TakedownSafety.SignalsAreQuiet | src-tauri/src/companion_commands.rs:51-65 | The same at the moment of the signal |
| TakedownSafety.HandshakeHolds | src-tauri/src/companion_net.rs:687-703 | While the node is not asked to stop: no `serve` outstanding at the supervisor means no listener and no `serve` in the pipe; and whenever an enable may write `serve`, no `unserve` and no `unserved` is in either pipe, so no stale confirmation can revoke it |
| TakedownSafety.InvStep | src-tauri/src/companion_commands.rs:83-200 | Every action of gateway, node, sidecar, closing tasks and `ops` holder keeps the inductive invariant that the two results above rest on |
| TakedownSafety.SettledIsQuiet | src-tauri/src/companion_net.rs:682-703 | What the supervisor takes for settled is so in the sidecar: the local flags imply quiet pipes |
| TakedownSafety.CommandedHandles | src-tauri/companion-net/main.go:189-221 | One command of the sidecar loop takes exactly one frame, opens a listener only for a `serve`, closes it for `unserve`, and answers each `unserve` once |
| TakedownSafety.CommandKeeps | src-tauri/companion-net/node.go:292-349 | The sidecar handling `serve`, `unserve`, `logout` or `shutdown` keeps the invariant |
| TakedownSafety.ReadsKeep | src-tauri/src/companion_net.rs:418-493 | Reading an event keeps it: an `unserved` is only read when no `serve` follows the `unserve` it answers |
| TakedownSafety.UnservedMeans | src-tauri/src/companion_net.rs:687-703 | Each step of `unserve` with the stop that follows an unconfirmed one: it reports quiet only when settled, and leaves at most one more confirmation to come |
| TakedownSafety.StopKeeps | src-tauri/src/companion_net.rs:551-574 | A stop settles the node: its shutdown frame is in the pipe of a sidecar that lives, and nothing the node says is heeded |
| TakedownSafety.StartKeeps | src-tauri/src/companion_net.rs:291-416 | A start never unsettles a node that runs; a new sidecar begins with nothing to answer |
| TakedownSafety.SupervisedGrows | src-tauri/src/companion_service.rs:708-737 | Seen from the node every action of the gateway supervisor but an install at most ends the process and adds closing tasks of gateways that ran |
| TakedownSafety.InstallKeeps | src-tauri/src/companion_service.rs:386-410 | A new process has a newer generation than every closing task, so none of them can be its own |
| TakedownSafety.CloserUnservesKeeps | src-tauri/src/companion_commands.rs:124-142 | The closing task unserves under the `serving` lock without breaking the invariant |
| TakedownSafety.CheckKeeps | src-tauri/src/companion_commands.rs:497-517 | An enable that finds the leaving count unchanged and the gateway running has no closing task of this gateway past the lock |
| TakedownSafety.ServeKeeps | src-tauri/src/companion_net.rs:654-673 | Writing `serve` under both locks keeps the handshake |
| TakedownSafety.DisableGatewayKeeps | src-tauri/src/companion_commands.rs:547-557 | A disable stops the gateway only after its node is quiet |
| TakedownSafety.TakeKeeps | src-tauri/src/companion_commands.rs:145-187 | Taking `ops` for an enable, disable, cleanup, notice, login, cancel, logout or settings command keeps the invariant |
| TakedownSafety.AdvanceKeeps | src-tauri/src/companion_commands.rs:438-557 | Every step of whoever holds `ops` keeps the invariant |
| EnableEnds.EnabledExactly | src-tauri/src/companion_commands.rs:500-557 | From the `serve` for a gateway until `ops` is free again: the enable was not torn down if and only if at that moment a process of that generation is installed, its status is `Running`, it said it is ready and nobody has halted or stopped it; if it was torn down the gateway and the node are gone or told to go |
| EnableEnds.EnableEnds | src-tauri/src/companion_commands.rs:438-557 | The same for every enable from its first start on, and for every disable: what it ends with is its running gateway, or no gateway and no node that has not been told to go |
| EnableEnds.ConfirmedExactly | src-tauri/src/companion_commands.rs:529-536 | The last check succeeds if and only if the gateway that was told about runs; else the tear-down begins |
| EnableEnds.UnderwayStep | src-tauri/src/companion_commands.rs:438-557 | Every action keeps the enable or the tear-down on its way |
| EnablePath.ServeIsDue | src-tauri/src/companion_commands.rs:453-528 | What has gone before whenever the node is about to be told to serve, in this order and in one go: the node ran under an identity and could do HTTPS; its certificate was there; the settings were written with that identity; the leaving gateways were counted; this gateway was started; it was ready on a port; and under the lock it still ran there with no gateway having begun to leave since the count |
| EnablePath.CameFrom | src-tauri/src/companion_commands.rs:453-528 | Nothing but its own steps takes an enable on |
| NodeEnds.CleanupEnds | src-tauri/src/companion_commands.rs:96-118 | The cleanup after an exit nobody asked for lets go of `ops` only when the node is gone or told to stop, unless it has found a gateway |
| NodeEnds.RememberedAdvances | src-tauri/src/companion_commands.rs:178-187 | When the node has come up its notice tells it to stop if and only if it runs for a login only |
| NodeEnds.LogoutIsConfirmed | src-tauri/src/companion_net.rs:711-763 | What is stored of the node is removed only after there was nothing to log out, or the node has said that it is logged out or that nobody is logged in |
| NodeEnds.FailureIsCleared | src-tauri/src/companion_commands.rs:446-447 | A login and an enable take away the failure that an earlier gateway left behind |
| ServedGateway.ServedExactly | src-tauri/src/companion_net.rs:646-680 | When `serve` comes back with success and the sidecar lives, the open listener is the one of this `serve`, with its secret and login, if and only if the node was not serving as the command was written |
| ServedGateway.ServeIsAware | src-tauri/src/companion_net.rs:654-673 | What a `serve` starts from: either nothing is in the pipes and no listener is open, or the listener of another gateway is |
| ServedGateway.AwareStep | src-tauri/src/companion_commands.rs:438-557 | Between enables what the supervisor last heard of the listener is what the sidecar has, unless an `unserve` is being answered: kept by every action |
| ServedGateway.OpensStays | src-tauri/companion-net/node.go:292-325 | From a `serve` written to a node that was not serving until its answer only the sidecar decides about the listener, and the answer is about this gateway |
| ServedGateway.StalesStays | src-tauri/companion-net/node.go:298-301 | From a `serve` written to a node that serves another gateway until its answer that listener stays, or the sidecar is on its way out |
| StaleServing.StaleRun | src-tauri/src/companion_commands.rs:500-528 | Such a run from the start state: the gateway crashes, an enable gets `ops` before the cleanup, and succeeds on the same port with the listener still using the old gateway's secret |
| SettingsFollow.SettingsFollowTheNode | src-tauri/src/companion_commands.rs:163-187 | As long as no settings write fails: `settings.net` is the identity the node last reported, or a notice task or the holder of `ops` has still to write it; with nobody left they are equal, and no settings command is lost |
| SettingsFollow.FollowsStep | src-tauri/src/companion_commands.rs:840-847 | Every action keeps that, with each operation working on the settings it loaded |
| SettingsFollow.HearsFollows | src-tauri/src/companion_net.rs:185-189 | The node's identity changes only with a notice that has then to be handled |
| SettingsFollow.WritersFollow | src-tauri/src/companion_commands.rs:368-379 | The notice task, the logout and a settings command write what they must |
| GatewayRuns.InvStep | src-tauri/src/companion_service.rs:166-206 | Every action of the gateway supervisor (start, install, events, disk writes, exits, stops, deadlines, commands, edits) keeps its invariant |
| GatewayRuns.RunningMeansReady | src-tauri/src/companion_service.rs:642-652 | Status `Running` implies an installed process that said it is ready, that nobody has halted or stopped and in which no command timed out |
| GatewayStatus.RunsOnItsPort | src-tauri/src/companion_service.rs:642-652 | A gateway that is shown to run has said so itself since it was installed, and on the port it was given, if it was given one |
| GatewayStatus.ExitShows | src-tauri/src/companion_service.rs:741-781 | What is shown once a process has exited, by what was shown before: a stop is done, a failure stays, an expiry disables; else a gateway that ran has crashed, and one that did not get that far failed with the last problem it reported since it was installed |
| GatewayStatus.StepShows | src-tauri/src/companion_service.rs:166-206 | Every action keeps what the status shows: starting, running, told to stop, or halted and why |
| GatewayStatus.FailureStays | src-tauri/src/companion_service.rs:832-845 | The failure that ended a gateway is shown until something new starts, or it is cleared or stopped, or a change it had reported fails to be written |
| GatewayStatus.TasksExactly | src-tauri/src/companion_service.rs:708-781 | A kill is sent on its way if and only if a gateway is halted that nobody had halted or told to stop; a cleanup is left if and only if one exits that was not told to stop; likewise the shutdown frame of a stop and the farewell of an expiry |
| GatewayStatus.StartsExactly | src-tauri/src/companion_service.rs:338-393 | A start installs its process, or reports why it failed, if and only if since it began nobody has stopped it and no change that the process before had reported has failed to be written |
| GatewayStatus.CalledOffRun | src-tauri/src/companion_service.rs:516-545 | A run in which it comes to nothing though nobody stopped it: a phone that the process before reported could not be written |
| GatewayRuns.OldProcessesAreMute | src-tauri/src/companion_service.rs:497-515 | Once a newer process is installed, handling an event read from an older one changes nothing, be it the status, the pending reply, the devices or the subscriptions, even for one that was being handled as that process exited |
| GatewayRuns.DeliveriesExactly | src-tauri/src/companion_service.rs:628-640 | A delivery that an event has set off, of an older process too, changes the subscriptions if and only if the push service says the subscription is gone, the write works and it is still stored with the same keys; it takes that one and touches nothing else |
| GatewayRuns.OldDeliveryRun | src-tauri/src/companion_service.rs:628-640 | A run in which it does so for a process that has been replaced |
| GatewayHalts.HaltedExactly | src-tauri/src/companion_service.rs:497-515 | Once a gateway is halted, nothing more it says changes anything, however things go on without a stop of it, if and only if no event of it that has still something to do is in hand |
| GatewayHalts.StopReopens | src-tauri/src/companion_service.rs:783-799 | After a stop of a halted gateway what it says counts again, whatever is in hand |
| GatewayHalts.InHandRun | src-tauri/src/companion_service.rs:516-599 | A phone whose report was past the check when the halt landed is stored all the same |
| GatewayHalts.StoppedRun | src-tauri/src/companion_service.rs:783-799 | A phone reported after a halt and a stop is stored |
| GatewayHalts.SilencedForGood | src-tauri/src/companion_service.rs:497-515 | With nothing of it in hand a halted process stays without effect, after its exit too |
| GatewayRuns.StopDuringStart | src-tauri/src/companion_service.rs:338-392 | A stop that lands while a process is being created keeps it from being installed |
| GatewayRuns.TimedOutIsSealed | src-tauri/src/companion_service.rs:885-925 | After a command timed out no event of that gateway generation ever answers a later command |
| GatewayRuns.OneOutcomeEach | src-tauri/src/companion_service.rs:885-925 | Every caller that asked has exactly one outcome for good, but for the one whose turn it is; `CommandAnswers.AnswersExactly` says which |
| CommandAnswers.AnswersExactly | src-tauri/src/companion_service.rs:885-925 | Over a run, of a caller that has its answer: it was told that no gateway runs if and only if none ran as it asked, that its time is up if and only if it gave up, and anything else if and only if that is the reply which the critical section of an event, a halt or the exit gave to it while it waited |
| CommandAnswers.DoneIsOnDisk | src-tauri/src/companion_service.rs:516-599 | A caller that was told its revoke, update or unlock is done: the reply was given by an event at a step since it asked, and devices.json held the change then |
| CommandAnswers.SuccessMeans | src-tauri/src/companion_service.rs:1024-1061 | What success says: the pairing was created; or it ended the way that was decided; or the event reports this device as gone, unlocked, or with the name, the access and the deadline that the command gives; or the gateway has deferred this very command |
| CommandAnswers.UnsavedHalts | src-tauri/src/companion_service.rs:516-599 | A device change that could not be written halts the gateway, however long the write takes, and the caller that waits for it is told why |
| GatewayRuns.ApplyTells | src-tauri/src/companion_service.rs:1024-1061 | An event that answers a pending device command finds its effect on disk |
| GatewayRuns.HistoryGrows | src-tauri/src/companion_service.rs:885-925 | Outcomes, once given, never change |
| GatewayRuns.OnlyInstallAdds | src-tauri/src/companion_service.rs:708-737 | A kill is only handed out for a process that is installed, an expiry only told by one that ran |
| GatewayRuns.FreshListExactly | src-tauri/src/companion_service.rs:340-393 | The device list a start reads is the file's for good if and only if no event of an older process has still to write a different one as it is read |
| GatewayRuns.StaleListRun | src-tauri/src/companion_service.rs:340-393 | A run in which it is not: a phone whose registration is written while the next start has read the list is missing from the new process's memory |
| GatewayRuns.UnexpiredExactly | src-tauri/src/companion_service.rs:322-333 | A new process starts with no expiry held against it if and only if no event that reports one is in hand as the start begins |
| GatewayRuns.ExpiredRun | src-tauri/src/companion_service.rs:322-333 | A run in which one is: the process that is installed has the expiry of the one before against it |
| GatewayRuns.IntendedMeans | src-tauri/src/companion_service.rs:516-599 | What an event writes keeps ids unique and has the effect the event reports |
| Gateway.CompanionManager.Start | src-tauri/src/companion_service.rs:322-336 | Decides a start and forgets an earlier expiry, or refuses and changes nothing |
| Gateway.CompanionManager.Install | src-tauri/src/companion_service.rs:386-410 | Installs under a new generation exactly if nothing stopped the start meanwhile |
| Gateway.CompanionManager.Halt | src-tauri/src/companion_service.rs:1066-1074 | Ends the pending command with the code, takes the kill handle once and makes the failure terminal |
| Gateway.CompanionManager.Watchdog | src-tauri/src/companion_service.rs:413-430 | Halts only the process it was started for, and only before it is ready |
| Gateway.CompanionManager.Resolve | src-tauri/src/companion_service.rs:1024-1061 | Answers the pending command exactly when the event is the answer to it |
| Gateway.CompanionManager.HandleReady | src-tauri/src/companion_service.rs:642-652 | Running, or a halt when the port is not the configured one |
| Gateway.CompanionManager.HandleProblem | src-tauri/src/companion_service.rs:675-691 | An error answers whichever command is pending, and marks an expiry |
| Gateway.CompanionManager.OnExit | src-tauri/src/companion_service.rs:741-781 | Only the current process's exit counts; its status is the terminal one, or what the exit means |
| Gateway.CompanionManager.Stop | src-tauri/src/companion_service.rs:783-799 | A stop without a process cancels a start under way; with one it overwrites a halted gateway's terminal |
| Gateway.CompanionManager.Fail | src-tauri/src/companion_service.rs:816-830 | Halts a gateway that starts or runs, and no other |
| Gateway.CompanionManager.Request | src-tauri/src/companion_service.rs:885-905 | A command becomes pending only while the gateway runs |
| Gateway.CompanionManager.Timeout | src-tauri/src/companion_service.rs:905-925 | A deadline drops the pending command and halts the gateway it was asked of |
| Node.HeardKeeps | src-tauri/src/companion_net.rs:418-518 | Events change neither the process nor what was asked of it; only `unserved` revokes |
| NodeReports.KnowsWhatItHeard | src-tauri/src/companion_net.rs:418-518 | In every run what the supervisor knows of its sidecar (state, HTTPS, certificate, listener, logged out) is what that very sidecar has said since it was started, by the last event of each kind, without what it said after it was told to stop |
| NodeReports.StepReports | src-tauri/src/companion_net.rs:291-563 | No other action changes any of that but a start, which begins with nothing known |
| NodeReports.TakenOverForGood | src-tauri/src/companion_net.rs:291-340 | Once an enable has started or taken over a sidecar it is never again one that runs for a login only, which is stopped when the login is there |
| Node.NetManager.OnEvent | src-tauri/src/companion_net.rs:418-518 | An event counts only if its process is the current one and has not been asked to stop |
| Node.NetManager.OnExit | src-tauri/src/companion_net.rs:520-549 | An exit clears the run's state but neither the identity nor the mark of a `serve` that was sent |
| Node.NetManager.Start | src-tauri/src/companion_net.rs:291-340 | A running sidecar is kept, and taken over by an enable; none is started while one is asked to stop |
| Node.NetManager.Stop | src-tauri/src/companion_net.rs:551-563 | The process is asked to stop, and its kill handle taken |
| Node.NetManager.Serve | src-tauri/src/companion_net.rs:652-673 | A `serve` clears earlier errors and is outstanding if it was written |
| Devices.ReplayIsPerDevice | src-tauri/src/companion_store.rs:47-118 | Under every sequence of upserts, removals and commands ids stay unique, and each device ends field by field as if the others did not exist |
| Devices.StepIsPerDevice | src-tauri/src/companion_store.rs:47-105 | One change has its effect on its device and none on any other |
| Devices.UpsertMeans | src-tauri/src/companion_store.rs:47-57 | An upsert replaces in place or appends; the others keep place and content |
| Devices.WithoutMeans | src-tauri/src/companion_store.rs:58-66 | A removal takes exactly the device with that id |
| Devices.ApplyAchieves | src-tauri/src/companion_store.rs:70-105 | An accepted command leaves what it asked for: gone, unlocked, or updated. Of its device an update sets the name and the grants it gives, an unlock the lock, and nothing else; no other device changes |
| Devices.AcceptedExactly | src-tauri/src/companion_store.rs:70-105 | Which commands are accepted: every revoke; of the others those for a stored device, if an update changes something and of the old and the new grants one covers the other |
| Devices.MixedExactly | src-tauri/src/companion_store.rs:121-133 | A grant change is mixed if and only if neither the old grants allow all that the new ones do, at any instant, nor the other way round |
| Devices.LockedStays | src-tauri/src/companion_store.rs:70-105 | Under every sequence of changes a device stays there with its lock and with what the desktop does not look at, unless an unlock, a revoke, a removal or a report of it is among them |
| Devices.Store.Commit | src-tauri/src/companion_store.rs:108-118 | The list in memory moves only with a write that succeeded; a failed one leaves the old or the new file |
| Devices.Store.Upsert | src-tauri/src/companion_store.rs:47-57 | The loop over the list finds the device and commits the updated list |
| Devices.Store.Apply | src-tauri/src/companion_store.rs:70-105 | Applies a command to the stored copy, changing of the device only what the command names, or refuses and changes nothing |
| Records.RecordReader.Next | src-tauri/src/companion_service.rs:52-76 | Each call gives the next line of the simple reading of the bytes still to come, however they are split into chunks; the record never exceeds the cap |
| Records.ReadAll | src-tauri/src/companion_service.rs:33-83 | Reading to the end gives exactly the newline-separated records, each cut to the cap and stripped of trailing carriage returns, and a nonempty last one without a newline |
| Records.SplitIsExact | src-tauri/src/companion_service.rs:52-76 | The reference split loses nothing: no record holds a newline and rejoining gives the stream back |
| Records.TrimmedExactly | src-tauri/src/companion_service.rs:52-76 | What is cut off a line is carriage returns at its end, all of them and nothing else |
| Records.RecordReader.Absorb | src-tauri/src/companion_service.rs:66-70 | Keeping what fits of each piece is cutting the whole record once |
| LogLimits.NothingIsLost | src-tauri/companion-net/ratelog.go:39-98 | At any time every line written is in the log, in a summary or still counted; what is counted has a timer armed for its window's end, and a close or that timer leaves nothing unreported |
| LogLimits.NoTimerOnceClosed | src-tauri/companion-net/ratelog.go:89-98 | After a close no timer is armed any more, whatever is still written |
| LogLimits.FloodIsBounded | src-tauri/companion-net/ratelog.go:39-98 | With n closes between two lines that pass, at most (2 + n) times the maximum passes in any interval of one window's length: so twice the maximum where no close falls in between |
| LogLimits.FloodInOneService | src-tauri/companion-net/ratelog.go:89-98 | Twice the maximum until the close, three times in a run with one close |
| LogLimits.FloodIsReached | src-tauri/companion-net/ratelog.go:39-98 | For every maximum, window and number of closes there is a run in which that many lines pass within one window's length |
| LogLimits.FloodExactly | src-tauri/companion-net/ratelog.go:39-98 | A number bounds the lines that pass in any interval of one window's length, in all runs with n closes, if and only if it is at least (2 + n) times the maximum |
| LogLimits.RelayStderr | src-tauri/src/companion_net.rs:770-813 | The desktop's relay loop computes the log of the reference relay |
| LogLimits.RelayIsFaithful | src-tauri/src/companion_net.rs:765-813 | Every stderr line is in that log or in one of its summaries, exactly once and in order; the limit holds per window and windows do not overlap |
| LogLimits.TimerReports | src-tauri/src/companion_net.rs:780-791 | When the timer goes off at a window's end, what the window dropped is reported at once: from then on the log accounts for all that came before |
| LogLimits.LimitedLog.Write | src-tauri/companion-net/ratelog.go:39-61 | A write rolls an ended window, then passes the line or counts it and arms the timer |
| LogLimits.LimitedLog.Expire | src-tauri/companion-net/ratelog.go:80-87 | The timer ends the window and reports what it dropped, if the window has run its course; a timer that was stopped too late does no more than that |
| LogLimits.LimitedLog.Close | src-tauri/companion-net/ratelog.go:89-98 | A close reports what is counted and disarms the timer |
| RejectLimiter.Limiter.Allow | src-tauri/companion-net/proxy.go:97-123 | Whatever its reading of the clock, made before the lock: the eviction loop and the two checks give the answer and the table of the specification, which stays within 1024 keys; unless a recent key has been lost the answer is the history's |
| RejectLimiter.AnswersExactly | src-tauri/companion-net/proxy.go:97-123 | With a given reading every key is answered as by the whole history (not let through within the window, and fewer than 1024 keys were) if and only if no recent key has been lost from the table or the table is full of recent ones |
| RejectLimiter.AnswerExactly | src-tauri/companion-net/proxy.go:97-123 | The same for one key |
| RejectLimiter.LostExactly | src-tauri/companion-net/proxy.go:107-113 | In a run of concurrent calls a recent key is lost exactly if some call dropped it and none has let it through since |
| RejectLimiter.LostToALaterReading | src-tauri/companion-net/proxy.go:97-102 | The call that dropped it read the clock later and took the lock earlier |
| RejectLimiter.InTurnIsExact | src-tauri/companion-net/proxy.go:97-123 | So if no table was cleared with a later reading than a call's own before it got the lock, its answer is the history's |
| RejectLimiter.RaceRun | src-tauri/companion-net/proxy.go:97-123 | A run with a full table in which a peer is reported again after 59 s |
| RejectLimiter.ApartExactly | src-tauri/companion-net/proxy.go:97-123 | A key that is let through again was last let through a window before, if and only if it is not a lost one |
| RejectLimiter.ReportsAreApart | src-tauri/companion-net/proxy.go:97-123 | In a run of concurrent calls two reports of one peer for one reason are at least a window apart, if none of them since the first was let through after a clearing with a later reading than its own |
| RejectLimiter.Authorize | src-tauri/companion-net/proxy.go:29-41 | Only an untagged node of the required login is admitted |
| AskpassRuns.SecretsAreEarned | src-tauri/src/askpass.rs:335-348 | A connection gets a secret only if it was let in with the token of an operation that had been begun in the foreground and bound, was neither revoked nor expired, and to whose process tree it belongs; and then only what the UI gave for its own request, later, while the operation was registered and unexpired |
| AskpassRuns.RepliesReachOne | src-tauri/src/askpass.rs:335-348 | Replies and the secrets they give match one to one: one reply reaches one connection, and a connection has its secret from one reply |
| AskpassRuns.RevokedForGood | src-tauri/src/askpass.rs:303-317 | When a revoke returns no request of the operation is out and nobody waits for one, in any interleaving, and so it stays |
| AskpassRuns.AdmittedExactly | src-tauri/src/askpass.rs:372-425 | A connection gets a request if and only if its token is that of an operation begun earlier in the foreground, not revoked since and not expired, the last process bound to it in time is there, the peer is our user where that is known, and its process is that one or within 32 steps under it where that is known |
| AskpassRuns.AdmittedWasLetIn | src-tauri/src/askpass.rs:372-444 | Every connection with a request was let in like that at the step that registered it |
| AskpassRuns.SecretsExactly | src-tauri/src/askpass.rs:335-348 | A connection has a secret if and only if the UI gave it as the reply to its request, while it listened and the operation was registered and unexpired |
| AskpassRuns.LeavesForGood | src-tauri/src/askpass.rs:437-444 | One that takes its answer returns that; one whose time is up returns nothing, whatever is still replied, and its request is gone |
| AskpassRuns.InvStep | src-tauri/src/askpass.rs:294-444 | Beginning, binding, revoking, sweeping, admission, replies and deadlines keep requests and connections matched |
| Askpass.IsSelfOrDescendant | src-tauri/src/askpass.rs:565-577 | The bounded climb says yes exactly if the ancestor is within 32 steps up |
| Askpass.Server.ReleaseWaiters | src-tauri/src/askpass.rs:303-317 | Exactly the operation's waiters are released |
| Askpass.Server.SweepExpired | src-tauri/src/askpass.rs:319-333 | Exactly the expired operations go, with their waiters |
| Askpass.Server.Admit | src-tauri/src/askpass.rs:372-425 | Registers a request exactly if the connection is admissible, which over runs is what `AskpassRuns.AdmittedExactly` says |
| Askpass.Server.Respond | src-tauri/src/askpass.rs:335-348 | The waiter gets the answer if its operation still lives, else nothing |
| PushCooldown.OneJobPerKey | src-tauri/src/companion_push.rs:309-319 | At most one job of a session, pane and kind is on its way |
| PushCooldown.SendsAreApart | src-tauri/src/companion_push.rs:582-604 | The first sends of any two jobs of a key are at least 60 s apart under any interleaving of requests and deliveries |
| PushCooldown.MinuteRun | src-tauri/src/companion_push.rs:582-604 | And no more than 60 s: a run in which the second follows after just that |
| PushCooldown.GrantedExactly | src-tauri/src/companion_push.rs:554-575 | A request is granted if and only if no job of the key is on its way and none was stamped within 60 s: a job dropped before it sends leaves nothing, and clearing old stamps never changes an answer |
| PushCooldown.InvStep | src-tauri/src/companion_push.rs:531-604 | Requests, clock readings, stamps and drops keep the invariant behind these |
| PushCooldown.Push.Request | src-tauri/src/companion_push.rs:554-575 | Old stamps are cleared, and the key is taken if it is free |
| PushStore.TidiedMeans | src-tauri/src/companion_push.rs:639-649 | What is kept has at most four entries, all valid and of distinct endpoints, and is empty only if nothing is valid |
| PushStore.TidyTwice | src-tauri/src/companion_push.rs:639-649 | Tidying is idempotent |
| PushStore.TidiedExactly | src-tauri/src/companion_push.rs:639-649 | Entry by entry: one is kept if and only if it is valid, no later valid one has its endpoint, and later valid ones have fewer than four endpoints; those that are kept stay in order |
| PushStore.Tidy | src-tauri/src/companion_push.rs:639-649 | The loop computes that list |
| PushStore.RenewalsSurvive | src-tauri/src/companion_push.rs:626-636 | A `gone` answer takes exactly the subscription it was sent to: those with another endpoint or another key, and other devices, stay |
| PushStore.RemovedMeans | src-tauri/src/companion_push.rs:476-492 | A removal leaves only lists that may be stored |
| PushStore.Push.constructor | src-tauri/src/companion_push.rs:651-668 | What is loaded is tidied, of the devices that exist, or of all when the device file is unreadable |
| PushStore.Push.Subscribe | src-tauri/src/companion_push.rs:443-463 | The new subscription goes last. The one with its endpoint goes, or of five the first; the others stay in their order, and other devices keep theirs |
| PushStore.Push.Saved | src-tauri/src/companion_push.rs:501-526 | The book in memory is replaced only after its write succeeded |
| PushStore.Push.Expire | src-tauri/src/companion_push.rs:626-636 | If the write works no subscription with these keys is left, changed or not; nothing else is ever lost |
| PushStore.PrunedExactly | src-tauri/src/companion_push.rs:476-492 | A removal changes the book exactly if it picks something |
| Slots.SlotsAreConserved | src-tauri/companion-net/node.go:523-623 | Slots in use are the connections that have not returned theirs, never more than 64, and returning one never blocks |
| Slots.ReturnedOnce | src-tauri/companion-net/node.go:610-623 | However many calls of `Close` get to a connection's slot, and in whatever order, exactly one of them makes it free |
| Slots.OnlyTheOwnerIsAccepted | src-tauri/companion-net/node.go:573-604 | What comes out of `Accept` was let in by `authorize` before the service was closing |
| Slots.TurnedAwayExactly | src-tauri/companion-net/node.go:547-571 | The pump turns a socket away if and only if 64 others hold a slot |
| Slots.LetInExactly | src-tauri/companion-net/node.go:573-594 | A socket goes on if and only if WhoIs names an untagged node of the required login and the service is not closing; else it is being closed |
| Slots.TrackedExactly | src-tauri/companion-net/node.go:453-500 | The accept loop hands a socket to the server if and only if the service has not begun to close its connections; else the socket is being closed and the loop ends |
| Slots.ClosedForGood | src-tauri/companion-net/node.go:439-510 | Once `service.close` is done nothing is accepted, and every socket is closed or can only be closed by what still runs; when that is through all are closed and every slot is back |
| Slots.CloseRun | src-tauri/companion-net/node.go:439-510 | A run in which a connection is served, the service closes, and the connection is closed and its slot back |
| Slots.InvStep | src-tauri/companion-net/node.go:441-623 | Pump, WhoIs answers, both `Accept`s and concurrent closings keep the invariant |
| Slots.ConnSet.CloseAll | src-tauri/companion-net/node.go:471-482 | From then on nothing is added, and what was in the set is what gets closed |
| Slots.SlotConn.Close | src-tauri/companion-net/node.go:610-623 | Returns the slot the first time, closes the socket every time |
| CertLoop.OneLoopExactly | src-tauri/companion-net/node.go:171-248 | Over a whole run, HTTPS capability and exactly one live certificate loop for the present name go together, if and only if the node is never HTTPS capable under the name "." |
| CertLoop.PollExactly | src-tauri/companion-net/node.go:171-248 | One poll keeps that exactly if its status is not that one |
| CertLoop.DotLoops | src-tauri/companion-net/node.go:68-85 | A run with that name: two loops are alive at once, and a login prompt ends neither |
| CertLoop.CancelledIsMute | src-tauri/companion-net/node.go:274-289 | A cancelled loop never changes the node or emits an event, and ends when it wakes |
| CertLoop.ServesUnderItsCertificate | src-tauri/companion-net/node.go:303-325 | The name `serve` announces is the one whose loop reported its certificate ready |
| CertLoop.AnnouncesExactly | src-tauri/companion-net/node.go:303-325 | `serve` goes on under a name if and only if that is the node's and its one live loop said last that the certificate is there |
| CertLoop.LoopsFollowTheName | src-tauri/companion-net/node.go:227-248 | A loop is started if and only if a name is wanted that has none, and ended if and only if its name is not wanted any more: a poll that finds things as they were leaves it alone |
| CertLoop.SecondTryRun | src-tauri/companion-net/node.go:250-273 | A run in which the first request fails, the loop tries again and `serve` can go on |
| NodeEvents.DesktopFollows | src-tauri/companion-net/node.go:171-225 | After every poll that read a status the state, the name that waits for approval, the login page and the node (name, login, display name, HTTPS, MagicDNS) that were told last are those of the status |
| NodeEvents.NoNews | src-tauri/companion-net/node.go:171-225 | The same status again is no news |
| NodeEvents.ReadyIsTold | src-tauri/companion-net/node.go:273-289 | Whenever `serve` would go on, the last the desktop has heard of certificates is that one is ready |
| CertLoop.InfoFromStatus | src-tauri/companion-net/node.go:68-85 | The loop over the certificate domains decides whether one is the node's name |
| CertLoop.Poller.Poll | src-tauri/companion-net/node.go:171-225 | One poll, with its events in order |
| CertLoop.Poller.SyncCert | src-tauri/companion-net/node.go:227-239 | Starts and stops the loop for a name |
| CertLoop.Poller.ReportCert | src-tauri/companion-net/node.go:273-289 | A report counts only while its loop is not cancelled |
| CredentialKey.NameReadsBack | src-tauri/src/db_credentials.rs:100-120 | Whatever separators or digits the components hold, namespace, descriptor and generation can be read back from the entry name; the service is the namespace |
| CredentialKey.EntriesAreDistinct | src-tauri/src/db_credentials.rs:100-120 | Two pairs of descriptor and generation share an entry if and only if they are equal |
| CredentialKey.PartsReadBack | src-tauri/src/db_credentials.rs:100-120 | Any list of length-prefixed parts reads back part by part |
| Decimal.ValueOfRender | src-tauri/src/db_credentials.rs:100-120 | A number is the value of its decimal text |
| Decimal.RenderOfValue | scripts/release-msi-build-config.ts:13-30 | A digit string without a leading zero is the decimal text of its value |
| Decimal.ReadNumberReads | src-tauri/src/db_credentials.rs:100-120 | A length prefix ends where its digits end, whatever follows |
| MsiVersion.AcceptedExactly | scripts/release-msi-build-config.ts:13-52 | A version has an MSI version if and only if it is the text of a release that fits, and that is within 255.255.65535 |
| MsiVersion.UpgradesKeepOrder | scripts/release-msi-build-config.ts:32-52 | The MSI versions that are read from the texts are ordered as in section 11 of Semantic Versioning 2.0.0, both ways, and different versions stay different and ordered |
| MsiVersion.MsiReadsBack | scripts/release-msi-build-config.ts:32-52 | The three numbers are read back from an MSI version text, in their order |
| MsiVersion.ClassifyReads | scripts/release-version.ts:3-11 | The accepted grammar reads every release back from its text |
| MsiVersion.ClassifiedIsText | scripts/release-version.ts:3-11 | Nothing but the text of a release is accepted |
| MsiVersion.MsiOfOrders | scripts/release-msi-build-config.ts:32-52 | The triple of a release orders and identifies it |

## Left out

- App exit: `CompanionState::shutdown` takes neither lock on purpose, so the take-down results do not cover it.
- Liveness: no result says that a task gets its turn or that a wait ends; deadlines may fire at any time.
- The peers command and its waiters, and fields that only the UI reads (login URL, pending name, `until`, overview).
- Frames, settings and files as JSON text, and lossy UTF-8 decoding; frames are datatypes and decoding is a function parameter.
- Which device records, grants and credentials are well formed (`valid_devices`, `valid_grants`): lists are taken as loaded.
- Copies of corrupt files, permissions and the other detail of `write_json`.
- Processes, sockets, signals, TLS and tsnet: a kill is the sidecar dying, a socket a number, a connection's traffic nothing.
- `http.Server` itself: it may close any connection it serves, at any time.
- The HTTP proxy handler with its header rewriting, and the per-request WhoIs lookups.
- VAPID keys, message encryption and the requests to push services; whether keys parse is a parameter.
- CertLoop.InfoFromStatus: lower-cases ASCII letters only; DNS names hold no others.
- GatewayRuns.DeliveriesExactly: leaves out when a request is granted (`PushCooldown` says that), and a phone that turns notifications off names the endpoint itself, not the hash of it.
- Poll and retry intervals, and the text of poll errors.
- Release-state, download and environment helpers, which are small pure functions.
- Databases, Git and file-content modules, the React and Remotion user interfaces, the site and the build workflows.
- Node.NetManager.Stop: covers the shutdown frame and the taken kill handle; the bounded waits around them are steps of `Takedown`.
- Slots.SlotConn.Close: is one call; concurrent calls interleave step by step in the transition system of the same module.
- PortHeld.QuietUntilGone: counts a sidecar that has its shutdown frame as quiet, because `NetManager::stop` waits for its end only within a bound and then kills it.
- The orchestration (companion_commands.rs) and the sidecar's command loop (main.go) are steps of a transition system on values, since their tasks meet at locks and pipes; update in place of their own fields is not modelled.
- GatewayHalts.HaltedExactly: does not count the last error code that a late error event records, which is only read when a process exits that nobody has ended.
- TakedownSafety.SignalsAreQuiet: likewise, and speaks of the moment of the signal only.
- Askpass.Server.Admit: takes a request that has been parsed and whose prompt is within its bound.
