# Verified model of the sandbox service

The sandbox service runs untrusted commands in short-lived sandboxes. A client talks to an API server, which places
each sandbox on a runner; a runner keeps sandboxes as Firecracker microVMs or Docker containers; a daemon inside each
sandbox runs commands and streams their output. This project models the parts of the service where several things
happen at once or where bytes must survive a journey, and proves what they promise for every input and every
interleaving. `dafny verify dfyconfig.toml` checks all of it.

## What is modelled

**Firecracker lifecycle** (`Firecracker*.dfy`). A state machine whose threads are creates, stops, wakes, deletes, guest
deaths and the network wirer, each cut at every point where the runner lets go of a lock or calls the host. A host call
may succeed, fail, or take effect and report failure; guests write, crash and exit at any time. `FirecrackerInvariant`
holds one inductive invariant, kept by every step of every thread. The rootfs, the snapshot and the jail belong to the
sandbox id, so two incarnations of one id share them, as on the host. From the invariant follow, for all runs: when a
snapshot may be loaded, who may touch a sandbox's files, that the slot table and the sandbox table are inverse to each
other, that a namespace carries the policy its create asked for and nobody else touches it, and that a crash handler
only ever tears down the microVM that died. `FirecrackerOutcomes` adds what the operations get done: whatever the other
threads do, an operation none of whose own steps goes wrong ends as it should. `FirecrackerLeftovers` traces what is
left over to the step that failed, and every crash to what became of it.
`FirecrackerRuntime` has the critical sections as methods on the mutable tables, proved against the functions the
machine uses.

**Resumable exec stream** (`Exec*.dfy`, `Ndjson.dfy`). The daemon's table of executions, the trimmed event log, its
followers as a state machine, the wire format, the runner's resume loop, the SDK's line reader, its event consumer and
its two-phase retry loop. The end result is `ExecStream.Exec`: whatever was cut, dropped or retried on either hop, the
client has seen each event of a prefix of the log once and in order, and a result it returns is that of the whole log.
The same contract says when it returns one, when it asks again and when it gives up.

**Output pump** (`Utf8.dfy`, `StreamLines.dfy`). Lines through a fixed buffer, never splitting a character of UTF-8 as
section 4 of RFC 3629 defines it.

**API-side guards** (`TenantQuota.dfy`, `TenantRefusals.dfy`, `ApiKeyCache.dfy`, `ApiKeyAnswers.dfy`, `IdleSweep.dfy`).
A quota check with an unlocked read in the middle, a generation-fenced cache over shared loads, and the idle sweeper
against the request fence: each as a class or methods for the code's own state, and a state machine over the steps of
concurrent callers with theorems over all runs, on what each must never do and on what it does.

**Placement** (`Placement.dfy`, `RunnerControl.dfy`). The registry, the loop that asks one runner after another, and
what a runner answers. Each runner is the Firecracker runtime with its own tables: its create runs the reservation, its
error becomes a gRPC status, and the API reads that status back, so that "refused" is proved to mean "nothing tracked".

**Small exact cores** (`Tar.dfy`, `DockerStops.dfy`). The archive writer against a reader of the ustar and pax formats
of POSIX.1-2001, and the expected-stop marks of the Docker runtime against a history-only reference.

### What turned out not to hold

- A snapshot load can meet files it does not fit, in two ways. A kill that failed on an executing guest lets that guest
  write after a later snapshot (`FirecrackerStray.StrayRestore`, in which nothing is taken away). And a create whose
  cleanup failed gives up its claim before it untracks its state: if a delete claims that state in between, the create
  untracks a claimed state, the id is created again, and the delete goes on to unmount the jail and remove the files of
  the new sandbox (`FirecrackerStray.StaleRestore`, in which no kill fails). A failed cleanup alone is harmless.
  `FirecrackerSafety.RestoreExact` is an equivalence over all runs: a load fits if and only if no guest wrote since the
  snapshot and nothing was taken away since the mount. `FirecrackerSafety.RestoreMatches` shows that it fits in every
  run without a failed kill and without an untrack of a claimed state, which `untrackSandbox` could tell by
  `transition`.
- The comment on that cleanup in `runtime.go` says that the jail collides with nothing because it is keyed to the vmID.
  The vmID is a function of the sandbox id, so it collides with the next incarnation of the same id, and so does the
  data directory.
- `network_wirer.go` says that only a shutdown can leave a teardown working on a slot it no longer owns. The run above
  does so as well. The ownership check in `clearSlotNetwork` protects the namespace in it, and the theorems on
  namespaces need no condition; the check does not cover the jail and the data directory.
- `eventsAfter` panics, with the lock held, on a cursor far beyond the log: exactly when the difference to the oldest
  retained event does not fit a signed 64-bit integer and the cursor is not the largest one.
  `ExecLog.EventsAfterFilters` and `ExecFollow.WedgesIff` state it both ways.
- A panic in a command's goroutine, recovered while a pump is still open, appends the terminal event and lets the pump
  write after it. `ExecManager.PanicBreaksLog` is such a run; `ExecManager.LogsAreWellFormed` shows that a log is well
  formed if and only if no pump wrote on after such a panic. `exec_manager.go` recovers whatever panics in `HandleExec`;
  no call in it is known to panic once the pumps run.
- An activity write may reach the store long after it read the clock, and land on a row created anew under its id. A
  write as late as the idle-stop window stops an ephemeral sandbox (`IdleSweep.LateTouchStops`), and one as late as
  `Patience` lets the sweeper delete a sandbox that requests still accept (`IdleSweep.UnfencedDelete`).
  `IdleSweep.NeverStopsIff` and `IdleSweep.FencedIff` give the exact conditions: the first needs every write to be
  faster than the window, unless idle stop is off; the second holds with no condition on lateness when idle stop is off
  or the two windows differ by less than the safety buffer, and otherwise exactly when writes are faster than that.
- A create can be refused although the tenant's rows and its admitted creates stay below the limit throughout: one that
  is saved and not yet released counts twice (`TenantRefusals.RefusedBelow`). `TenantRefusals.Verdict` says exactly what
  a check goes by, and `TenantRefusals.RefusedIsFull` what a refusal means.
- An archive reads back exactly when every size is below 8 to the power 11; `Tar.ArchiveReadsBack` is an equality that
  covers both cases.

## Model

| member | source | states |
|---|---|---|
| FirecrackerSafety.RunInv | internal/runner/runtime/firecracker.ee/stop_wake.go:28-480 | every state of every run of creates, stops, wakes, deletes, deaths and the wirer satisfies the invariant, whatever fails |
| FirecrackerSafety.RestoreSafe | internal/runner/runtime/firecracker.ee/stop_wake.go:343-369 | in every run, the rootfs and snapshot of a load are there and in the jail exactly unless a teardown of a state no longer tracked took one away since the mount; neither is half written; they agree and nothing executes in any incarnation of the id, or a kill of one failed |
| FirecrackerSafety.RestoreMatches | internal/runner/runtime/firecracker.ee/stop_wake.go:343-369 | with no failed kill of any incarnation of the id and no untrack of a claimed state of it before, every load finds the rootfs its snapshot describes, in its jail, and nothing executing on it |
| FirecrackerSafety.TakenNeedsDisowned | internal/runner/runtime/firecracker.ee/runtime.go:426-448 | nothing is ever taken from an id before a create of it untracked a state that another operation had claimed |
| FirecrackerSafety.RestoreExact | internal/runner/runtime/firecracker.ee/stop_wake.go:343-369 | in every run, a load finds rootfs and snapshot in its jail and in agreement if and only if every write of a guest of the id was followed by a snapshot, clone or removal and nothing was taken away since the mount |
| FirecrackerSafety.PastIsRun | internal/runner/runtime/firecracker.ee/runtime.go:426-448 | what the files of an id remember is exactly whether the run held a failed kill, an untrack of a claimed state, and a loss since the last mount, of that id |
| FirecrackerSafety.StepRemembers | internal/runner/runtime/firecracker.ee/stop_wake.go:387-415 | the only step that can leave a guest behind is a teardown's failed kill, the only one that can disown a claimed state a create's late untrack, and writes are counted from the last snapshot, clone or removal |
| FirecrackerSafety.UnpinnedMatches | internal/runner/runtime/firecracker.ee/runtime.go:231-238 | with no failed kill of any incarnation of the id before, a tracked sandbox that runs or is stopped and is not pinned to a cold boot has no guest executing, and a snapshot that describes its rootfs unless one of the two is missing, as a delete may leave them |
| FirecrackerSafety.FilesOwned | internal/runner/runtime/firecracker.ee/runtime.go:648-691 | in every run, a step that changes the files of a tracked sandbox is one of its claim's holder, a write of its own guest, a write of an earlier incarnation's guest after a failed kill, or a teardown of an earlier incarnation after its claimed state was untracked |
| FirecrackerSafety.FilesStable | internal/runner/runtime/firecracker.ee/stop_wake.go:82-95 | under the condition of RestoreMatches, the rootfs, snapshot and jail of a sandbox that is left alone stay as the stop left them |
| FirecrackerStray.StrayRestore | internal/runner/runtime/firecracker.ee/stop_wake.go:387-415 | a run in which nothing is taken away and a failed kill leads to a load on a rootfs the snapshot does not describe |
| FirecrackerStray.StaleRestore | internal/runner/runtime/firecracker.ee/runtime.go:426-448 | a run with no failed kill in which a create untracks a state a delete has claimed, and that delete unmounts the jail and removes the files of the next incarnation before its load |
| FirecrackerSafety.SlotTableInverse | internal/runner/runtime/firecracker.ee/runtime.go:696-758 | slot i is owned by id exactly when id is tracked with slot i, in every reachable state |
| FirecrackerSafety.SlotsDisjoint | internal/runner/runtime/firecracker.ee/runtime.go:711-719 | two tracked sandboxes never share a slot, and with it a namespace and a proxy port |
| FirecrackerSafety.UsedIsExact | internal/runner/runtime/firecracker.ee/runtime.go:385-400 | the used capacity is the number of tracked sandboxes with a slot and never exceeds the total: nothing is stranded or released twice |
| FirecrackerSafety.NoPanic | internal/runner/runtime/firecracker.ee/stop_wake.go:260-322 | no thread ever reads a slot or sandbox index out of range |
| FirecrackerSafety.OneHolder | internal/runner/runtime/firecracker.ee/stop_wake.go:429-456 | two lifecycle operations never hold the claim of one sandbox at once |
| FirecrackerSafety.GenerationsGrow | internal/runner/runtime/firecracker.ee/stop_wake.go:271-281 | each microVM of a sandbox has a generation above all earlier ones |
| FirecrackerSafety.DeathCounted | internal/runner/runtime/firecracker.ee/crash.go:82-98 | an exit counts as a death exactly when no teardown of that microVM had begun |
| FirecrackerSafety.DeathTearsDownItsOwn | internal/runner/runtime/firecracker.ee/crash.go:25-67 | a crash handler that tears down tears down the microVM that died, of the state it died in, however long it waited |
| FirecrackerSafety.NeverAbandoned | internal/runner/runtime/firecracker.ee/stop_wake.go:242-245 | a sandbox whose microVM is being started is still tracked and not being deleted |
| FirecrackerSafety.NetworkPolicy | internal/runner/runtime/firecracker.ee/network_wirer.go:40-62 | a namespace in use drops egress exactly when its sandbox blocks it; a free wired slot drops nothing |
| FirecrackerSafety.EgressAsAsked | internal/runner/runtime/firecracker.ee/runtime.go:568-642 | in every run, the namespace a sandbox uses drops egress exactly when the create that reserved this very incarnation was started to block it |
| FirecrackerSafety.ReservedBy | internal/runner/runtime/firecracker.ee/runtime.go:568-642 | every incarnation goes back to the reservation of one create, and has its id and policy |
| FirecrackerSafety.NetworkKept | internal/runner/runtime/firecracker.ee/network_wirer.go:130-150 | no step but its own teardown deletes, rebuilds or changes a sandbox's namespace |
| FirecrackerSafety.NetworkStable | internal/runner/runtime/firecracker.ee/network_wirer.go:88-150 | over any stretch of a run without its own teardown a sandbox keeps the namespace it set up |
| FirecrackerOutcomes.Achieves | internal/runner/runtime/firecracker.ee/stop_wake.go:28-105 | whatever the other threads do, an operation none of whose own steps goes wrong achieves what it is for by the time it is over, on the sandbox it claimed: a create and a wake leave it running with a slot and a process; a stop leaves it stopped, without either, and restorable; a delete leaves it untracked; a crash handler, whose steps may fail, leaves it stopped |
| FirecrackerOutcomes.DeleteDeletes | internal/runner/runtime/firecracker.ee/runtime.go:648-707 | a delete none of whose steps fails leaves the state it claimed untracked for good, no slot owned through it, and neither rootfs nor snapshot nor jail under the id at the step that untracked it |
| FirecrackerOutcomes.ClaimExactly | internal/runner/runtime/firecracker.ee/stop_wake.go:429-456 | an operation that gets its turn wins the claim exactly if its sandbox is tracked and unclaimed, and is turned away exactly if it is not tracked or being deleted |
| FirecrackerOutcomes.UntrackedForever | internal/runner/runtime/firecracker.ee/runtime.go:696-707 | a sandboxState that is no longer tracked never is again |
| FirecrackerOutcomes.AlwaysTidy | internal/runner/runtime/firecracker.ee/runtime.go:648-691 | while its holder still has the state tracked, a teardown without error has removed the jail, and a removal the rootfs and snapshot as well, whatever others do to the files |
| FirecrackerLeftovers.AtRest | internal/runner/runtime/firecracker.ee/stop_wake.go:459-463 | an unclaimed tracked sandbox runs on its own slot, or is stopped without one; or it has neither process nor namespace, and an earlier host command of a create's or delete's teardown of that very state failed |
| FirecrackerLeftovers.LeftHasCause | internal/runner/runtime/firecracker.ee/runtime.go:648-691 | a tracked sandbox that neither runs nor is stopped, and that no create or delete works on, goes back to such a failure |
| FirecrackerLeftovers.TroubleHasCause | internal/runner/runtime/firecracker.ee/stop_wake.go:387-415 | a create or delete that cannot finish goes back to a failure of its own teardown |
| FirecrackerLeftovers.CrashHandled | internal/runner/runtime/firecracker.ee/crash.go:25-67 | a crash handler nobody cancelled is over only when the microVM that died has been torn down, or its state is untracked, or the handler found it being deleted |
| FirecrackerLeftovers.ExitHasHandler | internal/runner/runtime/firecracker.ee/crash.go:25-67 | every reported exit has a handler of its own for that microVM |
| FirecrackerRuntime.Runtime.ReserveSlotLocked | internal/runner/runtime/firecracker.ee/runtime.go:711-719 | takes the first free slot for the id, and fails only when every slot is taken |
| FirecrackerRuntime.Runtime.OccupiedSlotsLocked | internal/runner/runtime/firecracker.ee/runtime.go:722-730 | counts the owned slots |
| FirecrackerRuntime.Runtime.ReleaseIfOwned | internal/runner/runtime/firecracker.ee/runtime.go:740-758 | frees the slot only if the id still owns it |
| FirecrackerRuntime.Runtime.ReserveSandbox | internal/runner/runtime/firecracker.ee/runtime.go:568-642 | a duplicate, a full table and a disk error leave both tables as they were; otherwise the new state is tracked on the first free slot, with the id and egress policy asked for, being created, and neither running nor stopped |
| FirecrackerRuntime.Runtime.TryClaim | internal/runner/runtime/firecracker.ee/stop_wake.go:429-456 | one round of claiming: missing or deleting ends it, an unclaimed sandbox is claimed, a claimed one is waited for |
| FirecrackerRuntime.Runtime.ReserveWakeSlot | internal/runner/runtime/firecracker.ee/stop_wake.go:467-480 | a wake gets the first free slot in both tables or changes nothing |
| FirecrackerRuntime.Runtime.DecideBoot | internal/runner/runtime/firecracker.ee/stop_wake.go:343-369 | the choice between restore and cold boot, and the pin that stays until a snapshot is taken |
| FirecrackerRuntime.Runtime.BeginTeardown | internal/runner/runtime/firecracker.ee/stop_wake.go:387-415 | takes the handles once and moves to the next generation |
| FirecrackerRuntime.Runtime.FinishStopped | internal/runner/runtime/firecracker.ee/stop_wake.go:82-95 | a stopped sandbox holds no slot and no handle |
| FirecrackerRuntime.Runtime.FinishCrashed | internal/runner/runtime/firecracker.ee/crash.go:59-66 | a crash leaves the sandbox stopped and its slot free |
| FirecrackerRuntime.Runtime.BeginDelete | internal/runner/runtime/firecracker.ee/runtime.go:648-691 | marks the tracked state as deleting, and nothing else |
| FirecrackerRuntime.Runtime.UntrackSandbox | internal/runner/runtime/firecracker.ee/runtime.go:696-707 | drops exactly this state and its slot, not a newer sandbox of the same id |
| FirecrackerRuntime.Runtime.MayClear | internal/runner/runtime/firecracker.ee/network_wirer.go:130-150 | a slot may be cleared only if it is free or this very state's |
| FirecrackerRuntime.Runtime.Capacity | internal/runner/runtime/firecracker.ee/runtime.go:385-400 | used is the owned slots, stopped the stopped sandboxes not being deleted |
| FirecrackerRuntime.Runtime.SettleDeath | internal/runner/runtime/firecracker.ee/crash.go:25-67 | only the state and the microVM that died are torn down, left stopped and without a slot; any other is let go as it was |
| FirecrackerRuntime.OccupiedCountsOwners | internal/runner/runtime/firecracker.ee/runtime.go:722-730 | with distinct owners the occupied slots are as many as the owners |
| ExecWire.PrefixRecovered | internal/runner/exec_proxy.go:252-283 | the proxy's prefix scan recovers seq and type of every line the log marshals, whatever follows |
| ExecWire.ValueOfDecimal | internal/runner/exec_proxy.go:266-269 | a seq written in decimal parses back to itself |
| ExecWire.LineCloses | internal/daemon/execution.go:52-53 | an event line closes its object only at its last character, so no proper prefix of it does |
| ExecWire.LineOneLine | internal/daemon/execution.go:52-53 | an event line holds no newline and runs from brace to brace |
| ExecWire.ParseMarshal | sdk/src/ndjson.ts:90-105 | the SDK reads back the event a line was written from |
| ExecWire.ParseCut | sdk/src/ndjson.ts:90-105 | a line cut short is refused, never taken for another event |
| ExecLog.ReplayShape | internal/daemon/execution.go:46-72 | after any appends the retained events are the contiguous seqs up to the newest, size is their total, and it exceeds the cap only with one event left |
| ExecLog.HistoryComplete | internal/daemon/execution.go:100-108 | history is reported available exactly when no wanted event was trimmed |
| ExecLog.EventsAfterFilters | internal/daemon/execution.go:76-95 | the index arithmetic equals filtering by seq, and panics exactly on the cursors whose offset overflows |
| ExecLog.Execution.TrimEvents | internal/daemon/execution.go:56-61 | the trimming loop drops the oldest events until the cap holds or one is left |
| ExecLog.Execution.Append | internal/daemon/execution.go:46-72 | the log is that of its whole history with one more event, and the replaced channel is handed out for closing |
| ExecLog.Execution.HasHistory | internal/daemon/execution.go:112-116 | true exactly when every event the cursor asks for is retained |
| ExecLog.Execution.Snapshot | internal/daemon/execution.go:159-168 | all retained events after the cursor; a refusal exactly when some were trimmed, and a panic exactly when the cursor overflows |
| ExecFollow.RunInv | internal/daemon/execution.go:121-155 | the follower invariant holds in every run of appends, trims and any number of followers |
| ExecFollow.Consecutive | internal/daemon/execution.go:121-155 | a follower is handed consecutive events from just after its cursor: no gap, no repetition |
| ExecFollow.CompleteOnTrue | internal/daemon/execution.go:145-147 | returning true uncancelled means everything up to the terminal event was delivered |
| ExecFollow.FalseMeansTrimmed | internal/daemon/execution.go:125-128 | returning false means the next wanted event is no longer retained, and none was skipped |
| ExecFollow.NoLostWakeup | internal/daemon/execution.go:149-153 | a follower that waits with an event beyond its cursor holds a channel already replaced, closed or about to be |
| ExecFollow.WaitsUnfinished | internal/daemon/execution.go:145-153 | a follower that waits has no terminal event among those it has seen |
| ExecFollow.WedgedOnlyByHugeCursor | internal/daemon/execution.go:121-155 | the log can only be left locked by a follower whose cursor overflows |
| ExecFollow.WedgesIff | internal/daemon/execution.go:76-95 | a follower that takes the lock leaves it locked exactly when its cursor overflows |
| ExecManager.Manager.GetOrCreate | internal/daemon/exec_manager.go:87-134 | a known id gives the execution it has, any other a new one whose log holds only "started" |
| ExecManager.Manager.Gc | internal/daemon/exec_manager.go:68-82 | drops exactly the executions complete for longer than they are retained |
| ExecManager.Manager.Delete | internal/daemon/exec_manager.go:145-155 | removes the id, cancels the command, leaves its log alone, and reports whether it was there |
| ExecManager.RunInv | internal/daemon/exec_manager.go:87-134 | table and logs stay in order in every run of requests, commands and collections |
| ExecManager.LogsAreWellFormed | internal/daemon/exec.go:109-182 | a log begins with "started"; nothing follows its terminal event, although two pumps write to it, if and only if no pump wrote on after a panic of the goroutine; and then it has that event exactly when the command is over |
| ExecManager.CrashedLog | internal/daemon/exec_manager.go:118-131 | after a panic with a pump open the log has its terminal event, and nothing behind it exactly as long as no pump has written on |
| ExecManager.CrashHasCause | internal/daemon/exec.go:109-182 | an execution that ended with a pump still open goes back to such a panic |
| ExecManager.PanicBreaksLog | internal/daemon/exec.go:109-182 | a run in which such a panic puts output after the terminal event |
| ExecManager.OneRunning | internal/daemon/exec_manager.go:94-97 | a command that still runs is never started a second time by a request with its id |
| ExecManager.SameExecution | internal/daemon/exec_manager.go:87-97 | a repeated id finds the same execution until it is deleted or its retention is over |
| ExecManager.LogsGrow | internal/daemon/execution.go:46-72 | an execution's log only ever grows |
| ExecManager.LogIsWritten | internal/daemon/exec.go:109-182 | a log holds exactly what its command, pumps and goroutine wrote, in order: nothing lost, doubled or put into another log |
| Ndjson.SplitExact | sdk/src/ndjson.ts:52-76 | splitting at newlines loses nothing and leaves no newline in a piece |
| Ndjson.SplitConcat | sdk/src/ndjson.ts:52-76 | the split of a whole text is the terminated lines of its start, then the split of what was pending and the rest |
| Ndjson.TakeLines | sdk/src/ndjson.ts:59-67 | the inner loop takes out the trimmed non-blank terminated lines and leaves the rest pending |
| Ndjson.ReadLines | sdk/src/ndjson.ts:52-76 | for every cutting into chunks, the lines are those of splitting the whole stream |
| ExecStream.StreamNDJSON | internal/runner/exec_proxy.go:227-250 | what is forwarded is exactly the events that came in whole, or as many as the client took, in order; it completes exactly when the terminal event is among them, and the next seq is the one after the last |
| ExecStream.Uncut | internal/runner/exec_proxy.go:227-250 | a stream that is not cut yields every event there is, and nothing torn |
| ExecStream.ProxyExec | internal/runner/exec_proxy.go:130-178 | over all reconnects the client's stream is a prefix of the log's stream, and all of it when the loop completes; it does complete if the client takes everything and stays, and the POST or one of the three resumes carries an ended log to its end |
| ExecStream.ReceivedLines | sdk/src/ndjson.ts:52-76 | a cut of the log's stream reads as exactly the events that are whole in it, then a line that does not parse exactly if it was torn without an error |
| ExecStream.ExecStreamConsumer.Take | sdk/src/exec-stream-consumer.ts:43-78 | one event in order extends what the consumer has gathered by exactly that event |
| ExecStream.ExecStreamConsumer.Consume | sdk/src/exec-stream-consumer.ts:43-78 | a stream consumed extends what was gathered by exactly the events that are whole in it, and throws exactly if it was torn without an error |
| ExecStream.Deliver | sdk/src/exec.ts:49-80 | what one delivered and possibly broken stream brings, and the error it ends in, exactly |
| ExecStream.Start | sdk/src/exec.ts:49-80 | the POST phase, each POST answered by whatever execution it finds or starts, leaves the consumer at a prefix of one log; it posts again exactly after a soft answer that brought nothing, until its retries are used up |
| ExecStream.Resume | sdk/src/exec.ts:82-103 | the GET phase goes on from the last event received, keeps the consumer at a prefix of one log, and asks again exactly after a soft answer that left the execution unfinished, until the retries are used up |
| ExecStream.AskPost | sdk/src/exec.ts:49-80 | what one POST through the proxy brings: the whole log where the proxy got it, cut and broken as the network does |
| ExecStream.Judged | sdk/src/exec.ts:31-39 | an error makes exec give up exactly if it is an abort, a 429, one that will not pass before all is there, or one too many |
| ExecStream.ServedExits | sdk/src/exec.ts:19-107 | an exec one of whose requests within the retries brings the rest, after transient errors only, ends with the exit event |
| ExecStream.Exec | sdk/src/exec.ts:19-107 | with executions deleted, expired and started anew between requests: a result comes exactly when the last answer brought the exit event and was neither aborted nor a 429, and is that event with all of stdout and stderr of one log in order, each callback made once; no request follows an abort, a 429 or an error that will not pass; and a result does come if, nothing aborted and nothing but transient errors before, one of the requests within the retries brings the rest |
| ExecEndToEnd.FollowerIsCutStream | internal/daemon/daemon.go:144-191 | what a follower has written at any time is a cut of the stream of the log as it is at any later time |
| ExecEndToEnd.WrittenIsWire | internal/daemon/daemon.go:436-452 | the lines written one by one are the stream of those events |
| ExecEndToEnd.HistoryGrows | internal/daemon/execution.go:46-72 | the log at a later state extends the log at an earlier one |
| Utf8.FullRuneExact | internal/daemon/exec.go:228-239 | the full-character test holds of a character and of none of its proper starts |
| Utf8.IncompleteRuneStart | internal/daemon/exec.go:228-239 | finds where a cut-off character starts, at most three bytes from the end |
| Utf8.CutKeepsValid | internal/daemon/exec.go:228-239 | cutting valid text there leaves valid text on both sides, wherever the chunk ended |
| StreamLines.LinesKeepBytes | internal/daemon/exec.go:185-189 | splitting into lines loses only the carriage return of a CR LF pair and adds only a last newline |
| StreamLines.ReadEndsLine | internal/daemon/exec.go:195-212 | a read that is not a prefix brings exactly the rest of the line |
| StreamLines.ReadStaysInLine | internal/daemon/exec.go:214-222 | a prefix read stays inside its line and splits no line end |
| StreamLines.StreamLines | internal/daemon/exec.go:189-224 | for every input and buffer, each line goes out whole and in order with a newline, in pieces that are whole characters if the line is, with bounded pieces |
| TenantQuota.NeverOverLimit | internal/api/tenant_quota.go:38-87 | saved rows plus admitted creates not yet saved never exceed the limit, although the count is read unlocked; a tenant found above a lowered limit never exceeds what it has then |
| TenantRefusals.Verdict | internal/api/tenant_quota.go:54-86 | in every run, a check admits exactly when the rows its read counted, the creates past the check and not released, and those released as saved since the read began are below the limit; it refuses exactly when they are not and nothing was released as saved during the read, or it is the last of three reads, each earlier one of which saw such a release |
| TenantRefusals.AdmittedAlone | internal/api/tenant_quota.go:30-37 | with nothing of the tenant that counts happening between its entry and its check, a create is admitted exactly when rows and creates in progress are below the limit; with none in progress, exactly when the rows are |
| TenantRefusals.RefusedIsFull | internal/api/tenant_quota.go:80-86 | a refused create found rows and creates in progress at or above the limit, unless a row was deleted since it counted or creates were released as saved during each of its three reads |
| TenantRefusals.RefusedBelow | internal/api/tenant_quota.go:34-37 | a run in which a create is refused although rows and admitted creates never reach the limit, because one saved and not yet released is counted twice |
| TenantRefusals.ReadHistory | internal/api/tenant_quota.go:54-62 | what a reading create remembers is what happened: its reads, the releases during each, and the rows at its count |
| TenantQuota.AdmitKeeps | internal/api/tenant_quota.go:57-79 | an admission on a count older than the check still leaves the tenant within its limit |
| TenantQuota.EntryStaysLive | internal/api/tenant_quota.go:97-103 | an entry somebody reads under or holds a slot in is never forgotten, and all its creates share it |
| TenantQuota.OnlyBusyTenants | internal/api/tenant_quota.go:97-103 | a remembered tenant has a create that reads or holds a slot |
| TenantQuota.Quota.ForgetIfIdle | internal/api/tenant_quota.go:99-103 | the entry goes exactly when nothing is in progress and nobody reads |
| TenantQuota.Quota.BeginReserve | internal/api/tenant_quota.go:42-57 | the tenant's entry, made if need be, has one more reader |
| TenantQuota.Quota.FinishRead | internal/api/tenant_quota.go:62-86 | admits exactly when the count, the creates in progress and those saved during the read are below the limit, reads again exactly when they are not, some were saved, and a read is left; and the entry and map it leaves |
| TenantQuota.Quota.Release | internal/api/tenant_quota.go:68-78 | a released slot leaves the entry, counted as saved if it was, and forgotten if idle |
| ApiKeyAnswers.AnsweredAfterInvalidation | internal/api/apikey_cache.go:41-77 | every lookup that is over, hit or not, is answered with what the store held for its key when a load of that key read it; that load began the read after every invalidation of the key, or of the tenant it answers with, that came before the lookup, and for a hit less than the TTL before it |
| ApiKeyAnswers.SteadyKey | internal/api/apikey_cache.go:41-77 | a key whose record has not changed since it was last invalidated, or ever, is answered with that record by every later lookup |
| ApiKeyAnswers.OneLoad | internal/api/apikey_cache.go:53-58 | at most one load of a key is under way in each generation |
| ApiKeyAnswers.LoadedServes | internal/api/apikey_cache.go:45-71 | what a load finished with in its own generation is a hit for every later lookup of the key decided before the TTL, counted from before the read, is over, while nothing disturbs the entry |
| ApiKeyCache.RevokedStaysRevoked | internal/api/apikey_cache.go:91-99 | after a revocation and a later invalidation of a key, every lookup of it that begins afterwards is refused |
| ApiKeyCache.DeletedTenantStaysDeleted | internal/api/handlers_tenants.go:256-282 | a tenant whose keys are gone and that is then invalidated is the answer of no lookup that begins afterwards, until it is given a key again |
| ApiKeyCache.HitWithinTtl | internal/api/apikey_cache.go:49-69 | a hit carries a value whose store read began less than the TTL before it |
| ApiKeyCache.BoundedAndAmortised | internal/api/apikey_cache.go:79-89 | never more than the maximum of entries, and a quarter of it inserted between two scans |
| ApiKeyCache.Cache.MakeRoom | internal/api/apikey_cache.go:82-89 | drops the expired entries, or all when that would free less than a quarter |
| ApiKeyCache.Cache.Store | internal/api/apikey_cache.go:63-71 | an answer is kept only if no invalidation came since its lookup |
| ApiKeyCache.Cache.Invalidate | internal/api/apikey_cache.go:91-99 | the key is gone and the generation moves on |
| ApiKeyCache.Cache.InvalidateTenant | internal/api/apikey_cache.go:101-115 | every entry of the tenant and no other is gone, and the generation moves on even if there was none |
| IdleSweep.Seconds | internal/api/ttl.go:404-413 | the least whole number of seconds not shorter than the duration |
| IdleSweep.SecondsFit | internal/api/ttl.go:404-413 | no duration and no later sum leaves 64 bits, and a positive duration never becomes zero |
| IdleSweep.SandboxTable.Candidate | internal/api/ttl.go:415-486 | the runner is called exactly for a row that still passes the check; when the call succeeded the row says stopped or is gone, and no other changes; else none does |
| IdleSweep.IdleIsSwept | internal/api/ttl.go:415-486 | a sandbox idle for its phase when it was listed, and still when its lock is taken, is stopped or its row deleted once the runner call has succeeded, whatever happened to the row meanwhile; no other row changes and the lock is free |
| IdleSweep.DueIsWanted | internal/api/ttl.go:435-464 | with writes faster than the bound, a row that passes the locked check is of the kind its phase listed, although the check does not look at it |
| IdleSweep.DueIsFenced | internal/api/handlers.go:253-262 | a row of the kind its phase listed that passes the locked check is refused by requests then and ever after |
| IdleSweep.EphemeralNeverStops | internal/api/ttl.go:452-486 | an ephemeral sandbox is never recorded as stopped, with ids deleted and re-created at any moment, if idle stop is off or every activity write is faster than its window |
| IdleSweep.NeverStopsIff | internal/api/ttl.go:452-486 | and exactly then, over all runs with writes within the bound |
| IdleSweep.DeletesAreFenced | internal/api/ttl.go:381-402 | where the windows agree, or with writes faster than the bound otherwise, every delete the sweeper sends is for a record requests already refuse and go on refusing |
| IdleSweep.DeletesAlwaysFenced | internal/api/ttl.go:381-402 | with idle stop off, or both windows on and less than the buffer apart, so is every delete of every run, however late its writes |
| IdleSweep.FencedIff | internal/api/ttl.go:381-402 | for every configuration and bound, all deletes are fenced exactly under that condition |
| IdleSweep.LateTouchStops | internal/api/handlers.go:683-689 | for every configuration with idle stop, one activity write exactly a window late stops an ephemeral sandbox |
| IdleSweep.LateTouchDeletes | internal/api/ttl.go:381-402 | where the delete window is off or at least the buffer longer, one such write deletes a lasting sandbox requests still accept |
| IdleSweep.LateTouchDeletesStopped | internal/api/ttl.go:381-402 | where it is at least the buffer shorter, one such write deletes an ephemeral sandbox requests still accept |
| IdleSweep.UnfencedDelete | internal/api/ttl.go:381-402 | for every configuration outside the unconditional case, a run whose writes are exactly as late as the bound and whose delete is not fenced |
| IdleSweep.NoStopPhase | internal/api/ttl.go:119-138 | with idle stop disabled no sandbox is ever recorded as stopped |
| Placement.LowestUsed | internal/api/registry/memory.go:146-164 | the pick is the one eligible runner, exclusions aside, that comes before all others by load, then id |
| Placement.LowestIsUnique | internal/api/registry/memory.go:155-158 | there is at most one such runner |
| Placement.MemoryRegistry.constructor | internal/api/registry/memory.go:21-30 | an empty registry with a positive grace period |
| Placement.MemoryRegistry.Upsert | internal/api/registry/memory.go:37-63 | a runner is listed once, in order of first registration, and is no longer gone; unusable registrations change nothing |
| Placement.MemoryRegistry.Remove | internal/api/registry/memory.go:65-80 | the runner leaves table and order, the others keep theirs, and the time is noted |
| Placement.MemoryRegistry.GoneLongEnough | internal/api/registry/memory.go:92-106 | true exactly for a removed runner past the buffer, never for a registered one |
| Placement.MemoryRegistry.EligibleLocked | internal/api/registry/memory.go:125-144 | exactly the healthy, uncordoned, fresh runners with room, each once |
| Placement.MemoryRegistry.PickLowestUsed | internal/api/registry/memory.go:146-164 | the least used of them outside the exclusions, or none when there is none |
| RunnerControl.RefusalIsCapacity | internal/runner/grpc_control.go:37-53 | a status is read as a refusal exactly when the error wraps the capacity sentinel and the marker was attached |
| RunnerControl.IsCapacityRefusal | internal/api/runnerctl/refusal.go:34-45 | the loop over the details finds the marker exactly when one carries it under the right code |
| RunnerControl.CreateSandbox | internal/runner/runtime/firecracker.ee/runtime.go:404-485 | succeeds exactly with the assets ready, a new id, a free slot, room on disk and an activation that goes through; names capacity exactly where the reservation refused; every error leaves both tables as they were, and success adds the one id, running, on a slot that was free, with the egress policy of the call |
| RunnerControl.Serve | internal/runner/grpc_control.go:88-125 | the reply the API gets is a success exactly when the runner accepted and its reply arrived, and a refusal exactly when the runner refused and its marked reply arrived; then the runner tracks what it tracked before |
| Placement.Fleet.Ask | internal/api/placement.go:97-121 | the answer is a success exactly when the runner, with its tables as they are, accepts and its reply arrives, and a refusal exactly when it refuses and its marked reply arrives; then no runner tracks anything new of the sandbox; any other answer may have left it on the one asked and no other |
| Placement.Fleet.Attempt | internal/api/placement.go:68-121 | after any heartbeats and other requests, the runner asked is the least used eligible one of the registry, those that refused left out; the attempt succeeds exactly when that runner accepts and is refused exactly when it refuses |
| Placement.Fleet.Place | internal/api/placement.go:60-137 | distinct runners, at most three, each the least used left in the registry at its turn; each but the last refused in time; placed exactly when the last accepted, at-capacity exactly when it refused; the sandbox tracked by at most the last; by none on no-runner or at-capacity |
| Tar.DigitsFit | sdk/src/tar.ts:36-44 | a number has at most k digits exactly when it is below the base to the power k |
| Tar.ValueOfDigits | sdk/src/tar.ts:36-44 | digits read back as the number |
| Tar.RecordLengthCountsItself | sdk/src/tar.ts:51-59 | one correction makes the length prefix count its own digits, for every value length |
| Tar.RecordRoundTrip | sdk/src/tar.ts:50-59 | a record parses back to its key and value, whatever follows it |
| Tar.PaxRoundTrip | sdk/src/tar.ts:50-59 | any number of records parse back, in order |
| Tar.ChecksumFits | sdk/src/tar.ts:42-44 | the checksum of any block takes exactly six octal digits and reads back |
| Tar.SizeReadsBack | sdk/src/tar.ts:36-36 | the size field reads back exactly when the size is below 8 to the power 11 |
| Tar.ReadEntryBack | sdk/src/tar.ts:29-48 | an entry is read back whole, or refused exactly when its size does not fit |
| Tar.ArchiveReadsBack | sdk/src/tar.ts:13-27 | the archive reads back as exactly the given files, paths of any length included, if and only if every size fits |
| Tar.WholeBlocks | sdk/src/tar.ts:46-47 | every entry and the archive are whole numbers of blocks |
| Tar.PutFields | sdk/src/tar.ts:30-40 | the buffer after the field writes, byte by byte |
| Tar.Total | sdk/src/tar.ts:42-43 | the checksum loop adds up all bytes |
| Tar.TarEntry | sdk/src/tar.ts:29-48 | header, content and padding of an entry |
| Tar.BuildTar | sdk/src/tar.ts:13-27 | the archive of the files, or a path with a NUL exactly when there is one |
| DockerStops.Runtime.ExpectStop | internal/runner/runtime/docker/crash.go:95-112 | stale marks are swept and the container carries a mark with a new token |
| DockerStops.Runtime.ForgetExpectedStop | internal/runner/runtime/docker/crash.go:131-137 | only the caller's own mark is dropped |
| DockerStops.Runtime.TakeExpectedStop | internal/runner/runtime/docker/crash.go:142-151 | the mark is used up, and excuses only while fresh |
| DockerStops.Runtime.HandleContainerDeath | internal/runner/runtime/docker/crash.go:46-63 | the sandbox is marked restarted unless the death is excused or has no label |
| DockerStops.SweptAnswersAlike | internal/runner/runtime/docker/crash.go:95-151 | the swept map excuses exactly what the unswept history would |
| DockerStops.PendingIsOpen | internal/runner/runtime/docker/crash.go:95-151 | a pending stop was asked for, and no later asking, death or failure undid it |
| DockerStops.OpenIsPending | internal/runner/runtime/docker/crash.go:95-151 | and the other way round |
| DockerStops.ExcusedExactly | internal/runner/runtime/docker/crash.go:46-63 | a death is excused exactly when the last stop asked of its container is at most two minutes old, has not failed and has excused none yet |
| DockerStops.OneDeathEach | internal/runner/runtime/docker/crash.go:139-151 | two deaths are never excused by the same call |
| DockerStops.FailTakesItsOwn | internal/runner/runtime/docker/crash.go:114-137 | a failing call leaves every other call's mark in place and none of its own |
| DockerStops.CrashAwaitsMark | internal/runner/runtime/docker/crash.go:46-63 | a labelled death not excused is held on to, whatever happens between the two locks, until it is marked |
| DockerStops.CrashStaysMarked | internal/runner/runtime/docker/crash.go:57-59 | once marked, its sandbox stays marked until the mark is cleared |
| DockerStops.MarkingHasCrash | internal/runner/runtime/docker/crash.go:46-63 | what is about to be marked is the last death, and not an excused one |
| DockerStops.MarkedOnlyByCrash | internal/runner/runtime/docker/crash.go:57-59 | a sandbox is marked only by such a death and its marking, with no clearing since |

## Left out

- Firecracker `Shutdown`: it overrides claims while the process exits; all theorems are for runs without it.
- Shell scripts, `iptables`, the jailer, and the Firecracker and Docker APIs: abstract steps that succeed, fail, or take effect and report failure; a rebuild clears a slot first and a fresh clone's snapshot matches its rootfs.
- A kill that reports success makes the guest dead at once: `process.Kill()` returns before the process is gone, and the wait for its exit is not modelled.
- A guest that survives a failed kill writes to whatever rootfs is at its id's path, although it may hold a removed one; a file removed while mounted in a jail counts as missing.
- Two ids with the same vmID: it is 12 hex digits of a hash of the id, so two sandboxes could share a jail; the model keys the jail by the id.
- Budgets and polling intervals of the lifecycle operations: a waiting thread may give up at any time.
- SQL stores, Postgres registry and advisory locks: a map of rows and a lock per sandbox; only the order of store calls is modelled.
- Creates on other API pods: the quota theorem is for one pod creating at a fixed limit, as its source says.
- ApiKeyCache.BoundedAndAmortised: counts insertions of new keys between scans, not the time a scan takes.
- Activity between the sweeper's locked re-read and its delete: covered in the service by the safety buffer alone, and not claimed here.
- Orphan reaping: drops rows without the fence; it appears only as a row that may vanish at any time.
- A sandbox id the server generates: taken to be new, so a create of one contends with nobody.
- Clock skew between API pods: one clock that never goes back.
- ExecWire.ParseMarshal: the SDK's check that each field has its expected type is taken to pass on what the daemon writes; only quotes, braces and the two leading fields are modelled as text.
- ExecStream.Exec: a GET after a received event is answered by the execution that logged it or fails; a POST delayed in the network that starts a command after the SDK has gone over to GET is not modelled. Event numbers stay below 2 to the power 64, and JavaScript's rounding of numbers above 2 to the power 53 is not modelled.
- JSON encoding and parsing beyond quotes, braces and the two leading fields; `TextDecoder`; `bufio` beyond its documented contract; singleflight beyond one flight per key; gzip.
- Tar.BuildTar: lengths are those a JavaScript number holds exactly; file modes, owners and times are the constants the writer uses.
- DockerStops.Runtime.ExpectStop: the token counter does not wrap.
- Placement.MemoryRegistry.Upsert: runner addresses are not stored, and round-robin picking is not modelled.
- Placement.Fleet.Place: every runner runs the Firecracker runtime, reached by its registered id; a Docker runner and the mapping of ids to addresses are not modelled.
- Deaths while the Docker event stream is down: they are never reported, by the source's own account.
- HTTP and gRPC plumbing, TLS, authentication, metrics, logging and configuration parsing.
- Not modelled at all: the per-key limit on concurrent requests (`internal/limits`), how an operator sets the cordon flag, the addresses of the host's uplink, the quoting of shell arguments, and the rewriting of internal errors for clients.
