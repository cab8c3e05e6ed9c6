# A verified model of an agent workspace server

This project models the parts of the repository in which state is shared between tasks, or in which a text or
a tree is rewritten and must keep its meaning, and proves what they guarantee. Everything is Dafny; nothing
here executes the original program.

| part | files |
|---|---|
| starting, stopping and watching child processes | `ProcessOutcome`, `ExecutionSystem`, `ExecutionInvariant`, `ExecutionRuns`, `ExecutionTheorems`, `ExecutionPublication`, `ExecutionFinishes`, `ExecutionOutcomes`, `ExecutionAnswers`, `ExecutionPaths`, `ExecutionProgress`, `ExecutionExamples` |
| request signatures and replay protection | `SigningMessages`, `Signing`, `SigningSessions` |
| one SSH tunnel, one WebRTC connection per host | `SshTunnels`, `WebRtcCache` |
| rewriting commented JSON | `JsoncMerge` |
| executor profiles: canonical names, saving, loading | `Profiles` |
| the preview's navigation tracker | `Navigation` |
| reading git's output | `GitParsers`, `GitWorktrees` |
| squash merging | `CommitGraph`, `SquashMerge` |
| SSH configuration blocks | `SshConfig` |
| redirect addresses and digests | `Redirects`, `RscRedirects` |
| strings, lines, options | `Text`, `Options` |

## How things are modelled

**Processes.** The protocol is a labelled transition system over any number of executions and stop calls.
Its state has the scheduler lock ("admission"), the write lock of `running_executions`, and for each execution
its row, registration, child, child lock, `requested_stop` mutex, monitor, recorder and cancellation. A lock
held across an await spans several steps; one taken and dropped at once is a step guarded by the lock being
free. Failures of the database and of the operating system, early signals, panics of the recorder, crashes of
the monitor and callers that go away are steps of their own. `History` records what happened; no step is guarded by it.

Assumptions about code outside these parts: `complete_running_attempt` is a compare-and-set from Running
(crates/db/src/models/execution_process.rs:695-735); a launch holds admission from committing its row until it has
registered or failed, and dispatching queued commands takes admission again
(crates/local-deployment/src/container.rs:154-156); execution ids are not reused; a kill
reported as successful ends the child, while any kill may fail.

**Signatures.** Instants are nanoseconds of a monotonic clock, the wall clock runs with it at a fixed offset and
is read in whole seconds, `retain` reads one clock value for all nonces of a session. Hashing, signature parsing and signature
verification are arbitrary functions. The five clock readings of one verification are
parameters of it; a registration reads the clock before it waits for the sessions lock, and a run lists operations in the order of that lock.

**Per-host machines.** A class holds the locked map with one method per critical section; a transition system
interleaves those sections. Tunnel ids are fresh, and a host is a number. A WebRTC task panics before its result is published, if at all.

**Numbers in commented JSON.** A double is given by its shortest decimal, which is how it is printed and, so it is
assumed, what its text is read back as. The reader takes a text without a point that fits 64 bits, signed or
unsigned, as an integer, a negative zero excepted, and any other as a double. An integer of a new configuration
carries the double that `as_f64` gives for it.

**Transformations.** Loops over hash maps visit keys in any order: the methods pick an arbitrary remaining key.
Git's commands are modelled by the text they print or by what they do to refs and commits. `Circumstances` and
parameters like `stores` and `failed` say which outside operation fails.

## Where the code does not do what one would expect

- Replay protection holds for delays between the timestamp check and the nonce check up to 59 seconds and one
  nanosecond, and for no longer delay (`Signing.DelayBoundIsExact`): the timestamp is checked before the wait for the sessions lock.
- A method token may contain a bar, and then two different requests have one signing message (`SigningMessages.BarInMethodCollides`).
- A stop that requested a status first loses the row to a later stop if the monitor's own write failed
  (`ExecutionPublication.FirstStopStandsExactly`, `ExecutionExamples.LaterStopWins`).
- A child whose exit is never seen and whose kills fail goes on running after its entry is gone (the same example).
- Commands may be reported finished twice for one execution, though never by its monitor and its failed launch
  (`ExecutionFinishes.ReportedAtMostTwice`); only the first report changes their state.
- A registered tunnel outlives a listener whose accept loop has failed until the cleanup has run, and its port is
  handed out (`SshTunnels.DeadPortIsServed`).
- Removing a host that is Connecting lets a second handshake start (`WebRtcCache.UnpairThenTwoInFlight`).
- A duplicate name in a commented JSON file can hide an update (`JsoncMerge.DuplicateNameDefeatsTheUpdate`), and numbers
  above the signed range or doubles without a fraction change when written (`JsoncMerge.NumbersThatChange`).
- A recent-models field cleared over a default comes back as the empty record, and over a default that is the
  empty record it is saved without effect (`Profiles.RoundTrip`, `Profiles.OverridesAreLeast`).
- The tracker goes astray, with all history entries distinct, after a link to an address that lies ahead (`Navigation.DistinctEntriesAreNotEnough`).
- Paths and branch names that end in white space are read back trimmed, and a name-status entry with a blank path is lost
  (`GitParsers.NameStatusRoundTrip`, `GitWorktrees.WorktreeRoundTrip`).
- A merge that fails after moving the base leaves the task refused as diverged from then on (`SquashMerge.HalfDoneIsRefused`);
  a successful merge takes the task's own commits out of the task branch's history (`SquashMerge.TaskHistoryIsFolded`).
- Every update of an SSH block after the first adds one empty line (`SshConfig.SecondUpdate`); lines of a block that are not
  indented stay behind when the block is replaced.

## Model

| member | source | states |
|---|---|---|
| ProcessOutcome.CompletedExactlyWhen | crates/local-deployment/src/container.rs:649-663 | The published row is Completed if and only if the recording is complete and either the stop that was requested asked for Completed or none was requested and the child succeeded |
| ProcessOutcome.PublishedRow | crates/local-deployment/src/container.rs:655-663 | Column by column: a broken recording gives Failed with the recording code whatever else happened; otherwise a requested stop gives its own status, exit code 0 only for Completed and the user-stopped class only for Killed; otherwise the row is the child's own |
| ProcessOutcome.ExitRow | crates/local-deployment/src/container.rs:1124-1153 | A watched exit is Completed exactly for exit code zero; the code is recorded, -1 for death by a signal, none if watching failed |
| ExecutionRuns.StepKeepsInv | crates/local-deployment/src/container.rs:601-836 | Every step of every launch, monitor, recorder, child and stop call keeps the protocol invariant: who holds which lock, what is registered, who may still write the row |
| ExecutionRuns.RunKeepsInv | crates/local-deployment/src/container.rs:601-836 | The invariant holds in every state of every run from every initial state, for any number of executions and stop callers |
| ExecutionTheorems.RunEvolves | crates/local-deployment/src/container.rs:122-144 | Over any run a terminal row, the recorded intent, the monitor's decision, a dead child and a sealed recording never change again |
| ExecutionTheorems.TerminalRowIsFinal | crates/local-deployment/src/container.rs:670-686 | A row leaves Running at most once: a terminal row keeps its contents and its one author to the end of the run |
| ExecutionTheorems.StopIntentDecides | crates/local-deployment/src/container.rs:654-686 | If a stop has taken `requested_stop` before the monitor takes it for the last time, then in every later state that stop's status is the intent, no next action has started, and a terminal row is the monitor's, with that stop's columns or those of the recording failure, or a later stop's that found the monitor gone; the next row says exactly when |
| ExecutionPublication.FirstStopStandsExactly | crates/local-deployment/src/container.rs:654-686 | With the intent before the decision, a terminal row is the monitor's, that is the first stop's or the recording failure's depending on the recording, if and only if no write of that monitor to the database failed; if one failed, the row is that of a later stop |
| ExecutionExamples.LaterStopWins | crates/local-deployment/src/container.rs:676-683 | A run of 25 steps in which the first stop asks for Completed, the recording is complete, the monitor's write fails and a later stop turns the row to Killed; its unwatched child, whose kill failed, still runs when it counts as an orphan's |
| ExecutionTheorems.IntentIsTheFirstStops | crates/local-deployment/src/container.rs:128 | The intent is the status of the first stop call that reached the mutex, aimed at this execution, and stays so |
| ExecutionTheorems.OrphanIsSound | crates/local-deployment/src/container.rs:146-159 | When the lookup under admission finds nothing, then and for the rest of the run the launch is over, no entry is registered, and the monitor never existed or has made its attempt and removed its entry; a child still alive was let go by a failed kill, its exit never seen and no other kill of it successful |
| ExecutionTheorems.LetGoExactly | crates/local-deployment/src/container.rs:646-648 | A child that runs although its launch failed or its monitor went on to drain its output was let go by a kill that failed, and neither was its exit seen nor did any kill of it succeed |
| ExecutionTheorems.EndedIsDead | crates/local-deployment/src/container.rs:617-648 | Once a child's exit has been seen, or a kill of it by anybody has succeeded, it is dead for the rest of the run |
| ExecutionTheorems.OnlyTheMonitorWrites | crates/local-deployment/src/container.rs:670-685 | As long as a monitor has yet to publish, the row is Running and no step of anybody but that monitor's own publication changes it |
| ExecutionTheorems.OkStopSawTheEnd | crates/local-deployment/src/container.rs:1581-1593 | A stop that returned Ok left a terminal row that stays; if it went through a live entry, the monitor was complete and the recording sealed, and the child was dead unless the monitor's kill failed, its exit was never seen and no other kill succeeded |
| ExecutionTheorems.CompletedMeansRecorded | crates/local-deployment/src/container.rs:649-686 | A row written by the monitor is Completed if and only if the recording is complete and the decision was a requested Completed or a success with no stop |
| ExecutionOutcomes.PublishedIsObserved | crates/local-deployment/src/container.rs:617-686 | If the monitor's write goes through with a complete recording and no stop requested, exactly one signal or exit was observed before, and the row has, for the rest of the run, the status, exit code and class for it: Completed with 0 for a signalled success or exit code 0, Failed with 1 and the given class for a signalled failure, Failed with 1 for a dropped signal, with the code for another exit, with -1 for death by a signal, without a code if watching failed |
| ExecutionOutcomes.FailedLaunchRow | crates/services/src/services/container.rs:1768-1805 | After a launch that could not bind its command or start its child and could write so, the row is Failed without an exit code for the rest of the run, with a class exactly in the second case |
| ExecutionOutcomes.StarterRowIsFailed | crates/services/src/services/container.rs:1768-1792 | A row whose author is the launch is Failed without an exit code |
| ExecutionAnswers.TerminalExactlyWhen | crates/local-deployment/src/container.rs:1570-1593 | A row is terminal if and only if one of four writes went through: of a launch that could not bind, of one that could not start, of the monitor, of an orphan's stop |
| ExecutionAnswers.StopAnswersExactly | crates/local-deployment/src/container.rs:1559-1593 | A stop that waited for the monitor answers Ok if and only if it can read the row and one of these writes went through; an orphan's stop if and only if its own write reached the database |
| ExecutionTheorems.PostWorkOnce | crates/local-deployment/src/container.rs:687-748 | The monitor's own next action, command finish and finalization each happen at most once per execution, only when it won the write, and a next action only after a complete recording, without a stop, on Completed with exit code 0 or a terminal cleanup script |
| ExecutionAnswers.WorkIsDoneExactly | crates/local-deployment/src/container.rs:683-748 | A monitor that has come to its cleanup has passed finalization, and reported its commands finished if they were an agent's, if and only if its write went through and the context could be loaded |
| ExecutionFinishes.ReportedAtMostTwice | crates/services/src/services/container.rs:489-658 | Monitor, failed launch and queue dispatcher each report the commands of one execution finished at most once; the launch's report excludes the monitor's, so there are at most two reports, and at most one if the execution was not dispatched from the queue |
| ExecutionExamples.DispatchedFailureReportsTwice | crates/services/src/services/container.rs:1764-1805 | A dispatched launch whose child does not start is reported twice |
| ExecutionTheorems.CancelledBeforeKilled | crates/local-deployment/src/container.rs:128-139 | An execution that can be cancelled has been cancelled, and the intent recorded, before a stop waits out its grace period and before it may kill the process group; only such an execution gets a grace period |
| ExecutionPaths.GraceBeforeKill | crates/local-deployment/src/container.rs:133-139 | A stop comes to killing an execution that can be cancelled only after the grace period it gave it |
| ExecutionPaths.MonitorTriesToKill | crates/local-deployment/src/container.rs:626-648 | A monitor that drains the output, and any later one that has not crashed, has tried to kill the child, and before that the whole group if its executor signalled |
| ExecutionPaths.FailedRecorderStopsChild | crates/local-deployment/src/container.rs:884-900 | A recorder that fails while the execution is registered cancels it, tries to kill the child before it reports, and reports the recording unavailable |
| ExecutionTheorems.WaitersHoldNoLock | crates/local-deployment/src/container.rs:128-159 | No stop waiting for a monitor holds admission or the child, and no monitor waiting for its recorder holds admission, `requested_stop` or the child |
| ExecutionProgress.RankDecreases | crates/local-deployment/src/container.rs:601-836 | Every step of the system decreases one numeric rank |
| ExecutionProgress.RunsAreBounded | crates/local-deployment/src/container.rs:601-836 | No run is longer than the rank of its first state |
| ExecutionProgress.SomebodyMoves | crates/local-deployment/src/container.rs:128-159 | In every state satisfying the invariant that is not quiescent some participant can take a step that needs no child to exit, no new request and no crash |
| ExecutionProgress.StuckMeansQuiescent | crates/local-deployment/src/container.rs:128-159 | No deadlock: a run that cannot go on by such steps has every lock free, every launch over, every stop call returned and every monitor finished, crashed or watching a live child |
| SigningMessages.RequestMessagesEqualExactlyWhen | crates/relay-control/src/signing.rs:33-44 | Two request messages are equal if and only if timestamp, session, nonce and body hash agree and so does the text "method, bar, path" |
| SigningMessages.RequestMessageInjective | crates/relay-control/src/signing.rs:33-44 | With bar-free methods the message determines all six fields, bars in the path allowed |
| SigningMessages.BarInMethodCollides | crates/relay-control/src/signing.rs:33-44 | Without that hypothesis injectivity fails: a bar in the method always collides with a shorter method and a longer path |
| SigningMessages.ResponseMessageInjective | crates/relay-control/src/signing.rs:76-89 | The response message determines all seven fields with no hypothesis on the path |
| SigningMessages.UuidTextInjective | crates/relay-control/src/signing.rs:33-44 | The hyphenated text of a UUID determines it |
| SigningMessages.RequestFields | crates/relay-control/src/signing.rs:33-44 | Read at its bars, a request message is the version, the timestamp, the method, the parts of the path, session, nonce and body hash, in this order |
| SigningMessages.ResponseFields | crates/relay-control/src/signing.rs:76-89 | And a response message the version, the timestamp, the status, the parts of the path, session, request nonce, response nonce and body hash |
| Signing.DriftNeverOverflows | crates/relay-control/src/signing.rs:307-321 | With a non-negative clock the saturating difference is never the one value whose absolute value overflows |
| Signing.TimestampWindow | crates/relay-control/src/signing.rs:307-321 | For every 64-bit timestamp the check accepts exactly the mathematical window of 30 seconds on both sides |
| Signing.RelaySigningService.GetValidSession | crates/relay-control/src/signing.rs:291-304 | All expired sessions are dropped, then the session is returned if it is still there |
| Signing.RelaySigningService.VerifyRequest | crates/relay-control/src/signing.rs:228-262 | Result and new sessions, on every error path too, are those of the specification the run theorems are about |
| Signing.DriftWindowSpan | crates/relay-control/src/signing.rs:307-321 | Two whole-second clock readings accepted for one timestamp are less than 61 seconds apart |
| Signing.NonceRemembered | crates/relay-control/src/signing.rs:228-262 | After an acceptance the nonce stays remembered through any other registrations and verifications for the nonce lifetime |
| Signing.AtMostOnce | crates/relay-control/src/signing.rs:228-262 | In any run whose verifications reach the nonce check within the delay bound of their timestamp check, no signed request is accepted twice between two registrations of its session |
| Signing.LateReplayAccepted | crates/relay-control/src/signing.rs:228-262 | For every wall-clock offset, a verification held up one nanosecond more than the bound between its two checks accepts a replay, in a concrete run with any request stamped at least 30 seconds after the clock began |
| Signing.DelayBoundIsExact | crates/relay-control/src/signing.rs:228-262 | For every wall-clock offset, runs within delay d are replay-free if and only if d is at most 59 seconds and one nanosecond, given some validly signed request stamped at least 30 seconds after the clock began |
| Signing.RegistrationForgetsNonces | crates/relay-control/src/signing.rs:214-226 | Registering a session again forgets its nonces: an accepted request is accepted once more right after its session is registered anew with the same key |
| Signing.SessionOrigin | crates/relay-control/src/signing.rs:214-226 | Every session present has the key and the creation time of its last registration |
| Signing.AcceptedUnderRegistration | crates/relay-control/src/signing.rs:228-262 | An accepted request was signed with the key of the last registration of its session, less than an hour old |
| Signing.MessageCovers | crates/relay-control/src/signing.rs:33-44 | With bar-free methods and hashes, two requests have one signing message if and only if they agree in timestamp, session, nonce, method, path and body digest |
| Signing.TamperedIsRefused | crates/relay-control/src/signing.rs:228-262 | Of two requests with one signature that differ in any of these, at most one is accepted under a key for which that signature is good for at most one message, whatever the states and clocks |
| Signing.AcceptedAgree | crates/relay-control/src/signing.rs:228-262 | Over a run: two accepted requests with one signature, under sessions last registered with one such key, agree in all the message covers |
| SigningSessions.AcceptedExactlyWhen | crates/relay-control/src/signing.rs:228-304 | In every run a request is accepted if and only if its timestamp is in the window, its signature verifies under the key of the last registration of its session, that registration is at most an hour and the session's last registration or acceptance at most fifteen minutes old, and no request of the session with that nonce was accepted since within two minutes: a statement about the events before it, without the service's state |
| SigningSessions.AnswersExactly | crates/relay-control/src/signing.rs:228-304 | Every answer, refusals included, in terms of the events before: out of the window, a signature that does not parse, no session that is fresh, a nonce taken, a signature that does not verify, in this order and each with its own error |
| SigningSessions.FreshIsPresent | crates/relay-control/src/signing.rs:291-304 | A session that is neither too old nor idle now has never been dropped before |
| SigningSessions.PresentWasUsed | crates/relay-control/src/signing.rs:256-259 | A session that is present carries the time of its last registration or acceptance |
| SigningSessions.NonceOrigin | crates/relay-control/src/signing.rs:256-258 | Every remembered nonce was accepted since the registration, at the time remembered |
| SshTunnels.TunnelManager.FindUsable | crates/relay-hosts/src/tunnel_manager.rs:32-39 | Finds the port of the registered tunnel exactly if its token is not cancelled |
| SshTunnels.TunnelManager.InsertUnlessUsable | crates/relay-hosts/src/tunnel_manager.rs:46-62 | The re-check and the insertion: a usable tunnel wins and nothing changes, otherwise this tunnel becomes the entry |
| SshTunnels.TunnelManager.CleanUp | crates/relay-hosts/src/tunnel_manager.rs:66-76 | Removes the host's entry exactly if it is this tunnel's |
| SshTunnels.TunnelManager.CancelTunnel | crates/relay-hosts/src/tunnel_manager.rs:81-86 | Removes the host's entry and cancels exactly the tunnel it named |
| SshTunnels.RegisteredIsLive | crates/relay-hosts/src/tunnel_manager.rs:29-86 | In every interleaving, until shutdown, a listener is open and uncancelled if and only if the map registers it and its accept loop has not ended |
| SshTunnels.AtMostOneLive | crates/relay-hosts/src/tunnel_manager.rs:29-86 | A host never has two open uncancelled listeners |
| SshTunnels.OnlyOwnCauses | crates/relay-hosts/src/tunnel_manager.rs:29-86 | A live registered tunnel stays so under every step but the end of its own loop, a cancellation of its host or shutdown |
| SshTunnels.RaceLoserGetsWinnersPort | crates/relay-hosts/src/tunnel_manager.rs:46-52 | A caller that checks or re-checks a host with a live tunnel is served that tunnel's port and changes nothing |
| SshTunnels.InsertionOverwritesNothing | crates/relay-hosts/src/tunnel_manager.rs:46-62 | Before shutdown an insertion only ever happens where the host has no entry, and registers the inserting tunnel |
| SshTunnels.CleanupSparesOthers | crates/relay-hosts/src/tunnel_manager.rs:66-76 | A cleanup never removes or changes an entry that is not its own, in particular a newer one for the same host |
| SshTunnels.CancelLeavesNone | crates/relay-hosts/src/tunnel_manager.rs:81-86 | After a cancellation the host has no live listener |
| SshTunnels.ServedPortIsReal | crates/relay-hosts/src/tunnel_manager.rs:32-52 | A port handed out by a check is that of another call's tunnel, registered for the host asked for |
| SshTunnels.ServedIsLiveExactly | crates/relay-hosts/src/tunnel_manager.rs:32-52 | At the moment a check hands out a port, it is that of the registered tunnel, whose listener is live if and only if its accept loop has not ended |
| SshTunnels.DeadPortIsServed | crates/relay-hosts/src/tunnel_manager.rs:32-76 | A run in which a caller is given the port of a listener whose accept loop has failed, cleanup pending |
| SshTunnels.NothingServedAfterShutdown | crates/relay-hosts/src/tunnel_manager.rs:24-52 | After shutdown no listener is live and no port of another call is handed out |
| WebRtcCache.WebRtcConnectionCache.Get | crates/relay-hosts/src/webrtc_cache.rs:49-56 | Returns a client exactly if the host is Connected to one that is still up |
| WebRtcCache.WebRtcConnectionCache.Remove | crates/relay-hosts/src/webrtc_cache.rs:65-71 | Exactly this host is dropped; its client, if it had one, is the one shut down |
| WebRtcCache.WebRtcConnectionCache.StartConnecting | crates/relay-hosts/src/webrtc_cache.rs:76-96 | Starts exactly for an unknown host, one whose client is down, or one whose failure is at least the cooldown old; then and only then the host becomes Connecting |
| WebRtcCache.ConnectingIffInFlight | crates/relay-hosts/src/lib.rs:532-576 | In every run that does not remove the host, the cache says Connecting if and only if a handshake for it is in flight, a panicked one included, and there are never two |
| WebRtcCache.BeginsExactlyWhen | crates/relay-hosts/src/webrtc_cache.rs:76-96 | In every run that does not remove the host, a call begins a handshake if and only if none has begun before, or the latest ended in failure or a caught panic at least five minutes ago, or the latest connected a client that has disconnected since; none begins while one is under way |
| WebRtcCache.NoHandshakeBeforeCooldown | crates/relay-hosts/src/webrtc_cache.rs:76-103 | After a failure or a caught panic no handshake for the host begins before the cooldown has elapsed |
| WebRtcCache.EstablishedStays | crates/relay-hosts/src/webrtc_cache.rs:58-96 | After a handshake has succeeded its client is the one found for the host for as long as it is up and the host is not removed |
| WebRtcCache.UnpairKeepsExactlyWhenIdle | crates/relay-hosts/src/webrtc_cache.rs:65-71 | Removing a host keeps the invariant if and only if it was not Connecting |
| WebRtcCache.UnpairThenTwoInFlight | crates/relay-hosts/src/webrtc_cache.rs:65-96 | Otherwise the next call puts a second handshake in flight beside the first |
| WebRtcCache.ClientsAreTheHostsOwn | crates/relay-hosts/src/webrtc_cache.rs:49-63 | A client found for a host is the result of a completed handshake with that host |
| JsoncMerge.RemoveMissing | crates/executors/src/mcp_config.rs:136-148 | The first loop leaves exactly the properties whose name the new object has, in order, duplicates included |
| JsoncMerge.DeepMerge | crates/executors/src/mcp_config.rs:135-163 | Both loops with the recursion compute the merge the lemmas below are about |
| JsoncMerge.NumberReadBack | crates/executors/src/mcp_config.rs:171-179 | A number is read back as it was if and only if it survives: an integer up to the largest signed one, or one its own double is written as; a double that is not written as an integer of 64 bits |
| JsoncMerge.ReadInstead | crates/executors/src/mcp_config.rs:171-179 | What a number that does not survive is read as: for an integer its nearest double, or the integer that double is written as; for a double the integer it is written as |
| JsoncMerge.NumbersThatChange | crates/executors/src/mcp_config.rs:171-179 | The largest unsigned integer comes back as a double, and the double one as an integer |
| JsoncMerge.ToCstMeaning | crates/executors/src/mcp_config.rs:165-190 | The tree written for a new value means that value if and only if every number in it, at any depth, survives |
| JsoncMerge.ApplyAllShape | crates/executors/src/mcp_config.rs:150-162 | Setting entries in turn changes properties only in place, the first of each name, and appends the new names in their order |
| JsoncMerge.SurvivorsKeepTheirPlace | crates/executors/src/mcp_config.rs:135-163 | Down to any depth, survivors keep their relative order and their comments, merged objects keep theirs, later properties of a name stay as they are, and additions follow in their order |
| JsoncMerge.SurvivorsAreThoseWanted | crates/executors/src/mcp_config.rs:136-148 | Who survives, without the filter: every property whose name the new object has, at its place among those before it, and nothing else |
| JsoncMerge.MergeAgrees | crates/executors/src/mcp_config.rs:135-163 | The merged object means the new one if and only if every value takes effect: the numbers that are written survive, and no duplicate name hides a value behind a later, different occurrence, at any depth |
| JsoncMerge.UpdateAgrees | crates/executors/src/mcp_config.rs:120-131 | The same for the whole file; for one that does not parse or holds no object, if and only if every number survives |
| JsoncMerge.UpdateKeepsTheFile | crates/executors/src/mcp_config.rs:120-131 | The whole file: an object keeps its own comments and is laid out as the merge at every depth; what is no object becomes one; a configuration that is no object changes nothing |
| JsoncMerge.UpdateReplaces | crates/executors/src/mcp_config.rs:120-163 | For documents without duplicate names at any depth the update agrees with plain replacement if and only if every number of the new configuration survives |
| JsoncMerge.DuplicateNameDefeatsTheUpdate | crates/executors/src/mcp_config.rs:135-163 | A document with one name twice for which the updated file does not mean the new configuration |
| JsoncMerge.LargeIntegerDefeatsTheUpdate | crates/executors/src/mcp_config.rs:171-179 | Whatever the file held without duplicate names, an update with the largest unsigned integer does not mean the new configuration |
| JsoncMerge.UpdateSettles | crates/executors/src/mcp_config.rs:120-163 | Repeating an update changes nothing, comments and duplicates included, for every document |
| Profiles.CanonicaliseConfigs | crates/executors/src/profile.rs:280-296 | The two loops over one profile leave only canonical names, keep an entry already under its canonical name, and every value left comes from a name with that canonical form |
| Profiles.ExecutorConfigs.Canonicalise | crates/executors/src/profile.rs:280-296 | Every profile is canonicalised so, and nothing else changes |
| Profiles.CanonicalIsFixed | crates/executors/src/profile.rs:280-296 | Only canonical names are left, and the outcome equals the input if and only if it had no others |
| Profiles.CanonicaliseTwice | crates/executors/src/profile.rs:280-296 | Canonicalising is idempotent |
| Profiles.DroppedOnlyOnCollision | crates/executors/src/profile.rs:288-294 | A value is dropped only if another name of the profile has the same canonical form, whose value is the one kept |
| Profiles.NoCollisionNoLoss | crates/executors/src/profile.rs:280-296 | Without collisions every value is kept and the number of configurations is unchanged |
| Profiles.MergeWithDefaults | crates/executors/src/profile.rs:369-390 | The loops compute the union in which overriding configurations and recent models win |
| Profiles.FindDeletion | crates/executors/src/profile.rs:398-420 | Finds a missing built-in executor or configuration exactly if there is one |
| Profiles.ComputeOverrides | crates/executors/src/profile.rs:393-464 | An error if and only if something built in is gone, naming something that is; otherwise the overrides of the lemmas below |
| Profiles.RoundTrip | crates/executors/src/profile.rs:369-464 | Merging the overrides over the defaults gives the current configuration, a cleared recent-models field over a default coming back as the empty record; it is the current configuration exactly if no such field was cleared |
| Profiles.OverridesAreLeast | crates/executors/src/profile.rs:422-461 | The overrides are contained in every other set with the same effect if and only if no default that was already the empty record was cleared |
| Profiles.SavesNothingExactlyAtDefaults | crates/executors/src/profile.rs:422-461 | Nothing is saved exactly for the default configuration |
| Profiles.ValidateMerged | crates/executors/src/profile.rs:467-493 | Accepts exactly the configurations whose every executor has a DEFAULT of its own kind and no reserved name; an error names one that has not |
| Profiles.ValidMeans | crates/executors/src/profile.rs:467-493 | A configuration is valid if and only if every executor has a DEFAULT of its own kind and no name starts with two underscores |
| Profiles.ExecutorConfigs.SaveOverrides | crates/executors/src/profile.rs:344-366 | Succeeds exactly if nothing built in is gone, the merged result is valid and the write works; then the file holds the overrides of the canonicalised configuration, otherwise it is as it was or as the failed write left it |
| Profiles.Load | crates/executors/src/profile.rs:310-341 | Without a readable, parseable file the defaults; otherwise the canonicalised overrides merged over them |
| Profiles.LoadAfterSave | crates/executors/src/profile.rs:310-366 | Loading after a save gives back the canonicalised configuration saved, up to cleared recent models, whatever order the maps are read in |
| Profiles.SavingAgainIsStable | crates/executors/src/profile.rs:344-366 | What was loaded after a save survives the next save and load unchanged |
| Navigation.NavTracker.LoadNavState | crates/preview-proxy/src/devtools_script.js:53-79 | Any saved state gives the usable addresses, in order, and an index clipped from above; anything else an empty stack |
| Navigation.NavTracker.EnsureCurrentInStack | crates/preview-proxy/src/devtools_script.js:108-159 | All three modes, with the search loop, compute the observation of the lemmas below |
| Navigation.NavTracker.ObserveLocation | crates/preview-proxy/src/devtools_script.js:161-168 | The observation is made, saved and reported with the right buttons |
| Navigation.NavTracker.InitializeNavigation | crates/preview-proxy/src/devtools_script.js:170-184 | A new document continues from the saved state with one observation |
| Navigation.NavTracker.Poll | crates/preview-proxy/src/devtools_script.js:245-249 | Only a changed address is observed; where the tracker stands on the address it saw last this loses nothing, the outcome being that of an observation in any case |
| Navigation.NavTracker.Goto | crates/preview-proxy/src/devtools_script.js:232-241 | The address is pushed after the current one and saved; an empty address does nothing |
| Navigation.Started | crates/preview-proxy/src/devtools_script.js:170-181 | After starting from any saved integer index and any saved stack the index is in range |
| Navigation.StartsWhere | crates/preview-proxy/src/devtools_script.js:53-79 | It stands on the saved entry if the saved index is that of one, else on the last one saved, and with nothing usable on the address shown |
| Navigation.AddressesAreTheUsable | crates/preview-proxy/src/devtools_script.js:59-68 | The saved addresses are the usable entries, plain or in a record, in their order, and no others |
| Navigation.Observed | crates/preview-proxy/src/devtools_script.js:108-159 | An observation leaves the index in range, on the address shown |
| Navigation.AlwaysInRange | crates/preview-proxy/src/devtools_script.js:108-249 | After any run of events, from any state in range, the index is in range and stands on the address shown |
| Navigation.ObservingTwice | crates/preview-proxy/src/devtools_script.js:186-200 | Observing again without having moved changes nothing |
| Navigation.RestoredAsSaved | crates/preview-proxy/src/devtools_script.js:53-93 | A state saved by one document is the one the next document starts from |
| Navigation.BackExact | crates/preview-proxy/src/devtools_script.js:129-152 | Going back one entry is tracked if and only if that entry looks neither like the current one nor like the one ahead |
| Navigation.ForwardExact | crates/preview-proxy/src/devtools_script.js:129-137 | Going forward one entry is tracked if and only if it does not look like the current one |
| Navigation.StepExact | crates/preview-proxy/src/devtools_script.js:108-249 | From a state matching the browser's history any event leaves it matching if and only if the stated condition on the history alone holds |
| Navigation.RunRefines | crates/preview-proxy/src/devtools_script.js:108-249 | Over any run of such events stack and index match the browser's entries, up to normalization, and its position |
| Navigation.FromTheFirstDocument | crates/preview-proxy/src/devtools_script.js:53-249 | From a first document with nothing usable saved, over any run of such events, the tracker has the browser's history and its buttons the browser's possibilities |
| Navigation.DistinctIsTrackable | crates/preview-proxy/src/devtools_script.js:108-249 | While entries stay pairwise distinct after normalization and links lead to addresses unlike every entry, every event meets the condition |
| Navigation.DistinctEntriesAreNotEnough | crates/preview-proxy/src/devtools_script.js:144-152 | Distinct entries alone do not suffice: a link to an entry ahead leaves tracker and browser apart |
| Navigation.ButtonsAreRight | crates/preview-proxy/src/devtools_script.js:222-228 | In a matching state the back and forward buttons are enabled exactly if the browser can go there |
| GitParsers.GetWorktreeStatus | crates/git/src/cli.rs:249-306 | The loop over NUL-separated parts yields the entries of the specification, and both counts are the numbers of such entries |
| GitParsers.CountsMean | crates/git/src/cli.rs:280-297 | The two counts are the numbers of entries with two question marks and of those with neither these nor two spaces |
| GitParsers.StatusIsShaped | crates/git/src/cli.rs:249-306 | From any bytes at all, every entry has a path, an origin only with a rename or copy code, and the right untracked flag |
| GitParsers.StatusRoundTrip | crates/git/src/cli.rs:249-306 | Printed entries come back unchanged if and only if every rename or copy but the last entry carries its origin |
| GitParsers.ParseNameStatus | crates/git/src/cli.rs:486-530 | The loop over lines yields the entries of the specification |
| GitParsers.LetterRoundTrip | crates/git/src/cli.rs:494-504 | Every change, the unknown ones included, is read from the letter it is printed with |
| GitParsers.LettersMean | crates/git/src/cli.rs:494-504 | Each of the seven letters is read as the change it stands for, any other as unknown |
| GitParsers.NameStatusRoundTrip | crates/git/src/cli.rs:486-530 | Printed changes come back with the ends of their paths trimmed, those with blank paths lost; unchanged if and only if no path ends in white space |
| GitWorktrees.ListWorktrees | crates/git/src/cli.rs:317-356 | The loop with its three variables computes the scan of the specification |
| GitWorktrees.TrailingBlankIsFree | crates/git/src/cli.rs:326-353 | Whether the output ends in a blank line makes no difference, whatever it holds |
| GitWorktrees.WorktreeRoundTrip | crates/git/src/cli.rs:317-356 | Printed worktrees with a head come back, bare ones are left out, paths and branch names trimmed at the end; unchanged if and only if none of these ends in white space |
| CommitGraph.HistoryIsClosed | crates/git/src/lib.rs:674-691 | The history of an ancestor is part of the history |
| CommitGraph.HistoryGrows | crates/git/src/lib.rs:1122-1131 | New commits do not change the history of old ones |
| CommitGraph.MissingNothing | crates/git/src/lib.rs:674-691 | No commit of one tip is missing from the other exactly if it is in the other's history |
| CommitGraph.CommitCounts | crates/git/src/lib.rs:674-691 | A commit on a branch puts it one further ahead of any other tip and no less behind |
| CommitGraph.MergeCounts | crates/git/src/lib.rs:674-691 | Merging the other tip in leaves a branch behind by nothing and one further ahead |
| CommitGraph.AncestorIsMergeBase | crates/git/src/lib.rs:1106-1111 | A tip in the other's history is the only merge base |
| SquashMerge.StatusMeans | crates/git/src/lib.rs:693-707 | Behind is zero if and only if the base tip is an ancestor of the task tip; ahead and behind are both zero exactly for one and the same commit |
| SquashMerge.CommitsMoveTheStatus | crates/git/src/lib.rs:693-707 | A commit on the branch adds one to ahead, a commit on the base one to behind, and the other count stays |
| SquashMerge.Repo.MergeSquashCommit | crates/git/src/cli.rs:664-680 | On the command line: conflicts and a refused commit leave staged changes, an unchanged tree commits nothing, otherwise one commit on the old base moves the base |
| SquashMerge.Repo.PerformSquashMerge | crates/git/src/lib.rs:1097-1141 | In the object store: a conflict changes nothing, otherwise one commit on the base is made and then the base moved |
| SquashMerge.Repo.MergeChanges | crates/git/src/lib.rs:575-673 | Both paths, every failure included, end in the state and result of a specification in which the new commit carries the task's tree and no three-way merge occurs |
| SquashMerge.SucceedsExactlyWhen | crates/git/src/lib.rs:575-673 | The exact condition for success |
| SquashMerge.SuccessMeans | crates/git/src/lib.rs:575-673 | Both branches name one new commit whose only parent is the old base and whose tree is the task's; they are level; every other branch and old commit is unchanged; its history is the old base's and itself |
| SquashMerge.TaskHistoryIsFolded | crates/git/src/lib.rs:660-668 | The task's old tip stays in its history only if it was the base tip |
| SquashMerge.FailureMeans | crates/git/src/lib.rs:575-673 | A failed merge leaves the task and every other branch alone, and moves the base, if at all, to the commit a success would have made |
| SquashMerge.RefusalMeans | crates/git/src/lib.rs:587-620 | Which error a refused merge reports, a divergence with the number of commits missing; nothing but staged changes is left behind, and these only by a commit git refuses |
| SquashMerge.RefusedCommitBlocks | crates/git/src/lib.rs:603-616 | After a commit git refused, the next attempt in that checkout is refused for the changes left staged |
| SquashMerge.HalfDoneIsRefused | crates/git/src/lib.rs:587-596 | After a merge that stopped between the two branches every further attempt is refused as diverged by one commit |
| SquashMerge.BaseKeepsItsHistory | crates/git/src/lib.rs:575-673 | Over any run of commits, merges that succeed or fail, and moves of other branches, a branch loses no history unless it is itself moved or merged as a task |
| SshConfig.ReplaceHostBlock | crates/desktop-bridge/src/ssh_config.rs:173-200 | The loop gives exactly the lines outside every block of the alias, in order, each with a newline, and then the new block |
| SshConfig.InBlockNext | crates/desktop-bridge/src/ssh_config.rs:178-197 | A line belongs to a block of the alias if it names the alias, or the line before belongs and this one does not end the block: the loop's flag is the declarative meaning |
| SshConfig.TunnelSettingsArePlain | crates/desktop-bridge/src/ssh_config.rs:75-78 | The settings written for a tunnel are indented lines that name no host |
| SshConfig.UpdatedLines | crates/desktop-bridge/src/ssh_config.rs:75-82 | After an update the file reads as the lines kept, followed by the new block |
| SshConfig.UpdatedIsRead | crates/desktop-bridge/src/ssh_config.rs:75-82 | A reader of the updated file finds every setting of the new block under the alias, whatever the file held before |
| SshConfig.TunnelIsFound | crates/desktop-bridge/src/ssh_config.rs:75-78 | Under the alias a reader finds the loopback address, this port, the user, the key file, host-key checking off and the null file of known hosts |
| SshConfig.NamedExactlyOnce | crates/desktop-bridge/src/ssh_config.rs:173-200 | Afterwards exactly one line names the alias, the host line of the new block |
| SshConfig.OtherBlockSurvives | crates/desktop-bridge/src/ssh_config.rs:173-200 | A block opened by an unindented line and not naming the alias is kept whole and in one piece |
| SshConfig.BlockDropped | crates/desktop-bridge/src/ssh_config.rs:183-192 | From a line that names the alias on, lines that end no block all go |
| SshConfig.SecondUpdate | crates/desktop-bridge/src/ssh_config.rs:75-82 | A second update keeps what the first kept, replaces the block, and adds one empty line |
| SshConfig.ManyUpdates | crates/desktop-bridge/src/ssh_config.rs:75-82 | After any number of updates the file is what was kept, one empty line for each update but the first, and the last block |
| Redirects.TrimWrappingQuotes | crates/preview-proxy/src/lib.rs:133-149 | One pair of equal quotes is taken off if the value has them at both ends |
| Redirects.TrimTrailingRedirectPunctuation | crates/preview-proxy/src/lib.rs:151-160 | The loop ends, and computes the trimming the lemmas are about |
| Redirects.NormalizeRedirectLikeUrlToken | crates/preview-proxy/src/lib.rs:162-189 | The loop ends on a decreasing length and computes the normalization the lemmas are about |
| Redirects.NormalizedExactly | crates/preview-proxy/src/lib.rs:162-189 | The result is r if and only if r is a non-empty text without white space, quotes or a mark at its end and the value is r inside any number of layers of white space, quote pairs and trailing marks |
| Redirects.NormalizedIsStable | crates/preview-proxy/src/lib.rs:162-189 | Results are fixed points, and the fixed points are exactly the plain addresses |
| RscRedirects.DigestRoundTrip | crates/preview-proxy/src/lib.rs:791-829 | A printed redirect digest parses back to it, whatever semicolons the address holds |
| RscRedirects.DigestSound | crates/preview-proxy/src/lib.rs:791-829 | Only printed redirects parse, up to how the status is written |
| RscRedirects.DetectsExactly | crates/preview-proxy/src/lib.rs:770-830 | A redirect is detected if and only if the body is within 1,048,576 bytes and its first marker opens the digest of that redirect, of type push or replace, status 301, 302, 303, 307 or 308, the address free of quotes |
| RscRedirects.PrintedStatusReads | crates/preview-proxy/src/lib.rs:813-820 | The status as printed in decimal reads back as itself |
| RscRedirects.ParseU16Exactly | crates/preview-proxy/src/lib.rs:813-815 | A status is read as n if and only if it is a decimal numeral for n, with zeros or a plus sign before it, and n fits 16 bits |

## Left out

- `RunningExecution::stop`, `spawn_exit_monitor`, `start_execution_inner` and `stop_execution` as imperative code: they are steps of a transition system on values, because their interleaving is what matters.
- Child processes, process groups, pipes and signals: reduced to steps that may happen in any order the code allows.
- Killed executions being put back in the queue, session summaries, head commits, remote synchronisation and analytics in `container.rs`: side effects after the row is decided.
- Maintenance refusing a launch is merged with any other refusal before a row exists; a database error after that leaves the row Running, as in the code.
- A monitor may crash at any await except while it is waiting for an execution it has launched.
- Fairness: progress is stated as "some step is possible and every run is bounded", not for a particular scheduler.
- Database, serialization and file formats: abstract maps and a compare-and-set; atomic file replacement and permissions are not modelled.
- Cryptography: arbitrary functions; nothing is claimed about forging a signature.
- Session creation with a random id, `get_session_peer_key` and `has_active_session_with_key`: the same pruning and lookup again.
- The bytes carried over tunnels and data channels, and the accept loop of the tunnel listener: network transport.
- The commented-JSON library's parser and printer: a document is its tree, comments belong to the property they precede, and names that cannot be decoded do not occur.
- JsoncMerge.DeepMerge: works on the list of properties as a value, so aliasing between the library's tree handles is not modelled.
- `canonical_variant_key`: any idempotent function on names; the embedded defaults use canonical names only.
- Profiles.Load: reading and parsing the file are one of three outcomes; the cache of loaded profiles is left out.
- Navigation.StepExact: addresses are compared through an arbitrary normalization, the saved index is an integer, and at least one observation follows every event; a page resumed from the back/forward cache, which keeps the stack of its old script, is not modelled, as a traversal always continues from the latest state; nor are documents whose storage key changes with `_refresh`, frames and history entries from before the preview.
- Bytes that are not UTF-8 in git's textual output, and git quoting unusual paths: printed paths have no control characters.
- Rename detection, recursive merge bases and hooks: three-way merging is any function that returns the other side when one side is unchanged.
- SquashMerge.Repo.MergeChanges: one merge runs without other writers between its steps; failures may strike between them, and other writers act between merges.
- Writing the private key and the `Include` line of the SSH configuration: file operations.
- SshConfig.ManyUpdates: for files whose kept lines end in no stray carriage return; `SshConfig.SecondUpdate` has no such hypothesis.
- Parsing and rewriting the normalized redirect address, and refresh headers: work of the URL library and one-line wrappers.
- Decoding a response body: the text is what the bytes decode to, the size cap is on the bytes.
