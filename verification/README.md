# Delegation: the concurrency protocols, modelled and proved in Dafny

Delegation connects a broker with the peers of a controller. The broker keeps a table of connected
sessions, replicates the lifecycle of each peer's workers, relays finished result packages from one
peer to another, and wakes agents that wait for news. A peer runs an app-server child whose process
family it can stop and kill, answers and makes calls over one connection, and edits its protected
configuration. The command line issues and revokes the credentials of peers.

Most of this is small state under a lock that many goroutines change, with crashes, retries and late
messages in between. Each module below models one such protocol. The locked sections are methods of a
class, or loops where the program loops, proved against functions on values. The same functions are
the steps of a state machine whose runs interleave them in every possible order. The main results
quantify over all runs, all reachable states or all inputs; none assumes fairness, a bound on the
number of participants or a bound on the length of a run. Beside the laws that say what never happens
stand the ones that say what each step does and that waiting parties can go on.

| module | protocol |
|---|---|
| `BrokerTable`, `BrokerRuns` | connection table, leases, version gate, upgrade drain and its fence |
| `StatusSnapshot` | optimistic snapshots checked by the status generation |
| `OperationQueue` | one runner for each agent's queue of operations |
| `Kernel`, `Containment` | stopping and killing a process family that keeps forking |
| `Lifecycle`, `LifecycleRuns` | paged replication of worker lifecycles |
| `ResultInbox`, `ResultTransfer` | the root's inbox and the chunked, resumable copy into it |
| `RelayDelivery` | transfer, delivery, acknowledgement and release, with crashes |
| `RelayLocks`, `Retention` | the lock of a root peer and the ordinals allocated under it |
| `RelayCoordinator` | flights, scans, restart requests and the limit on flights |
| `PendingCalls`, `AbandonedCalls` | tables of calls waiting for an answer, and calls given up |
| `Wakeup` | subscribe, read, block; store, detach, close |
| `AgentWait` | cursors over four streams |
| `ProtectedFile` | replacing a file only if nobody has touched it |
| `CredentialIssue` | enrolling and revoking a peer's credential |

`dafny verify dfyconfig.toml` verifies the whole project.

## How to read the models

- A disabled step leaves the state as it is, so a run is any list of steps. `Reachable(s)` says that
  some run from the initial state ends in `s`; `IsRun` describes a run state by state where a theorem
  is about several of its moments.
- Identifiers that are only compared (devices, sessions, agents, packages, tokens, files) are natural
  numbers. Revisions, generations and ordinals are unbounded unless a bound is written out, as it is
  for worker revisions.
- Timeouts, cancellation, backoff and sleeps are steps or oracle values that may or may not happen.
- In `Containment` every system call is preceded by any number of kernel events: forks, exits, reaps,
  stops taking effect. Only running processes fork, and nobody but the tracker resumes a stopped one.
- In `ResultInbox` a descriptor stands for the bytes it describes, and in `CredentialIssue` a MAC
  for its token: digests and MACs are taken to be collision free.

Some promises a reader might expect turned out false as stated; for each there is a statement of exactly
when it holds and a concrete case or condition in which it does not.

- Once a connection is ready, the broker holds the current record of every worker that existed when the
  connection announced its revision. Exactly: the broker holds a worker's current record if and only if the
  cursor has reached it (`LifecycleRuns.RecordedExactly`), which it has for every worker unchanged since
  (`LifecycleRuns.ReadyCovers`). One that has changed since may have no row (`LifecycleRuns.ReadyWithoutRow`).
- The waits on a stream return every item. Exactly: unless it is removed before it was read
  (`AgentWait.NothingMissedExactly`, `AgentWait.MissedWhenRemoved`). The mailbox removes nothing unread, so
  for messages the promise holds as stated (`AgentWait.MailboxExactlyOnce`).
- `ReplaceProtectedFile` deletes only the expected original or its own replacement. Exactly: unless it
  restores over a file saved between its identity check and the restoring exchange, a condition on the
  file, the edits and the faults (`ProtectedFile.Directory.Replace`, `ProtectedFile.LateEditDeleted`).
- A transfer on which no call fails succeeds from whatever the root has stored. Exactly: if the attempt was
  not given up, and the root has the package, or is neither evicting it nor receiving it for another attempt,
  admits this one, and each part can be completed from its reported offset (`ResultTransfer.Transfer`). For
  the new attempt the broker makes each time this is: the root has the package, or has nothing of it and
  admits the attempt (`ResultTransfer.NewAttemptTransfers`). The other case occurs
  (`ResultTransfer.OtherAttemptBlocks`), and a single lost answer brings it about
  (`ResultTransfer.LostAnswerBlocks`).

## Model

| member | source | states |
|---|---|---|
| BrokerTable.Server.Activate | internal/broker/server.go:791-811 | an activation is refused exactly when the server is closed or a newer lease is recorded; otherwise the session is listed with its draining flag computed and the generation moves |
| BrokerTable.Server.RecordDeviceLease | internal/broker/server.go:813-829 | the newest lease is kept, a listed session with an older one is dropped, and then the generation moves |
| BrokerTable.Server.Deactivate | internal/broker/server.go:831-841 | a session removes its own entry and no other |
| BrokerTable.Server.MarkWorkerSyncReady | internal/broker/server.go:843-857 | the session becomes sync-ready, and the generation moves exactly when it is its device's current one and was not ready before |
| BrokerTable.Server.UpdateReadiness | internal/broker/worker_readiness_rpc.go:35-44 | only the current session of a device changes its readiness, and the generation moves exactly when it does |
| BrokerTable.Server.SweepDraining | internal/broker/upgrade.go:37-63 | the loop gives every listed session, and no other, the flag the sweep computes for its device |
| BrokerTable.Server.BeginDrainSweep | internal/broker/upgrade.go:37-49 | the locked sweep that follows the atomic swap: every listed session drains, and the generation moves if the swap changed something |
| BrokerTable.Server.EndDrainSweep | internal/broker/upgrade.go:51-63 | the sweep that ends a drain leaves exactly the devices under intervention draining, with the same rule for the generation |
| BrokerTable.Server.RequireRuntimeVersion | internal/broker/upgrade.go:72-83 | every listed session's compatibility flag follows the required version |
| BrokerTable.Server.SetUpgradeIntervention | internal/broker/upgrade.go:85-97 | the device's intervention and its listed session's flag change together |
| BrokerTable.Server.CaptureConnectionStatus | internal/broker/status.go:120-144 | the counts are the sizes of the connected, worker-ready and dispatchable parts of one view, each sync-ready device is listed once, and the generation is that view's |
| BrokerTable.Server.CountConnections | internal/broker/status.go:120-144 | the loop over the table counts each device once |
| BrokerTable.Server.CaptureAgentConnections | internal/broker/agent_projection.go:58-78 | the captured targets are one whole view, with its generation |
| BrokerRuns.ViewChangesMoveGeneration | internal/broker/server.go:791-857 | every step of every writer that changes what any reader can see of any device also moves the generation |
| BrokerRuns.GenerationMonotone | internal/broker/status.go:146-150 | the generation never falls |
| BrokerRuns.GenerationMovesExactly | internal/broker/server.go:791-857 | the generation moves by one exactly in the steps named, told from leases and reports and not from the steps themselves |
| BrokerRuns.StableView | internal/broker/status.go:26-46 | equal generations at two moments of a run mean one view held at every moment between |
| BrokerRuns.ListedHoldsNewestLease | internal/broker/server.go:859-882 | a listed session holds exactly the newest recorded lease of its device; a running session that is not listed has been superseded |
| BrokerRuns.ActivationFindsNoPrevious | internal/broker/server.go:791-811 | a successful activation never displaces a listed session |
| BrokerRuns.ActivationExactly | internal/broker/server.go:791-811 | in every run a prepared session gets listed exactly when the broker is open and no newer lease of its device is recorded |
| BrokerRuns.JoinIsLocal | internal/broker/server.go:791-829 | a step of a joining session leaves every other session and device as they are |
| BrokerRuns.LiveIsLocal | internal/broker/server.go:831-857 | so does a step of a running one |
| BrokerRuns.LeaseTakes | internal/broker/server.go:813-829 | a registration issues a lease newer than any before, and recording it frees the device of whoever held an older one |
| BrokerRuns.PreparedAsSaid | internal/broker/server.go:709-732 | a session starts with the readiness its hello gave |
| BrokerRuns.ReportsTake | internal/broker/worker_readiness_rpc.go:35-44 | what a session that is not superseded reports is what the view then says of its device, and nothing else changes in it |
| BrokerRuns.EndingTakes | internal/broker/server.go:831-841 | a session that ends frees its device exactly if it had it, and takes it off the registry exactly if it held the lease |
| BrokerRuns.RevocationTakes | internal/store/credential.go:229-238 | a revocation takes the device off the registry under a lease nobody holds |
| BrokerRuns.AdminTakes | internal/broker/upgrade.go:72-97 | an intervention and a required version stand exactly as asked for, and dispatch follows them |
| BrokerRuns.CloseTakes | internal/broker/server.go:794-796 | closing closes |
| BrokerRuns.ClosedForGood | internal/broker/server.go:794-796 | over every run, once closed always closed, and no session is listed that was not |
| BrokerRuns.SupersededForever | internal/broker/server.go:831-841 | a superseded session is never listed again, removes nothing when it ends and cannot mark its device offline |
| BrokerRuns.DispatchableExactly | internal/broker/server.go:875-882 | outside a drain call a device is dispatchable exactly under the five stated conditions |
| BrokerRuns.FlagsRightAfterEachCall | internal/broker/upgrade.go:37-97 | whatever activations fell between swap and sweep, a listed session's draining flag is (global drain or intervention) when the call returns |
| BrokerRuns.DrainFence | internal/broker/upgrade.go:206-213 | from the return of a drain's begin to the start of its end no mutation holds or obtains admission |
| BrokerRuns.MutationsGetThrough | internal/broker/upgrade.go:206-213 | outside a drain call a mutation gets its turn and is admitted exactly unless a drain is on |
| BrokerRuns.DrainsGetThrough | internal/broker/upgrade.go:37-63 | a drain call gets its turn exactly with no mutation under way, and the drain is then on or off as asked for |
| StatusSnapshot.HeldWhenUnmoved | internal/broker/status.go:26-46 | an unmoved generation means the captured view held throughout the durable read |
| StatusSnapshot.Status | internal/broker/status.go:21-48 | the three-attempt loop returns counts and a device list only if they are those of the view at every moment of the durable read |
| StatusSnapshot.CaptureStatus | internal/broker/status.go:120-144 | the captured counts and list summarize the captured view, with its generation |
| StatusSnapshot.ListAgentStates | internal/broker/agent_projection.go:25-56 | a returned listing describes each stored agent truly at every moment of its durable read |
| StatusSnapshot.ProjectPage | internal/broker/agent_projection.go:25-56 | one state for each listed agent, in order |
| StatusSnapshot.ProjectionDescribes | internal/broker/agent_projection.go:80-112 | what a projected availability says about the connection, both ways |
| OperationQueue.AgentOperationQueue.constructor | internal/broker/agent_operation_queue.go:15-17 | an empty queue |
| OperationQueue.AgentOperationQueue.Enqueue | internal/broker/agent_operation_queue.go:19-27 | the operation is appended, and a runner is started exactly when the key had none queued |
| OperationQueue.AgentOperationQueue.Next | internal/broker/agent_operation_queue.go:29-38 | the first locked section of the runner |
| OperationQueue.AgentOperationQueue.Finished | internal/broker/agent_operation_queue.go:39-53 | the second one: the operation is dropped, and the key with the last of them |
| OperationQueue.OrderedExactlyOnce | internal/broker/agent_operation_queue.go:19-53 | in every run nothing enqueued is lost, reordered or run twice; a key has a runner exactly while its queue is non-empty, and never two |
| OperationQueue.AskedIsServed | internal/broker/agent_operation_queue.go:19-53 | what a run has completed and still has to complete of a key is what it was asked to enqueue, in order |
| OperationQueue.FetchAlwaysFindsWork | internal/broker/agent_operation_queue.go:29-38 | the early return on an empty queue is never taken |
| OperationQueue.RunnerDrainsQueue | internal/broker/agent_operation_queue.go:29-53 | from every reachable state the runner alone completes everything enqueued and retires |
| Kernel.HappenEvolves | internal/appserver/descendant_tracker_darwin.go:44-48 | after any kernel event the dead are still dead, and a stopped process is still stopped or dead and has no new child |
| Containment.ContainedIsStable | internal/appserver/descendant_tracker_darwin.go:194-226 | once every tracked process is stopped and every child tracked, no kernel event brings up an untracked child |
| Containment.ContainedKept | internal/appserver/descendant_tracker_darwin.go:196-198 | containment lasts as long as nothing is recorded and nothing tracked is set running or gets a child |
| Containment.DescendantsContained | internal/appserver/descendant_tracker_darwin.go:194-226 | containment reaches every generation below a tracked process |
| Containment.OneStablePassIsNotEnough | internal/appserver/descendant_tracker_darwin.go:200-226 | a single stable pass can leave a live untracked child: a concrete case |
| Containment.Tracker.ForgetIdentity | internal/appserver/descendant_tracker_darwin.go:493-519 | the identity is dropped and its stop request with it; a process seen stopped under its number is resumed exactly if a second look still finds it so, and nobody else is; an error is reported exactly if a call failed |
| Containment.Tracker.ResumeReplacement | internal/appserver/descendant_tracker_darwin.go:508-518 | the second look, and the resumption exactly if it finds the same process stopped |
| Containment.Tracker.Inspect | internal/appserver/descendant_tracker_darwin.go:262-272 | a process looked at is there as it was known, or is forgotten |
| Containment.Tracker.RecordIdentity | internal/appserver/descendant_tracker_darwin.go:399-410 | a new identity is tracked and moves the revision, a known one does not; an error exactly if the set grew past its limit |
| Containment.Tracker.ClearNumber | internal/appserver/descendant_tracker_darwin.go:363-375 | whoever was tracked under the process number before is forgotten, and the number is nobody's |
| Containment.Tracker.AddProcess | internal/appserver/descendant_tracker_darwin.go:362-397 | a process that is not the expected parent's is not recorded; if no call failed and nothing was recorded, the live child of a stopped tracked parent under this process number is tracked |
| Containment.Tracker.Adopt | internal/appserver/descendant_tracker_darwin.go:394-396 | a process that is there, under this identity and this parent, is recorded and its own children looked for |
| Containment.Tracker.VisitChild | internal/appserver/descendant_tracker_darwin.go:346-358 | a listed child is looked at again and added only if it still is the parent's; then the parent is covered there |
| Containment.Tracker.DiscoverChildren | internal/appserver/descendant_tracker_darwin.go:333-360 | a dead parent is dropped; without an error and without a new revision, every child of a parent that stayed stopped is tracked |
| Containment.Tracker.DiscoverAll | internal/appserver/descendant_tracker_darwin.go:323-331 | the same for every tracked process of a halted set |
| Containment.Tracker.StopIdentity | internal/appserver/descendant_tracker_darwin.go:261-299 | a process is reported stopped exactly if, no call failing, it is stopped or dead; it is sent SIGSTOP and nothing else, not if it was stopped already, and that is remembered while it is tracked |
| Containment.Tracker.TellToStop | internal/appserver/descendant_tracker_darwin.go:276-299 | the signal, the note of it and the second look |
| Containment.Tracker.ConfirmStopped | internal/appserver/descendant_tracker_darwin.go:287-298 | a process seen stopped after the signal is stopped or dead |
| Containment.Tracker.StopAll | internal/appserver/descendant_tracker_darwin.go:206-213 | if all were reported stopped every tracked live process is; a halted set is reported so unless a call fails; only tracked processes are signalled |
| Containment.Tracker.FreezePass | internal/appserver/descendant_tracker_darwin.go:200-222 | stable exactly when nothing was recorded and all was found stopped, as far as no call fails; a stable pass leaves the set halted, and a second one on a halted set leaves it contained |
| Containment.Tracker.SignalIdentity | internal/appserver/descendant_tracker_darwin.go:301-321 | the process is sent the signal asked for and no other, or a call failed, or it is tracked no longer; only dead identities are dropped and nothing tracked is set running or gets a child |
| Containment.Tracker.KillAll | internal/appserver/descendant_tracker_darwin.go:227-231 | unless a call fails everything still tracked has been sent SIGKILL, and nobody else has; nothing tracked is set running or gets a child |
| Containment.Tracker.ConfirmExit | internal/appserver/descendant_tracker_darwin.go:234-251 | one identity: forgotten if it is gone, sent SIGKILL again if not |
| Containment.Tracker.ConfirmExits | internal/appserver/descendant_tracker_darwin.go:232-254 | one turn drops only what is dead and, unless a call fails, sends SIGKILL again to everything still tracked |
| Containment.Tracker.Freeze | internal/appserver/descendant_tracker_darwin.go:199-225 | the loop ends at the first two stable passes in a row or at its deadline, and sends nothing but SIGSTOP; settled without an error it leaves the set contained |
| Containment.Tracker.Extinguish | internal/appserver/descendant_tracker_darwin.go:227-254 | the loop ends with nothing tracked or at its deadline; unless a call fails everything still tracked has been sent SIGKILL |
| Containment.Tracker.ContainUntil | internal/appserver/descendant_tracker_darwin.go:194-259 | if the freeze settled without an error the whole family was stopped and tracked, and stays so to the end whether or not the killing succeeds; SIGSTOP is sent only before, SIGKILL only after, and to everything still tracked; success is reported exactly if no call failed, the freeze settled and nothing is tracked, and then all of that family is dead |
| Lifecycle.Validate | internal/protocol/agent_lifecycle.go:121-163 | the receiver's reading accepts exactly the well-formed pages |
| Lifecycle.AppliedForward | internal/protocol/agent_lifecycle.go:165-173 | a page moves the cursor strictly forward and never past its target |
| Lifecycle.Candidates | internal/connector/worker_lifecycle.go:51-73 | the filter keeps exactly the workers past the base and within reach, and fails exactly on a repeated agent or an impossible revision |
| Lifecycle.SortByRevision | internal/connector/worker_lifecycle.go:74-76 | an ordered permutation, strictly ordered when the listing has distinct revisions |
| Lifecycle.NextPage | internal/connector/worker_lifecycle.go:47-91 | a sound listing always yields a valid page holding exactly the workers that changed between base and where the page applies; an unsound one never yields an invalid page |
| LifecycleRuns.Store.ApplyPage | internal/store/agent_lifecycle.go:122-176 | accepted exactly when valid, from the session that holds lease and claim, at the stored cursor, forward and authorized; otherwise nothing changes |
| LifecycleRuns.OverlayAt | internal/store/agent_lifecycle.go:144-150 | rows the page mentions hold what it says, all others stay |
| LifecycleRuns.RecordedExactly | internal/broker/worker_lifecycle_rpc.go:29-56 | in every run a worker's row is its current record exactly when the cursor has reached that record, and otherwise an older one or none |
| LifecycleRuns.CaughtUp | internal/connector/worker_lifecycle.go:93-119 | when the cursor equals the counter the two maps are equal |
| LifecycleRuns.HolderNeverRefused | internal/broker/worker_lifecycle_rpc.go:29-44 | no check ever refuses a page, nor a heartbeat's claim, of the connection that holds the lease |
| LifecycleRuns.ReadyCovers | internal/broker/worker_lifecycle_rpc.go:56-74 | a ready connection has everything recorded that has not changed since it connected |
| LifecycleRuns.ReadyWithoutRow | internal/broker/worker_lifecycle_rpc.go:56-74 | a run in which a connection is ready and a worker that existed when it connected is unknown to the broker |
| LifecycleRuns.NothingFallsBack | internal/store/agent_lifecycle.go:122-176 | the cursor never falls and a worker is only replaced by a newer record of itself |
| LifecycleRuns.ChangeTakes | internal/store/worker_reservation.go:587-600 | a change gives its worker the newest revision and leaves every other worker as it was |
| LifecycleRuns.ConnectingTakes | internal/store/agent_lifecycle.go:75-120 | a peer that connects starts at the cursor, aims for what it announced and is ready at once exactly if it is there |
| LifecycleRuns.OustedCannotStore | internal/store/agent_lifecycle.go:122-150 | a session whose lease has passed on can store nothing |
| LifecycleRuns.AimTakes | internal/connector/worker_lifecycle.go:93-112 | a session that is where it aimed aims for what has been observed since |
| LifecycleRuns.ListWorkers | internal/cli/worker_lifecycle.go:46-80 | a listing has each worker once, as it is |
| LifecycleRuns.SendPage | internal/connector/worker_lifecycle.go:18-23 | a page built now is one the invariant covers |
| LifecycleRuns.Exchange | internal/connector/worker_lifecycle.go:23-43 | the broker's answer is the revision the peer expects, and the cursor strictly advances |
| LifecycleRuns.SyncWorkerLifecycles | internal/connector/worker_lifecycle.go:13-45 | the loop ends under any concurrent changes, and unless a call fails the broker then holds every worker that has not moved past the target |
| LifecycleRuns.Connect | internal/connector/worker_lifecycle.go:13-45 | a peer that connects and runs the loop ends up ready, with every worker it announced and did not change recorded, unless a call fails |
| ResultInbox.Inbox.BeginPackage | internal/store/peer_result_inbox.go:53-155 | an attempt with a receipt and a package under eviction are refused, an available package is reported, the receiving attempt gets its stored offsets if its lease is acceptable, another one a conflict, and an absent package is begun at zero if lease and room allow it |
| ResultInbox.Inbox.CancelPackage | internal/store/peer_result_inbox.go:394-514 | only the receiving attempt is given up: its receipt first, then, now or later, the entry |
| ResultInbox.RootKeeps | internal/store/peer_result_inbox.go:305-364 | whatever requests, reclaims and evictions come in whatever order, only the described package is ever available |
| ResultInbox.RemovedForGood | internal/store/peer_result_inbox.go:193-197 | over every run, until its receipt is dropped, an attempt that was given up can neither begin, write nor finish |
| ResultInbox.CancelGivesUp | internal/store/peer_result_inbox.go:394-514 | giving an attempt up leaves its receipt, and once done a root that takes any other attempt; nobody else's entry is touched |
| ResultInbox.HousekeepingFrees | internal/store/peer_result_inbox.go:783-881 | after a reclaim, or an eviction and its compaction, the package can be begun anew, and not in between |
| ResultInbox.FinishTwice | internal/resultpackagefiles/transfer.go:327-335 | finishing again is answered as before and changes nothing |
| ResultInbox.Inbox.WritePart | internal/resultpackagefiles/transfer.go:213-307 | only the receiving attempt, not given up, writes; a chunk is taken exactly when it is whole, aligned and continues or repeats the part; torn and uncommitted writes leave every final byte in place |
| ResultInbox.Inbox.FinishPackage | internal/resultpackagefiles/transfer.go:309-426 | only the entry's own attempt, not given up, finishes it, and only if every part is complete and as described |
| ResultInbox.PartWrittenKeeps | internal/resultpackagefiles/transfer.go:236-306 | a write is acknowledged exactly when acceptable and fault-free, keeps earlier final bytes and makes its bytes stand where it was aimed |
| ResultTransfer.ReadChunk | internal/broker/result_package_relay.go:815-839 | an answer is used exactly if it has the requested bounds |
| ResultTransfer.CopyChunk | internal/broker/result_package_relay.go:815-867 | the chunk at the broker's own offset: success means the root stands exactly behind it; fault-free it succeeds exactly when the offset is aligned and the root stands there or exactly one matching chunk past it |
| ResultTransfer.RelayPart | internal/broker/result_package_relay.go:804-869 | from any offset within the part the loop ends; success means the part is complete if there was anything to copy; final bytes stay; an honest source makes final only bytes of the package; fault-free it succeeds exactly from a resumable offset |
| ResultTransfer.RelayParts | internal/broker/result_package_relay.go:748-762 | the same over all parts, each from its own offset |
| ResultTransfer.ValidateOffsets | internal/broker/result_package_relay.go:787-802 | accepted exactly when there is one offset a part and each lies within it |
| ResultTransfer.Transfer | internal/broker/result_package_relay.go:693-785 | whatever the source answers and the root reports, success means exactly the described bytes are published and failure loses nothing final; a fault-free transfer succeeds exactly when the attempt was not given up and the root has the package, or is neither evicting nor receiving it for another attempt, admits this one, and every part can be completed from its reported offset |
| ResultTransfer.NewAttemptTransfers | internal/broker/result_package_relay.go:542-559 | a new attempt, as the broker makes each time, gets through exactly if the root has the package, or has nothing of it and admits the attempt |
| ResultTransfer.OtherAttemptBlocks | internal/store/peer_result_inbox.go:80-83 | a run after which a root is receiving for one attempt and another one cannot transfer |
| ResultTransfer.LostAnswerBlocks | internal/broker/result_package_relay.go:720-733 | the answer to a request to begin is lost; the next transfer, on which nothing fails, does not succeed |
| ResultTransfer.SameAttemptResumes | internal/store/peer_result_inbox.go:79-88 | the same attempt taken up again gets through exactly if it was not given up, is admitted and what it has stored matches |
| ResultTransfer.FinishExactly | internal/resultpackagefiles/transfer.go:336-397 | after a fault-free copy the package can be finished exactly when every part was completable |
| RelayDelivery.ToldInOrder | internal/broker/result_package_relay.go:455-502 | delivery is recorded only after the root held every part byte for byte, acknowledgement asked for only after that, release only after the acknowledgement is recorded, over every run with crashes, late messages and arbitrary requests to the inbox |
| RelayDelivery.PayloadOutlivesDelivery | internal/resultpackagefiles/transfer.go:488-523 | the source's payload is gone only after all of that; a released row means it is gone |
| RelayDelivery.MessagesAgree | internal/store/peer_result_outbox.go:311-362 | no message carried out late ever conflicts with what the source knows, and a release never comes too early |
| RelayDelivery.NeverGoesBack | internal/store/result_package.go:232-480 | nothing recorded on either side is taken back |
| RelayDelivery.MarkedExactly | internal/store/result_package.go:232-327 | a mark succeeds exactly on a row that is there and undelivered or delivered under this ordinal |
| RelayDelivery.RelayGoesByRecord | internal/broker/result_package_relay.go:455-502 | a relay takes up exactly what its record says is left |
| RelayDelivery.RecordingTakes | internal/store/result_package.go:329-405 | an answered acknowledgement is recorded unless the row is gone, and a row goes only once released |
| RelayDelivery.Deliver | internal/broker/result_package_relay.go:504-582 | the copy, its cancellation exactly if it is known to have begun, and the mark; fault-free it delivers exactly when the package can be transferred; a failed copy that is cancelled leaves the root free |
| RelayDelivery.Copy | internal/broker/result_package_relay.go:549-559 | a transfer on the inbox as it stands changes nothing else, is a run of inbox steps of the whole protocol, and keeps the exact condition of success |
| RelayDelivery.TakeNote | internal/resultpackagefiles/transfer.go:454-486 | the acknowledgement is refused exactly if the source does not know its metadata was accepted; otherwise the source then knows of the delivery |
| RelayDelivery.Acknowledge | internal/broker/result_package_relay.go:901-926 | the source is told and its acknowledgement recorded, exactly unless the call fails or the source refuses |
| RelayDelivery.Release | internal/broker/result_package_relay.go:957-981 | the source lets go and that is recorded |
| RelayDelivery.LetGo | internal/store/peer_result_outbox.go:415-502 | intent, payload, entry, in that order |
| RelayDelivery.RelayResultPackage | internal/broker/result_package_relay.go:455-502 | from every state of the invariant one relay whose calls do not fail brings the package to its end exactly if it was delivered or can be transferred and the source knows its metadata was accepted |
| RelayLocks.RootLocks.constructor | internal/broker/result_package_relay_locks.go:18-23 | no locks |
| RelayLocks.RootLocks.Reference | internal/broker/result_package_relay_locks.go:29-40 | the key's entry is found or made and counts one more reference |
| RelayLocks.RootLocks.DropReference | internal/broker/result_package_relay_locks.go:60-70 | one reference fewer, and the entry off the map with the last |
| RelayLocks.MutualExclusion | internal/broker/result_package_relay_locks.go:25-70 | in every run two threads never hold one key, however entries are deleted and made again and waiters give up |
| RelayLocks.EntriesExact | internal/broker/result_package_relay_locks.go:25-70 | the map holds exactly the keys referred to, all through one entry; a token is never put into a full channel nor lost |
| RelayLocks.ArrivalWaits | internal/broker/result_package_relay_locks.go:29-40 | whoever asks for a key waits at the entry everybody else waits at |
| RelayLocks.GivingUpTakes | internal/broker/result_package_relay_locks.go:42-45 | whoever waits may give up and is no longer counted |
| RelayLocks.FreeIsTaken | internal/broker/result_package_relay_locks.go:46-52 | a free key goes to whoever takes it |
| RelayLocks.TokenGivenBack | internal/broker/result_package_relay_locks.go:47-57 | whoever has the token can give it back, and it is then free for the others |
| RelayLocks.NobodyShutOut | internal/broker/result_package_relay_locks.go:42-58 | from every reachable state a waiting thread can have its key once whoever has the token gives it back |
| Retention.FloorStillHighwater | internal/broker/result_package_relay.go:508-582 | the floor a delivery read is still the largest known ordinal when it marks |
| Retention.OrdinalsUnique | internal/store/peer_result_inbox.go:954-973 | no two packages are ever marked under one ordinal, even if the root loses its state, requests arrive late and the broker restarts |
| Retention.StillHighwater | internal/store/result_package_gc.go:35-129 | forgetting an old row leaves the largest ordinal where it was |
| Retention.NewOrdinal | internal/store/peer_result_inbox.go:954-973 | a new slot lies above every slot the root remembers and, if its attempt hears of it, above every ordinal ever marked, and no higher than that takes |
| Retention.AskingTakes | internal/broker/result_package_relay.go:508-560 | whoever holds the lock asks with the largest ordinal as its floor |
| Retention.AnswerTakes | internal/store/peer_result_inbox.go:72-122 | the answer is the slot made, the one there if it is available, or none |
| Retention.MarkingTakes | internal/broker/result_package_relay.go:572-581 | an answered package is finished and marked under its ordinal unless it was before |
| Retention.DeliveryMarks | internal/broker/result_package_relay.go:508-582 | an undisturbed delivery marks its package under an ordinal above every one before |
| Retention.CompactTakes | internal/store/result_package_gc.go:35-129 | a row can be forgotten exactly while a larger one is kept |
| Retention.WorldTakes | internal/broker/result_package_relay_locks.go:54-57 | a delivery ends with its lock, a restart with every one, and lost state is lost |
| RelayCoordinator.Coordinator.constructor | internal/broker/result_package_relay.go:104-122 | nothing active |
| RelayCoordinator.Coordinator.SchedulePeerScan | internal/broker/result_package_relay.go:128-163 | a scan is started exactly when none is listed, else the listed one is flagged; a reconnection fills the wake channel of every flight and of the listed scan |
| RelayCoordinator.Coordinator.WakeFlights | internal/broker/result_package_relay.go:140-147 | the wake channel of every active flight is full afterwards |
| RelayCoordinator.Coordinator.ScheduleFlight | internal/broker/result_package_relay.go:306-336 | the package's flight is returned, started if there is room and none yet |
| RelayCoordinator.Coordinator.Schedule | internal/broker/result_package_relay.go:293-304 | the package is taken up at once or its source's scan will find it, unless stopped; a flight already there is woken |
| RelayCoordinator.Coordinator.EndFlight | internal/broker/result_package_relay.go:340-346 | the flight leaves and everybody waiting for room is told |
| RelayCoordinator.Coordinator.EndPass | internal/broker/result_package_relay.go:215-228 | another pass if one was asked for, else the scan leaves |
| RelayCoordinator.Coordinator.CleanUpScan | internal/broker/result_package_relay.go:166-172 | only the scan's own entry is removed |
| RelayCoordinator.Coordinator.Stop | internal/broker/result_package_relay.go:393-402 | stopped, and everybody waiting for room is told |
| RelayCoordinator.FlightsBounded | internal/broker/result_package_relay.go:306-375 | in every run at most the limit of flights, one a package, each ending only itself and only after its first attempt was signalled |
| RelayCoordinator.NoMissedCapacity | internal/broker/result_package_relay.go:236-263 | a scan that waits for an open channel waits because there is no room |
| RelayCoordinator.SuccessorsStay | internal/broker/result_package_relay.go:164-230 | a scan that has not left is the listed one of its device, and no step of a scan takes another one off the table |
| RelayCoordinator.RequestHonoured | internal/broker/result_package_relay.go:152-228 | a request made during a scan is followed by a successful read of the first page before that scan leaves, unless it gave up |
| RelayCoordinator.PageServed | internal/broker/result_package_relay.go:204-215 | in every run a scan goes on from a page only after every package on it has had a flight that made an attempt |
| RelayCoordinator.TriedExactly | internal/broker/result_package_relay.go:316-333 | a package gets a flight exactly if it has one or there is room |
| RelayCoordinator.FlightStarts | internal/broker/result_package_relay.go:306-336 | a new flight is started exactly if the package has none and there is room |
| RelayCoordinator.RequestTakes | internal/broker/result_package_relay.go:148-160 | after a request a scan is listed: a new one, or the old one flagged |
| RelayCoordinator.PlacingGoesOn | internal/broker/result_package_relay.go:204-212 | a page is placed package by package, and a scan is held up exactly when there is no room |
| RelayCoordinator.BlockedGoesOn | internal/broker/result_package_relay.go:240-262 | a scan held up goes on once there is room and gives up once stopped |
| RelayCoordinator.EndingWakes | internal/broker/result_package_relay.go:339-345 | a flight that ends, and a stop, wake every scan that waits |
| RelayCoordinator.PassesGoOn | internal/broker/result_package_relay.go:216-230 | a finished page is followed by the next, a new pass or the end |
| RelayCoordinator.FailedMakesWay | internal/broker/result_package_relay.go:165-171 | a scan that gave up makes way for the next |
| RelayCoordinator.NudgePassedOn | internal/broker/result_package_relay.go:275-281 | a nudge reaches the flights a scan waits for |
| RelayCoordinator.StopTakes | internal/broker/result_package_relay.go:397-401 | stopping stops |
| RelayCoordinator.StoppedForGood | internal/broker/result_package_relay.go:135-139 | over every run, once stopped no flight and no scan starts |
| PendingCalls.Table.constructor | internal/connector/session.go:109-117 | an open, empty table |
| PendingCalls.Table.AddPending | internal/broker/server.go:1340-1356 | added exactly when open and below the limit |
| PendingCalls.Table.RemovePending | internal/broker/server.go:1358-1366 | true exactly for the one that takes the call out |
| PendingCalls.Table.DrainAll | internal/appserver/client.go:889-900 | every pending call comes out once |
| PendingCalls.ClaimedOnce | internal/broker/server.go:1266-1413 | in every run and for each way of shutting down a call is claimed once, and its one-slot channel never has to take a second answer |
| PendingCalls.NobodyStranded | internal/connector/session.go:195-241 | whoever has to wait for an answer has one coming |
| PendingCalls.DrainedForGood | internal/appserver/client.go:851-900 | after the drain no call gets in |
| PendingCalls.AddedExactly | internal/broker/server.go:1340-1356 | a new call gets in exactly while the table is open and below its limit |
| PendingCalls.PendingCallEnds | internal/broker/server.go:1266-1297 | a response reaches its caller, and a caller that gives a pending call up is free at once |
| PendingCalls.ClaimedCallEnds | internal/appserver/client.go:350-374 | the caller of a claimed call waits for its answer and gets it |
| PendingCalls.ShutdownClaimsAll | internal/appserver/client.go:851-900 | whatever its style, the shutdown closes the table and claims every pending call for an error answer |
| PendingCalls.ShutdownOnce | internal/connector/session.go:504-523 | a shutdown takes its steps in order and once |
| AbandonedCalls.Client.constructor | internal/appserver/client.go:160-226 | nothing pending, nothing abandoned |
| AbandonedCalls.Client.RemovePending | internal/appserver/client.go:640-658 | a call given up is remembered at the end of the window, which drops its oldest |
| AbandonedCalls.Client.Terminate | internal/appserver/client.go:874-887 | done, and nothing pending any more |
| AbandonedCalls.Client.FailPending | internal/appserver/client.go:889-900 | nothing is pending any more; what was given up stays remembered |
| AbandonedCalls.Client.Complete | internal/appserver/client.go:592-620 | an answer is delivered, dropped because the call was given up or the client is done, or unknown |
| AbandonedCalls.Disjoint | internal/appserver/client.go:592-658 | in every run pending and abandoned are disjoint, abandoned lies within the window and the window within its bound |
| AbandonedCalls.UnknownExactly | internal/appserver/client.go:592-658 | the first answer to a written call is unknown exactly when the client is not done, the call was given up and at least the limit of others after it |
| AbandonedCalls.DeliveredExactly | internal/appserver/client.go:592-604 | until the client is done the first answer to a written call reaches its caller exactly unless it gave up |
| AbandonedCalls.PendingUntilOver | internal/appserver/client.go:622-658 | a call is pending from its issue until it is given up, taken back, answered or drained |
| Wakeup.Notifier.constructor | internal/broker/mailbox_notify.go:28-30 | no watches |
| Wakeup.Notifier.Subscribe | internal/broker/mailbox_notify.go:32-42 | the key's watch is found or made and counts one more waiter |
| Wakeup.Notifier.Release | internal/broker/mailbox_notify.go:48-61 | one waiter fewer on a watch that is still on the map, and nothing otherwise |
| Wakeup.Notifier.Detach | internal/broker/mailbox_notify.go:63-71 | the watch is off the map and handed over for closing |
| Wakeup.NoLostWakeup | internal/broker/agent_wait_rpc.go:85-143 | in every run a waiter blocked with an item past its cursor has its watch closed, about to be closed, or a producer yet to announce |
| Wakeup.WokenByWhatIsDue | internal/broker/mailbox_rpc.go:75-116 | what is then due closes its watch and wakes it |
| Wakeup.WatchesExact | internal/broker/tree_notify.go:31-70 | a mapped watch counts exactly its unreleased subscriptions and no release takes it from a subscriber |
| Wakeup.StoreTakes | internal/broker/mailbox_notify.go:63-71 | an item stored is one more and is announced; the watch announced to is closed |
| Wakeup.StopTakes | internal/broker/agent_wait_rpc.go:117-126 | a wait that times out or is cancelled lets go |
| Wakeup.SubscribeAll | internal/broker/agent_wait_rpc.go:86-89 | every stream of the plan is subscribed to |
| Wakeup.ReadAll | internal/broker/agent_wait_rpc.go:96-111 | the wait goes on to return exactly if some stream has an item past its cursor, and blocks otherwise |
| Wakeup.ReleaseAll | internal/broker/agent_wait_rpc.go:90-95 | every subscription is let go |
| Wakeup.Look | internal/broker/agent_wait_rpc.go:85-117 | one turn of the loop |
| Wakeup.WaitOnce | internal/broker/agent_wait_rpc.go:85-144 | a wait returns, with everything let go, exactly if there is an item, and else stands blocked and subscribed to all its streams |
| Wakeup.WakeUp | internal/broker/agent_wait_rpc.go:127-143 | a blocked wait whose watch is closed lets everything go, looks again and returns exactly if there is an item |
| AgentWait.ListAfter | internal/store/agent_lifecycle.go:178-259 | the first rows past the cursor, or an error exactly when the cursor is ahead of the stream |
| AgentWait.ReadStream | internal/broker/agent_wait_rpc.go:146-241 | one more row is read than returned, so that the flag is true exactly when a stored row is left |
| AgentWait.ReadAgentWait | internal/broker/agent_wait_rpc.go:146-241 | all streams, each with its page, flag and next cursor; fails exactly when some cursor is ahead |
| AgentWait.TakeIsKeep | internal/broker/agent_wait_rpc.go:224-239 | a page is exactly what lies between the cursor given and the cursor returned |
| AgentWait.ReturnedExactly | internal/broker/agent_wait_rpc.go:146-241 | over every run of appends, removals and waits with any limits, the pages together are exactly the rows up to the cursor not removed unread, in order and once each |
| AgentWait.ReturnedOrToCome | internal/broker/agent_wait_rpc.go:146-241 | a row has been returned exactly when the cursor passed it and it was not removed unread, and every stored row has been returned or is still to come |
| AgentWait.NothingMissedExactly | internal/broker/agent_wait_rpc.go:146-241 | nothing up to the cursor was missed exactly when nothing up to it was removed unread |
| AgentWait.MissedWhenRemoved | internal/store/agent_lifecycle.go:394-412 | a row removed before it is read is never returned: a concrete case |
| AgentWait.AppendTakes | internal/store/mailbox.go:132-184 | an item appended is the last one stored, under a sequence above every other |
| AgentWait.RemoveTakes | internal/store/agent_lifecycle.go:394-412 | a removal takes its row and no other |
| AgentWait.WaitProgress | internal/broker/agent_wait_rpc.go:146-241 | a wait returns something and moves its cursor while anything stored lies past it |
| AgentWait.Mailbox.Deliver | internal/store/mailbox.go:122-184 | the message is stored behind all others under the next sequence |
| AgentWait.Mailbox.ReadMailbox | internal/store/mailbox.go:318-432 | exactly what the cursor has passed is deleted and the first rows behind it returned, or an error and no change exactly when the cursor is ahead |
| AgentWait.CompactionIsKeep | internal/store/mailbox.go:376-383 | deleting what the cursor has passed leaves exactly the stored rows behind it |
| AgentWait.MailboxExactlyOnce | internal/store/mailbox.go:318-432 | over every run of deliveries and requests, repeated, late or with their answers lost, the agent has been given every message up to its cursor in order and once, and every later one is still stored |
| AgentWait.GivenIsSent | internal/store/mailbox.go:318-432 | what the agent has been given is a beginning of what was sent |
| AgentWait.StaleAnswerIgnored | internal/store/mailbox.go:344-347 | an answer to a request the agent has moved on from gives it nothing |
| AgentWait.MailboxProgress | internal/store/mailbox.go:385-420 | an answer that arrives brings something new while there is anything not given |
| ProtectedFile.Directory.Replace | internal/config/persist.go:62-148 | its report, the bytes deleted and the bytes left at the path are told from the file, the edits and the faults alone: exactly when it succeeds, and then exactly the expected bytes were displaced and they alone deleted; exactly when it deletes a file that is neither the original nor its own; no file is ever unaccounted for |
| ProtectedFile.Directory.Install | internal/config/persist.go:79-109 | the replacement stands at the path and the displaced file under the private name, or the path is as the editor has it |
| ProtectedFile.Directory.Settle | internal/config/persist.go:110-145 | after the exchange: what is reported, deleted and left, in each of its ends |
| ProtectedFile.Directory.Examine | internal/config/persist.go:112-116 | the displaced file is read within its bound, and the replacement is seen at the path exactly if nobody has touched it |
| ProtectedFile.Directory.Conclude | internal/config/persist.go:133-147 | the displaced file is deleted, and each failure on the way called committed |
| ProtectedFile.EndsInCommon | internal/config/persist.go:62-148 | success, a committed failure and the deletion of a foreign file each exactly under their conditions; a failure not called committed leaves what the editor had there |
| ProtectedFile.Directory.Restore | internal/config/persist.go:114-131 | the displaced file is put back and whatever stood at the path is deleted |
| ProtectedFile.LateEditDeleted | internal/config/persist.go:113-128 | one call in which an edit saved between the identity check and the restoring exchange is deleted |
| CredentialIssue.Registry.CreateCredential | internal/store/credential.go:54-78 | a pending row only where there is none |
| CredentialIssue.Registry.ActivateCredential | internal/store/credential.go:121-145 | only the pending row with this MAC becomes active; succeeds also on a replay |
| CredentialIssue.Registry.PublishPendingCredential | internal/store/credential.go:147-186 | the file is written only while the pending row is this one, and the row becomes active only with the file; every end of the transaction |
| CredentialIssue.Registry.DeletePendingCredential | internal/store/credential.go:188-200 | only the pending row with this MAC is deleted |
| CredentialIssue.Registry.DisableCredential | internal/store/credential.go:202-241 | the row is disabled and not pending |
| CredentialIssue.OneActivation | internal/cli/credential.go:130-219 | over every run of attempts with crashes at most one MAC is activated, and it is that of the token its attempt found or wrote |
| CredentialIssue.RevokedForGood | internal/cli/credential_revoke.go:50-56 | whatever attempts are under way or come later, a revoked credential stays revoked |
| CredentialIssue.RevocationTakes | internal/cli/credential_revoke.go:50-56 | a revocation that was checked disables the credential |
| CredentialIssue.PendingNotRevoked | internal/cli/credential_revoke.go:51-53 | a pending enrollment cannot be revoked |
| CredentialIssue.DyingTakes | internal/cli/credential.go:130-219 | an attempt that dies is over without success |
| CredentialIssue.ActivationReported | internal/store/credential.go:121-145 | an activation is reported a success exactly if the credential is then active under the token found |
| CredentialIssue.DeletionsRecorded | internal/store/credential.go:188-200 | no row goes but by a deletion on record, with the row's time, its maker, its remover and when |
| CredentialIssue.WorldTakes | internal/cli/credential.go:141-184 | time passes and files come and go between any two steps |
| CredentialIssue.EnabledIsSafe | internal/store/credential.go:188-241 | disabling leaves nothing pending, and a row that is not disabled is neither deleted nor published again |
| CredentialIssue.LeaseRespected | internal/cli/credential.go:159-168 | only its own attempt discards a pending enrollment inside its recovery lease |
| CredentialIssue.LeaseRunsFromItsMaker | internal/cli/credential.go:159-191 | over every run that lease runs from the second in which the enrollment's own attempt began |
| CredentialIssue.Look | internal/cli/credential.go:141-184 | the decision is taken from the file and the row as they were read, in that order |
| CredentialIssue.PublishToken | internal/cli/credential.go:197-218 | every outcome of the publication: active, recoverable, occupied or given up |
| CredentialIssue.Withdraw | internal/cli/credential.go:215-216 | a pending row whose token could not be written is given up |
| CredentialIssue.IssueCredential | internal/cli/credential.go:130-219 | run again after whatever came before, the command succeeds exactly when there is something it may take over and its own write goes through, and then the active credential's token is in the output file |

## Left out

- Wrap-around of the 64-bit generation, lease and ordinal counters; worker revisions keep the store's bound.
- The session object's identity is its key in a map; two sessions never share one.
- Containment.Tracker.DiscoverChildren: the recursion into grandchildren carries a fuel argument, and running out of it counts as an error; every call of the source that returns is one with enough fuel, but that it returns is not proved, since the family may fork faster than it is discovered.
- Containment.Tracker.AddProcess: carries the same fuel argument.
- Containment.Tracker.ContainUntil: the two deadlines are numbers of turns, and every list is walked in an arbitrary order where the source sorts it.
- Containment: kqueue events, the control queue, the tracked-process limit's error text and a child that reparents itself before it is discovered, which the source excludes.
- LifecycleRuns: tree-wide activity sequences, authority revisions and observation times of a lifecycle row.
- Lifecycle: the well-formedness of a snapshot's phase, thread and turn identities.
- LifecycleRuns.Store.ApplyPage: whether a worker belongs to the peer is an argument, not looked up.
- ResultInbox.Inbox.BeginPackage: quota, eviction to make room and the bounds of the lease are one argument, and the comparison of metadata is left out, since a package's metadata never changes.
- ResultInbox: kinds of parts, metadata, manifest files, rollout verification and the bound on receipts; lease times, so that an expired entry is reclaimed by a step of its own before the next request to begin; a publication renamed but not yet committed; and the bytes a write leaves in the files of an attempt already given up.
- RelayDelivery: authorization, timestamps and the rank condition of row compaction, which `Retention` keeps.
- Retention: the exhaustion of ordinals at the largest 64-bit value.
- RelayCoordinator: retry delays and validation of requests; a wake-up that arrives during a delay only shortens it.
- PendingCalls: matching a response's tree with its call, the encoding of requests and the cancellation notice sent to the other side.
- PendingCalls: the connector's wait for capacity and its readiness gate.
- AbandonedCalls: a call whose write failed is taken never to be answered.
- Wakeup: authorization, timeouts as clock values and the contents of what is read.
- AgentWait: the four streams are four values of one type; a mailbox's quota and its receipts of delivered messages.
- ProtectedFile: permissions, directory identity checks beyond success or failure, and an editor that changes a file in place instead of replacing it.
- CredentialIssue: generation of random tokens, taken to be fresh; path checks; the device row that a revocation also marks offline, which `BrokerRuns` has as a registry step.
- The workspace transfer relay, which is the chunk loop without resumption.
- Command line, setup, service installation, status rendering, release packing: forwarding and file-system inspection.
