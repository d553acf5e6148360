# Deployment ownership and connector lifecycle

This project models how the deployer keeps one owner per deployment target and per connector in plain files, and how it
carries a connector through an external Host, when any number of processes run at once and each may die at any moment.

## The parts

The store (`Domain`, `Records`, `StateActions`, `StateInvariants`, `StateProofs`) is four families of files: operation
records, target-owner pointers, connector-owner pointers and connector claims.  `Enabled` says when one of six kinds of
single-file write may be made, `After` what it does; `Consistent` and `Ordered` are what every such write keeps.

The calls appear twice.  `StateStore` has them as methods of an object with the four maps, each specified by what it
leaves in the files; `StepMachine` has them as processes that take one lock, read one file or replace one file per step,
with crashes in between.  `StepProofs`, `Interference` and `Runs` show by rely and guarantee that an interleaved process
only ever makes enabled writes; `SoloRuns` shows that a process running alone returns, with the outcome of the method, and
`AloneRuns` puts such calls one after the other in a run.  `Ownership`, `AdoptedTwice`, `RecordHistory`, `Recovery`,
`Replay` and `LegacyOwners` draw the consequences for whole runs.

The connector lifecycle (`Execution`, `ApplyMachine`, `ApplyProofs`, `HostFrames`, `Lag`, `Handover`, `HandoverRace`,
`ReleaseRace`, `ReleasedClaims`) adds the execution record, the lease and the frames to the Host, again with crashes
between any two steps and with any reply the Host may give.  `FrameContents` says what those frames carry, `Provenance`
that nothing is recorded which the Host did not say, `ExpiredPlans` what an expired plan may still do.  `HostModel` and
`Cooperation` add a Host that remembers results by operation id.  `ConnectorApply` is the application in the code's own
imperative form, proved to converge from whatever a crash left, and `ApplyAlone` shows the same of the step-by-step
machine.

`Wire` is the byte format of material and frames, `Manifests`, `Sorting` and `Planning` the manifest and what is planned
from it, and `ClientBinding` the smaller crash protocol that issues a client binding through the EC2 host.

Identifiers are ordered tokens.  A SHA-256 digest of a tuple is the tuple, and the digest of a file is a token that
stands for its content, so a digest comparison is a comparison of what was digested.

## What the code does not do

Five statements that one might expect fail, and the project says exactly where.

- A crash after the claim is released and before the operation completes is never repaired: the projection observes the
  handoff again (src/connector_apply.rs:545-547), which a released claim refuses (src/deployment.rs:1793-1798).
  `ConnectorApply.Application.Apply` succeeds if and only if the claim is not released, and
  `ReleasedClaims.ReleasedNeverProceeds` shows that interleaving does not help as long as the operation is unsettled.
- Observing, releasing and expiring a claim act on whichever operation owns the connector when they run
  (src/deployment.rs:1900-1925), not on the operation whose lease is held.  A second application that takes the lease
  after the first one settled the operation can therefore hit the claim of the successor.  In `HandoverRace` the fresh
  claim of a reissued bootstrap is expired before its execution begins; in `ReleaseRace` the fresh claim of a successor
  is observed and released.  `Handover.ClaimsBehindExactly` says which runs keep claims behind their executions, and
  `Handover.QuietRunFits` that those do in which nobody takes a connector from an operation while a claim task is left to
  a process with its lease.
- A legacy owner pointer can make an operation own its target twice: exactly if a node service may be adopted from it
  whose predecessor no pointer names, beside no more than the 4096 pointers a claim lists
  (`AdoptedTwice.OwnsTwiceExactly`).  The chain theorems hold from every other store, and so from every one that the
  deployer begins itself.
- After a crash between the two writes of a claim, the replay is refused while a rollback of the predecessor is under
  way, since a fenced predecessor is not settled (src/deployment.rs:1121-1127).  `Replay.ReplayRepairsClaim` says exactly
  when it succeeds, and `Replay.RollbackWindow` reaches both sides.
- The execution file is keyed by operation alone (src/deployment.rs:1488 and 1508), so where claims stay behind their
  executions an operation with several connectors never completes through `apply` (`Handover.CompletedIsSole`), while one
  with a single connector does (`ConnectorApply.Application.Apply`).  A misplaced release, as in `ReleaseRace`, can
  complete an operation with several, one of which was never executed.

## Model

| member | source | states |
|---|---|---|
| Records.ChangedIsLegal | src/deployment.rs:823-892 | every request an operation record accepts follows an edge of the phase graph, a relation over the forward paths of the two workloads spelled out phase by phase; it keeps the record valid, never moves the proven phase back, returns to `Planned` only by resuming there, and never takes a connector host into `MigrationApplied` |
| Records.LegalIsChanged | src/deployment.rs:602-625 | the other direction: every edge of the graph between valid records is one accepted request |
| Records.NextIsOnPath | src/deployment.rs:602-625 | the next phase that is computed is the one that follows on the spelled-out path, migration included for nodes and only for them |
| Records.ValidIffMade | src/deployment.rs:2299-2334 | the check of a stored record accepts exactly the records that some sequence of accepted requests makes of a new one |
| Records.LiveOperation.Advance | src/deployment.rs:823-833 | in place: a valid record accepts exactly the phase that follows its own on the forward path, and then has it as phase and proven phase; otherwise it is untouched |
| Records.LiveOperation.Fail | src/deployment.rs:834-850 | in place: succeeds exactly from a phase of the forward path short of its end, remembers it as proven and keeps the evidence |
| Records.LiveOperation.Resume | src/deployment.rs:1187-1196 | in place: only a failed record resumes, at its proven phase and without evidence |
| Records.LiveOperation.ExpireUnclaimed | src/deployment.rs:851-870 | in place: only the sole connector of a record that has proven its artifacts and nothing more expires |
| Records.LiveOperation.RollbackServiceOnly | src/deployment.rs:871-880 | in place: only a completed record is fenced for rollback |
| Records.LiveOperation.FinishRollback | src/deployment.rs:881-892 | in place: only a fenced record converges or is blocked |
| StateStore.DeploymentStateStore.Claim | src/deployment.rs:999-1060 | succeeds exactly when the arguments are canonical, the recorded identity (or, without one, every pointer that names the operation) agrees, and the owner pointer may move; then the record there is kept or a planned one written, and the pointer holds target, host, operation, predecessor and identity; otherwise no file changes; identity and projection conflicts are reported as conflicts |
| StateStore.DeploymentStateStore.ReconcileLegacyOwner | src/deployment.rs:1061-1096 | reading the pointers in any order succeeds exactly when there are at most 4096 and each one that names the operation is the one its claim would publish; the entry limit is the only other failure |
| StateStore.DeploymentStateStore.ValidateOwnerTransition | src/deployment.rs:1097-1139 | succeeds exactly when the pointer is absent with no predecessor named, is this operation's own, or names a settled predecessor (an expired one only for its reissue, with its claim given up) |
| StateStore.DeploymentStateStore.ValidateExpiredUnclaimedSuccessor | src/deployment.rs:1251-1280 | succeeds exactly for a successor that rebinds the one connector whose claim expired |
| StateStore.DeploymentStateStore.LockCurrent | src/deployment.rs:1281-1293 | succeeds exactly for the operation its target's pointer names, and returns its record |
| StateStore.DeploymentStateStore.VerifyConnectorCompletion | src/deployment.rs:1232-1250 | succeeds exactly when every connector bound is owned by the operation and released |
| StateStore.DeploymentStateStore.PersistRecord | src/deployment.rs:1223-1231 | writes exactly this record, if it is valid and, when completed, its connectors are released |
| StateStore.DeploymentStateStore.Advance | src/deployment.rs:1177-1181 | succeeds exactly when the operation owns its target and the phase follows on its forward path, for completion with every connector released; then the record has that phase, proven, and no other file changed; this is the enabled write |
| StateStore.DeploymentStateStore.Fail | src/deployment.rs:1182-1186 | succeeds exactly for the owner short of the end of its path; then the record keeps that phase as proven, with the evidence |
| StateStore.DeploymentStateStore.Resume | src/deployment.rs:1187-1196 | succeeds exactly for the owner that has failed, and takes it back to its proven phase |
| StateStore.DeploymentStateStore.ExpireUnclaimedOperation | src/deployment.rs:1197-1212 | succeeds exactly for the owner whose sole connector's claim has expired, from verified artifacts or when already expired; writes only in the first case |
| StateStore.DeploymentStateStore.RollbackFence | src/deployment.rs:1213-1217 | succeeds exactly for the owner that has completed, and fences it |
| StateStore.DeploymentStateStore.FinishRollback | src/deployment.rs:1218-1222 | succeeds exactly for the owner that is fenced, and records the outcome asked for |
| StateStore.DeploymentStateStore.PrepareConnectorClaim | src/deployment.rs:1677-1684 | succeeds exactly when the predecessor's records and the binding can be read, and then yields the claim identity that matches the parent and its predecessor; any other identity for that connector that does is this one |
| StateStore.DeploymentStateStore.ClaimConnector | src/deployment.rs:1685-1768 | succeeds exactly when the parent owns its target, matches the claim and its predecessor rule, and the connector is free for it; the claim already there is returned unchanged; on failure nothing changes, except that beside a foreign claim file the pointer has been published, and then the pointers are stated |
| StateStore.DeploymentStateStore.PublishConnector | src/deployment.rs:1709-1764 | moves the connector's pointer exactly when it is absent, already this claim's, or left by a released or expired owner of the same target and host |
| StateStore.DeploymentStateStore.ConvergeConnectorClaim | src/deployment.rs:1861-1883 | keeps the claim file that is there if it says the same, creates it otherwise |
| StateStore.DeploymentStateStore.LockCurrentConnector | src/deployment.rs:1900-1925 | succeeds exactly when pointer and claim agree and their operation owns its target |
| StateStore.DeploymentStateStore.ObserveConnectorHandoff | src/deployment.rs:1789-1802 | on a connector whose pointer and claim agree and whose operation owns its target: a prepared claim becomes observed, an observed one is accepted as it is, every other is refused with a contract error and no file changes |
| StateStore.DeploymentStateStore.ReleaseConnectorClaim | src/deployment.rs:1803-1819 | the same for releasing: only an observed claim becomes released, and a prepared or expired one is refused |
| StateStore.DeploymentStateStore.ExpireUnclaimedConnectorClaim | src/deployment.rs:1820-1835 | the same for expiring: only a prepared claim expires, and an observed or released one is refused |
| StateActions.ClaimChangedIsEdge | src/deployment.rs:1789-1835 | the requests move a claim exactly along the edges prepared to observed, observed to released, prepared to expired |
| Calls.ClaimIsWrites | src/deployment.rs:1049-1059 | a successful claim is one or two single-file writes, the record first, each enabled at the moment it is made |
| Calls.ConnectorIsWrites | src/deployment.rs:1709-1767 | a successful connector claim is at most two writes, the pointer first, each enabled when it is made |
| StepProofs.WritesUnderLocks | src/deployment.rs:1027-1059 | every write is made while holding the locks that guard what its checks read |
| StepProofs.WriteGuards | src/deployment.rs:1152-1250 | a write leaves alone everything guarded by a lock it is not made under |
| Interference.KnowledgeStable | src/deployment.rs:1281-1303 | what a process has checked under its locks stays true whatever other processes write, although several reads happen outside the lock |
| Runs.StepRefines | src/deployment.rs:999-1250 | a step of any call, interleaved with any others, leaves the files alone or makes one write that is enabled at that moment |
| Runs.RunOk | src/deployment.rs:999-1250 | in every world of every run of any number of processes, crashing anywhere, the files are consistent, locks exclude each other and every process's checks still hold |
| Runs.SoundRunOk | src/deployment.rs:999-1250 | the same, for well-formed files, exclusive locks and the processes' checks, from any well-formed files: records that exist beside legacy pointers, claims and connector pointers included |
| StateProofs.WriteConsistent | src/deployment.rs:894-945 | every enabled write keeps records valid, pointers matching their records, no two pointers on one operation, chains linked by predecessor, unowned records planned, and claims identical to the one their parent determines |
| StateProofs.WriteOrdered | src/deployment.rs:1097-1139 | every enabled write keeps chains rooted (the first owner's predecessor is not recorded on its target, nor, for a node service, can come to be) and free of repetitions, owners settled before they are succeeded, connector owners in target order, and completed operations' claims released |
| SoloRuns.SoloReturns | src/deployment.rs:999-1250 | every call begun alone on any files returns |
| SoloRuns.SoloClaim | src/deployment.rs:999-1060 | the step-by-step claim, run alone with the directory listed in any order, has exactly the outcome of the method `Claim` |
| SoloRuns.SoloChange | src/deployment.rs:1177-1222 | the same for the six calls that change a record |
| SoloRuns.SoloConnectorClaim | src/deployment.rs:1685-1768 | the same for the connector claim, a foreign claim file included |
| SoloRuns.SoloHandoff | src/deployment.rs:1789-1835 | the same for observing, releasing and expiring a claim |
| Ownership.OwnersFormChain | src/deployment.rs:999-1139 | over every interleaving and crash, from every store in which no node service can be adopted whose predecessor no pointer names: the owners a target's pointer has named form a chain, each naming the one before as predecessor, none owning twice, every one but the last completed, rolled back or expired; the first names no predecessor unless it was adopted from a pointer that does, and that one never owns the target |
| AdoptedTwice.OwnsTwiceExactly | src/deployment.rs:1061-1139 | that condition is exact: from given legacy pointers some run makes an operation own its target twice if and only if there are at most 4096 and a node service can be adopted from one whose predecessor none of them names |
| AdoptedTwice.DanglingOwnsTwice | src/deployment.rs:999-1139 | such a run of the step-by-step machine, built from an arbitrary store of that kind |
| Ownership.OwnsOneTarget | src/deployment.rs:1024-1096 | from any well-formed files, with or without records beside legacy pointers, in which each pointer without a record is the only one that names its operation, no run makes one operation own two targets |
| Ownership.ConnectorFollowsTarget | src/deployment.rs:1704-1755 | the owners of a connector, in order, are operations of one target and host that bind it, in the order they owned that target |
| Ownership.CompletionMeansReleased | src/deployment.rs:1223-1250 | in every world of every run a completed or rolled-back connector host has released every connector it binds, and an expired one has given up its only claim |
| RecordHistory.NoLostUpdate | src/deployment.rs:1177-1231 | each step of each run, from any well-formed files, leaves a record file, creates it in its initial state, or moves it along one edge of the phase graph from what it holds, and only while its operation owns the target |
| RecordHistory.RecordFollowsPath | src/deployment.rs:602-625 | between any two moments of a run from any well-formed files a record's history is a path of the phase graph; its identity never changes, its proven phase never moves back, and it is valid |
| RecordHistory.PhasesInOrder | src/deployment.rs:602-625 | no run skips a phase: when the proven phase stands on the forward path of its workload, the operation was in every earlier phase of that path before |
| RecordHistory.MigrationComesFirst | src/deployment.rs:610-613 | so a node whose services have converged, in whatever phase it is now, had its migration applied in an earlier world |
| RecordHistory.NoLostClaim | src/deployment.rs:1789-1883 | each step of each run, from any well-formed files, leaves a claim file, creates it prepared, or moves it along one edge, and only while its operation owns connector and target |
| RecordHistory.ClaimsInOrder | src/deployment.rs:1789-1835 | in every run a released claim was observed in an earlier world, and an observed or expired one was prepared |
| RecordHistory.TakenOverInOrder | src/deployment.rs:1097-1139 | each step of each run, from any well-formed files, moves a target's pointer only to the named successor of a completed, rolled-back or expired owner, the last only to the operation that binds its one connector again, and a connector's pointer only to the owner of the same target and host, from a released and finished or an expired owner, the last only to its named successor |
| RecordHistory.SupersededNeverChanges | src/deployment.rs:1281-1293 | once ownership has moved on, the record and all connector claims of the old owner never change again |
| RecordHistory.UnownedNeverOwns | src/deployment.rs:1097-1139 | a recorded operation that lost the place after its predecessor stays planned and never becomes owner |
| Recovery.NoConnectorStranded | src/deployment.rs:1685-1787 | some claim by the owner of a target for a connector it binds (fresh, carried over, reintroduced after a gap, left by an expired bootstrap) is allowed if and only if the connector's latest owner, and the operation's predecessor, were on the same target and host; the latter holds of every owner but one adopted from a legacy pointer |
| Replay.ClaimReplayIsExact | src/deployment.rs:1049-1059 | interrupted before, between or after its two writes, a claim made again ends with the same files and the same record as an uninterrupted one |
| Replay.ConnectorReplayIsExact | src/deployment.rs:1716-1766 | the same for the connector claim, which writes the pointer first |
| Replay.ReplayRepairsClaim | src/deployment.rs:1049-1059 | with any other processes in between: once the record is written, the claim succeeds again if and only if the target's owner is this operation, or its owner pointer is what it was and the predecessor it names is settled at that moment |
| Replay.RollbackRefusesReplay | src/deployment.rs:1121-1127 | so it is refused while a rollback of the predecessor is fenced, and for good once that rollback was blocked, unless the pointer was already published |
| Replay.RollbackWindow | src/deployment.rs:1213-1222 | both sides of that window are reached: two runs, one to the fence, where the replay is refused, and one on to convergence, where it is allowed again |
| Replay.ReplayRepairsConnector | src/deployment.rs:1861-1883 | while the operation owns its target, the connector claim succeeds again if and only if no operation of another target took a free connector; once the pointer was published nothing can take it away |
| LegacyOwners.DuplicatesNeverClaimed | src/deployment.rs:1061-1096 | if two pointers name an operation without a record, then from any store and over every run it is never recorded and neither pointer moves |
| LegacyOwners.CrowdedNeverMoves | src/deployment.rs:1061-1096 | beside more than 4096 legacy pointers nothing is ever recorded and no pointer moves, over every run |
| Execution.FinalizedChain | src/connector_apply.rs:1214-1308 | a finalized execution record holds revisions n, n+1, n+2, n+2, n+3 exactly, all at most 2^53-1, and its finalize result names the prepare receipt |
| Execution.ValidationBuildsChain | src/connector_apply.rs:1142-1277 | prepare, start and finalize replies that pass validation one after the other extend a claimed record to a finalized one that satisfies every check |
| ApplyProofs.AnsweredOk | src/connector_apply.rs:403-494 | whatever the Host replies to a frame, the process stops or goes on with tasks that are due in the record as it then is |
| ApplyProofs.StepOk | src/connector_apply.rs:307-500 | every step replaces an execution record only by a later state of the same record, or creates one with identifiers of its own, under the lease, and sends only frames that repeat the durable record |
| ApplyProofs.ApplyRunOk | src/connector_apply.rs:307-500 | in every world of every run of any number of applications, with crashes anywhere and any replies, records, frames and leases are as they should be |
| HostFrames.ExecutionNeverRewritten | src/connector_apply.rs:371-388 | over a run an execution record keeps its identity and everything once recorded in it |
| HostFrames.FinalizedRevisions | src/connector_apply.rs:1214-1308 | in every world of every run each finalized execution holds the exact revision chain and the matching receipt |
| HostFrames.FramesAgree | src/connector_apply.rs:913-1068 | over all crashes and restarts all Prepare, Start and Finalize frames of one execution are the same request; two frames share an identifier if and only if they are of the same execution and kind; none precedes the durable record |
| HostFrames.OnlyNoEffectExpires | src/connector_apply.rs:969-1023 | a process comes to record an expiry only with the no-effect reply in its hands, every field of which is spelled out: about this connector, at the initial revision, without receipts |
| HostFrames.ExpiryHadNoEffect | src/connector_apply.rs:403-429 | an expired execution has a no-effect Prepare reply on record and no Start or Finalize frame was ever sent for it |
| FrameContents.PrepareCarries | src/connector_apply.rs:815-859 | in every run the material behind a Prepare frame is the configuration the execution was created with and the enrollment, control and issuer certificates, plan and handoff of its plan, in this order, and each header field is the plan's or the record's own, spelled out |
| FrameContents.StartCarries | src/connector_apply.rs:614-628 | a Start frame goes to the plan's Host and connector, under the identifier kept for it, at the revision after the initial one |
| FrameContents.FinalizeCarries | src/connector_apply.rs:945-968 | a Finalize frame carries plan and handoff behind four empty fields, at the running revision and with the recorded prepare receipt |
| FrameContents.QueriesAddressed | src/connector_apply.rs:606-640 | snapshots and observations go to the Host of the operation's binding, observations about its connector |
| FrameContents.ExecutionIsBound | src/connector_apply.rs:1310-1357 | every execution of every run is of a connector that its operation binds, with adapter, handoff, host, artifact, target and manifest of that binding, and of the protected files its plan names |
| FrameContents.CreatedFromInputs | src/connector_apply.rs:861-911 | an execution record appears only in the step of a process that holds the lease and was given exactly its operation, target, manifest, plan and files, with the artifact that the operation binds |
| FrameContents.MaterialIsUnchanged | src/connector_apply.rs:1599-1615 | a process goes on to send material only when the protected files it read again are the ones the execution was created with, and the plan is the same |
| Provenance.RecordedWasSaid | src/connector_apply.rs:1130-1278 | over every run, with crashes and lost replies: the initial revision is well formed and was told by the Host of the plan, and each recorded result is the Host's own answer to a frame of that execution, applied, about its connector, adapter and release; running was observed and recorded as running, and the finalize answer names the prepare receipt |
| ExpiredPlans.ExpiredPlanPreparesNothing | src/connector_apply.rs:969-1023 | no process whose plan had expired ever records a prepare result, and it records an expiry only after the Host answered the exact material with the no-effect reply |
| Lag.OperationNeverAhead | src/connector_apply.rs:540-562 | in every world of every run: operation at least `MaterialPrepared`, `ServicesConverged`, `ReadinessVerified`, `Completed` implies execution at least prepared, started, running, finalized; bundle-bound executions never pass running nor their operations `ServicesConverged` |
| Lag.OperationExpiryHadNoEffect | src/connector_apply.rs:389-429 | an operation is `ExpiredUnclaimed` only with its sole connector's claim expired, the no-effect reply on record, and no Start or Finalize frame |
| Handover.ClaimsBehindExactly | src/connector_apply.rs:396-494 | no claim is ahead of its execution anywhere in a run if and only if every claim write in it fits: it finds the connector owned by the operation whose lease the process holds, or by one whose execution is already that far |
| Handover.ClaimNeverAhead | src/connector_apply.rs:396-494 | in every run whose claim writes fit: claim observed, released, expired implies execution at least prepared, finalized, expired, of the same connector |
| Handover.ConflictGuardsNeverFire | src/connector_apply.rs:349-401 | in every such run the guards that compare the claim found with the execution read never fire |
| Handover.ClaimWriteExact | src/deployment.rs:1900-1925 | the same for a single write, from any files in which no claim is ahead |
| Handover.QuietRunFits | src/connector_apply.rs:320-348 | every claim write fits when no connector is taken from an operation while a process that holds its lease has a claim task left; hand-overs after that are harmless |
| Handover.CompletedIsSole | src/deployment.rs:1232-1250 | in every run whose claim writes fit, a connector host that has completed binds exactly one connector |
| HandoverRace.ExpiresTheWrongClaim | src/connector_apply.rs:389-395 | a run of the machine in which a replay for an expired operation expires the fresh claim of its successor, whose execution never began |
| ReleaseRace.CompletesUnexecuted | src/deployment.rs:1789-1819 | a run of the machine in which a completed operation, applied again, observes and releases the fresh claim of its successor and returns without error, and the successor, which binds two connectors, completes although only the other one was executed |
| ReleasedClaims.ReleasedNeverProceeds | src/connector_apply.rs:540-562 | in every run, while the operation is unsettled and its execution finalized, a process that found its claim released writes nothing more, sends nothing, and returns only an error |
| ReleasedClaims.UnsettledKeepsConnector | src/deployment.rs:1716-1755 | an operation that has claimed a connector owns it until it settles |
| HostModel.PrepareExchange | src/connector_apply.rs:913-968 | against a cooperating Host a Prepare frame is answered by a request for material or by a result that validates and leaves Host and record in step |
| HostModel.StartExchange | src/connector_apply.rs:1142-1171 | the same for Start: the reply validates, and Host and record stay in step |
| HostModel.ObserveExchange | src/connector_apply.rs:1173-1213 | the same for an observation, which reports running once the connector has warmed up |
| HostModel.FinalizeExchange | src/connector_apply.rs:913-968 | the same for Finalize |
| Cooperation.CoopRunOk | src/connector_apply.rs:403-494 | in every world of every run of applications of one operation against a cooperating Host, with crashes and lost replies anywhere and claim writes that fit, Host and execution record are in step |
| Cooperation.EffectsAtMostOnce | src/connector_apply.rs:436-493 | against a Host that remembers what it did by identifier, over runs of any number of operations, crashes and repeated frames: at most one step of a run applies an execution's Prepare, Start or Finalize to the Host |
| ConnectorApply.CrashLeavesInterrupted | src/connector_apply.rs:307-500 | so a crash after any prefix of an application leaves exactly what `Apply` resumes from |
| ConnectorApply.Application.AdvanceTo | src/connector_apply.rs:1368-1396 | a phase already reached changes nothing; a phase outside the forward path fails and changes nothing; a current forward record reaches the target, one enabled advance at a time |
| ConnectorApply.Application.CatchUp | src/connector_apply.rs:540-562 | claim and operation, however far behind the execution, catch up with it exactly, with a bundle no further than it allows; a released claim refuses and nothing changes |
| ConnectorApply.Application.Load | src/connector_apply.rs:349-388 | yields the durable record if there is one, and otherwise creates one from the Host's revision under fresh identifiers and writes it first |
| ConnectorApply.Application.InvokePrepare | src/connector_apply.rs:913-968 | sends the header kept in the record, and when the Host requires it the same header with configuration, the plan's three certificates, plan and handoff behind it, and nothing else; yields a validated prepare result with Host and record in step |
| ConnectorApply.Application.InvokeFinalize | src/connector_apply.rs:913-968 | the same for finalizing, where only plan and handoff are sent |
| ConnectorApply.Application.Poll | src/connector_apply.rs:1173-1213 | reports running, at the revision of the start, if and only if the connector runs within the number of polls there is time for, and the timeout otherwise |
| ConnectorApply.Application.Seal | src/connector_apply.rs:459-481 | the finalize header is durable before the request is first sent, and an existing one is kept |
| ConnectorApply.Application.Apply | src/connector_apply.rs:307-500 | from whatever was interrupted, with a connector that runs before the deadline, an uninterrupted application of a single-connector, bundle-free, unexpired operation succeeds if and only if its claim is not released; then the execution is finalized, the claim released, the operation completed and nothing else changed; otherwise nothing at all changed |
| ApplyAlone.Converges | src/connector_apply.rs:307-500 | the same for the machine: its run goes on to that outcome, one step at a time, from any world in which the lease is free, with every frame answered by the cooperating Host |
| ConnectorApply.Application.ApplyExpired | src/connector_apply.rs:389-395 | once the execution has expired, with a bundle or without, a replay finishes whichever of the expiry writes a crash left undone; once the operation itself is expired it fails and changes nothing |
| ConnectorApply.CrashLeavesExpiry | src/connector_apply.rs:389-429 | a crash anywhere in a run whose claim writes fit, whatever the Host replied, leaves an expired execution as `ApplyExpired` takes it up |
| Wire.EncodeMaterial | src/connector_apply.rs:1656-1679 | accepts exactly six fields of at most 65536 bytes with plan and handoff present and at most 393216 bytes in all; the output is the letters DTXBMT01, the six lengths in four bytes each, most significant first, and the fields; decoding it yields them |
| Wire.EncodeFrame | src/connector_apply.rs:1635-1655 | accepts exactly headers of 1 to 16384 bytes and payloads up to 393216; the output is magic, length, header, length, payload, byte by byte; decoding yields magic, header and payload |
| Wire.MaterialRoundTrip | src/connector_apply.rs:1656-1679 | six length-prefixed fields are read back exactly |
| Wire.MaterialUnique | src/connector_apply.rs:1656-1679 | whatever decodes to six bounded fields is their one encoding |
| Wire.FrameUnique | src/connector_apply.rs:1635-1655 | two byte strings that decode to the same frame are equal |
| Wire.AcceptedMaterialFits | src/connector_apply.rs:1635-1679 | every accepted material fits a frame's payload |
| Wire.SixFullFieldsRefused | src/connector_apply.rs:1656-1679 | six fields of 65536 bytes pass every single bound and are refused together, 32 bytes over |
| Manifests.Validate | src/deployment.rs:139-240 | the one-pass validation with sets accepts exactly the manifests whose targets are well formed and pairwise consistent; then connectors carry no bundle under schema 1 and an intact one for Codex under schema 2, and targets with the same host id have the same host |
| Manifests.CheckTarget | src/deployment.rs:152-238 | one target is accepted exactly when it is well formed and none of the sets already holds its id, origin, connectors or a different tuple for its host |
| Manifests.CheckConnectors | src/deployment.rs:206-233 | the connectors of a target are accepted exactly when their bundles fit the schema and no instance appears twice or before |
| Planning.BindingIsValid | src/deployment.rs:671-726 | sorting the duplicate-free services or connectors of a validated target gives the strict order a valid record demands |
| Planning.PlannedIsAccepted | src/deployment.rs:771-806 | a validated manifest plans exactly its targets, for operations that do not succeed themselves; what it plans is a valid initial record of that operation |
| Planning.PlannedIsMatched | src/deployment.rs:2437-2449 | a record has the planned identity if and only if it is of this manifest in the manifest's own fields: a node binds the server artifact and digest, origin, host and exactly the services listed; a connector host the connector artifact and digest, and exactly the connectors listed, with adapter and handoff |
| Planning.ValidIffPlanned | src/deployment.rs:2241-2298 | an operation identity is valid if and only if some valid manifest plans it |
| Planning.CreatePlan | src/deployment.rs:461-576 | exactly the manifest's targets are planned, each with its own list of steps, whose layout is stated below |
| Planning.NodePlanLayout | src/deployment.rs:488-524 | position by position, action by action: inspect, claim, verify, stage, migrate; then for each service, node first, agent control, realtime gateway, push broker, the six steps from material to readiness; then the receipt |
| Planning.ConnectorPlanLayout | src/deployment.rs:525-563 | position by position, action by action: inspect, claim, verify, stage; then for each connector in instance order its claim and the six steps from material to readiness; then the receipt |
| Planning.OrderDoesNotMatter | src/deployment.rs:671-726 | neither a target's plan nor its operation's binding depends on the order in which services or connectors are listed |
| ClientBinding.BindingStore.IssueEc2 | src/client_binding.rs:451-582 | whatever fails or dies on the way: a state that is issued or expired has a successful cleanup behind the last issue, a durable state keeps the issuer from running again and only moves its phase on, no output is replaced, a new state is of this identity and of the output that is there, another identity is a conflict, success returns the durable state, issued, and no failure that the process survives leaves an issue behind without a cleanup asked for after it |
| ClientBinding.IssueTwice | src/client_binding.rs:451-711 | after a success the same call, until the binding expires, returns the same record |
| ClientBinding.BindingStore.ResumeExisting | src/client_binding.rs:659-711 | an existing state is finished without the issuer; another identity is refused untouched, and so is an expired or revoked state; an issued one succeeds exactly when it is unexpired and the output is the one recorded |
| ClientBinding.BindingStore.IssueRemote | src/client_binding.rs:969-997 | runs the issuer only while no state is durable; success means it ran exactly once and nothing was cleaned up, failure that it ran at most once and a cleanup was asked for after it |
| ClientBinding.BindingStore.WriteProtectedOutput | src/client_binding.rs:1325-1390 | never replaces an output and touches no other; success means exactly this content is there; another content is a conflict |
| ClientBinding.IssuerNeverRunsAgain | src/client_binding.rs:451-711 | over any number of calls, however each ended: after a state is durable the issuer never runs again, identity, digest and expiry stay, and outputs stay |

## Left out

- File modes, owners, links, descriptors, fsync and the state root's creation: a state file is an atomic map entry. A write that takes effect and is still reported as failed is a crash right after the write.
- JSON, canonical encoding and integrity seals: a file that reading accepts is a value of its datatype; a seal that does not verify is not modelled.
- Syntax checks of UUIDs, origins, endpoints, tokens, digests and versions, the size bound of serialised records, and the platform check: opaque, and taken as passed.
- The lock table: a process holds the locks its position in the call implies, and the kernel drops them when it ends. A lock attempt that fails although the lock is free is a crash at that point.
- Runs.StepRefines: the copy of an existing record that `claim` returns may be older than the file, because it is read outside the target lock; only that the file is never overwritten is proved.
- StateStore.DeploymentStateStore.Advance: which error a refused call returns is stated only where the code's callers tell errors apart; the same holds for the other calls that change a record or a claim.
- ApplyMachine's runs begin with legacy pointers from none of which a node service with an unnamed predecessor can be adopted.
- ApplyMachine's reads that decide nothing durable are taken together with the next step, and a store call by an application is the one or two writes that Runs.StepRefines shows it to make.
- ConnectorApply.Application.Apply: runs a plan that has not expired, with the Host cooperating and the connector running before the deadline; an expired plan and arbitrary replies are covered by ApplyProofs, HostFrames and Lag, which prove safety and not convergence.
- HostModel.PrepareExchange: the cooperating Host is an assumption about the environment; convergence is proved where only one operation is executed on it, so that its revision moves only by that operation's frames.
- Wall-clock time: whether a plan or binding has expired is a free choice, and the observation deadline is a number of polls.
- The contents of an agent bundle: a bundle is its digest and whether its components match it.
- The identifiers of a new execution are assumed distinct from all earlier ones, as version 7 UUIDs are.
- Materials and frames in the lifecycle model are not byte strings: Wire relates their fields to bytes, Execution their digests to requests.
- The generic action list that `DeploymentPlan::create` builds first (src/deployment.rs:464-485) is discarded for both kinds of target and is not modelled.
- ClientBinding.BindingStore.IssueEc2: helper verification, the remote request file and the EC2 attestation appear as one point at which the call may fail; the issuance that does not go through EC2 (src/client_binding.rs:316-398) is not modelled.
- Receipts, release evidence, archives, publishing, the alpha deployment path and the EC2 lifecycle: branch checks or state machines of their own, whose sources for the EC2 lifecycle are not part of this model.
- Subprocesses, SSH, timeouts, the AWS SDK, HTTP and the command line.
