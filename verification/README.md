# Movie, modelled and proved in Dafny

Movie is an actor runtime. This project models eight of its protocols and proves what they keep over whole runs.
`dafny verify dfyconfig.toml` checks everything.

Each protocol is given in three layers: functions that say what one transaction, critical section or message does; a
class whose methods change the fields step by step, with the loops of the program, and are proved to agree with those
functions; and a step relation in which all threads, tasks, nodes and failures interleave, with theorems about every
run of it.

- **Durable state** (`DurableStore`, `StoreHistory`, `ChangeFeed`): the SQLite tables and their transactions against a
  full history of committed changes.
- **Projections** (`Projection*`): competing runners, aborted transactions, lost commit replies,
  crashes and compaction; a batch is read in one transaction and committed in a later one.
- **Durable actors** (`DurableActors`): any number of incarnations on any identities, with writes that may still
  execute after their actor is gone.
- **Cluster membership** (`Cluster*`): one coordinator, any number of participants and a network in which every packet
  ever sent may arrive at any time, any number of times, or never.
- **Streams** (`Stream*`): a source, any number of map stages and a sink, over mailboxes that keep the order of one
  sender only.
- **Mailbox** (`Mailbox*`): sending threads and activations, one step per critical section.
- **Transports** (`TcpWriter*`, `Transport*`, `Lanes`): the batching TCP writer, the round-robin channel writer, the
  inbound reservations, and numbered delivery lanes from end to end.
- **HTTP** (`Http*`): the incremental request parser against the whole stream, and
  against the requests that were written to it.

## What turned out otherwise

The code is modelled as it is. Where a property that its documentation or structure suggests does not hold, there is a
failing run or input and the exact condition.

- Streams: an error that reaches a map stage before its downstream has subscribed is not passed on
  (movie/streams.py:340-345), so the sink, and with it the materialized result, can stay open for ever.
  `StreamStuck.SinkAlwaysClosesIff` says for which graphs; `StreamStuck.RaisingIteratorStrandsSink` is one with the
  default sizes.
- Cluster: an identity that has left is never shown otherwise, except by itself: a participant that waits for its leave
  to finish shows itself as leaving at the revision where the coordinator has it as left
  (`ClusterDepartures.OwnEntryCanShowLeaving`, `ClusterDepartures.OwnEntryIsLeftIff`).
- Mailbox: a sender whose activation is rejected and whose entry is gone, because user messages were stopped meanwhile,
  does nothing. If nobody else was there, the mailbox stays marked as scheduled with nobody to run it, until it is
  closed (`MailboxRuns.StoppingFromOutsideCanStrand`). `MailboxAttendance.ForgottenIff` says that this is the only way.
  A stopping actor stops its user messages from within a batch, where it cannot happen (`MailboxRuns.NeverForgotten`);
  a failed start stops them from the spawning thread (movie/actor/impl/context.py:165-187) and closes the mailbox
  afterwards.
- Projections: a runner with nobody beside it can fall behind its own stored offset. A commit that was applied and
  whose reply was lost leaves the runner at the offset before it; its next commit is an offset conflict, or, after a
  compaction, its own history is gone (`ProjectionLag.LostReplyCanStopSoleRunner`, `ProjectionLag.CurrentIff`).
- Projections: retiring a name that another process still runs, and registering it with another source, lets the old
  runner commit its changes into the new registration (`ProjectionRetirement.ExactlyOnceIff`).
- Streams: with the default prefetch of 16 a running stage can have 33 messages waiting, 34 after a failure
  (`StreamMailboxPeaks.DefaultsExceedMinimum`). The least mailbox capacity a graph accepts is 32, the default is
  100,000 (movie/streams.py:719-721).
- HTTP: a request line of exactly the longest length is refused if its CR and LF arrive in different chunks and
  accepted otherwise (`HttpChunks.StableIff`, `HttpChunkSplits.ReadAlikeIff`).

## Model

| member | source | states |
|---|---|---|
| DurableStore.SqliteStore.Write | movie/persistence/sqlite.py:967-1132 | a write is a ledger replay, a conflict, a stale refusal or one new revision in all three tables at once, as the table function says |
| DurableStore.SqliteStore.SelectMaxOffset | movie/persistence/sqlite.py:1107-1116 | the loop finds the greatest offset in the change table |
| DurableStore.SqliteStore.SelectRows | movie/persistence/sqlite.py:876-917 | the selected rows are those of the source inside the offset window, in order |
| DurableStore.SqliteStore.ReadBatch | movie/persistence/sqlite.py:855-939 | the cursor loop returns the batch, the compaction error or the size error of the read function |
| DurableStore.SqliteStore.RegisterProjection | movie/persistence/sqlite.py:1134-1212 | registration returns the stored offset, refuses a different source or a bad baseline, or stores the first offset |
| DurableStore.SqliteStore.SaveOffset | movie/persistence/sqlite.py:1214-1295 | an offset moves only if the stored one is the expected one |
| DurableStore.SqliteStore.RetireProjection | movie/persistence/sqlite.py:1376-1389 | retiring removes exactly one offset row |
| DurableStore.SqliteStore.SelectLowest | movie/persistence/sqlite.py:1330-1335 | the result is the least stored offset, or nothing if there is none |
| DurableStore.SqliteStore.CompactChanges | movie/persistence/sqlite.py:1328-1364 | compaction deletes the oldest rows up to the least stored offset and moves the mark with them |
| StoreHistory.CompactionMovesFloor | movie/persistence/sqlite.py:1328-1364 | compaction leaves exactly the history above the new mark, and deletes as many rows as the mark moves |
| StoreHistory.ApplyKeepsFeed | movie/persistence/sqlite.py:967-1364 | every transaction keeps the retained rows equal to the contiguous offsets between the two marks |
| StoreHistory.FeedInvIsConsistent | movie/persistence/sqlite.py:501-527 | a database in that shape passes the consistency check on opening |
| StoreHistory.ApplyKeepsFold | movie/persistence/sqlite.py:967-1132 | every transaction keeps state table and ledger equal to the folds of the full history |
| StoreHistory.RunsKeepHistory | movie/persistence/sqlite.py:967-1364 | both invariants hold after any sequence of transactions |
| StoreHistory.StatesAreFoldOfHistory | movie/persistence/sqlite.py:967-1132 | in every reachable database the state table is the fold of all changes ever committed, and reopening succeeds |
| StoreHistory.RevisionsAreExact | movie/persistence/sqlite.py:1011-1117 | the revisions of an identity are exactly 1 to its current one |
| StoreHistory.LedgerHasHistory | movie/persistence/sqlite.py:1067-1080 | every committed change has its ledger row, with its content and revision |
| StoreHistory.LedgerHasNothingElse | movie/persistence/sqlite.py:1067-1080 | every ledger row belongs to a committed change |
| StoreHistory.ChangesAreOrdered | movie/persistence/sqlite.py:1011-1117 | changes of one identity have increasing revisions and offsets and different operations |
| StoreHistory.ReplayIsHarmless | movie/persistence/sqlite.py:1010-1031 | replaying an operation at any later time changes nothing and reports the original revision, or a conflict |
| ChangeFeed.ReadIsExact | movie/persistence/sqlite.py:855-939 | a batch is exactly the matching changes up to its offset; the compaction error comes exactly below the mark |
| ChangeFeed.TakenIsGreedy | movie/persistence/sqlite.py:918-934 | the cursor takes the longest prefix within the row and byte limits |
| ChangeFeed.BatchIsGreedy | movie/persistence/sqlite.py:918-936 | a returned batch is within both limits, and the next row would break one or the window is exhausted |
| ChangeFeed.ReadAdvances | movie/persistence/sqlite.py:875-936 | a read below the high watermark moves the offset forward |
| ChangeFeed.RetryExtends | movie/projection/extension.py:427-480 | a batch read again after more writes starts with the same changes |
| ChangeFeed.ReadAllIsExact | movie/persistence/sqlite.py:847-936 | repeated reads without new writes reach the high watermark and return every matching change once |
| ChangeFeed.ReadSucceeds | movie/persistence/sqlite.py:918-934 | no read fails for size while every stored state is within the state limit |
| ProjectionRunner.Loop.constructor | movie/projection/extension.py:402-426 | a loop starts at the registered offset |
| ProjectionRunner.Loop.Load | movie/projection/extension.py:427-441 | reading a batch is the poll step of a run; the loop ends exactly on compacted history |
| ProjectionRunner.Loop.Save | movie/projection/extension.py:548-563 | saving an offset is the commit step of a run; a lost reply keeps the old offset, a mismatch ends the loop |
| ProjectionRuns.StepKeepsInv | movie/projection/extension.py:402-586 | every step of writers, compaction and runners keeps the projection invariant |
| ProjectionRuns.RunsKeepInv | movie/projection/extension.py:402-586 | so does every run |
| ProjectionRuns.ExactlyOnce | movie/projection/extension.py:507-563 | the batches committed for a projection concatenate to exactly the matching changes from its origin to its stored offset |
| ProjectionRuns.FoldBatchesIsFold | movie/projection/extension.py:522-547 | folding batch by batch is folding over their concatenation |
| ProjectionRuns.ReadModelIsFold | movie/projection/extension.py:507-563 | the read model is the handler folded once, in offset order, over exactly those changes |
| ProjectionRuns.AtLeastOnceDelivered | movie/projection/extension.py:427-480 | an offset is saved only after the handler completed the batch before it |
| ProjectionRuns.CompactionIsSafe | movie/persistence/sqlite.py:1328-1364 | compaction mark <= every stored offset <= high watermark, and the retained rows are exactly those in between |
| ProjectionRuns.CurrentRunnerCanRead | movie/persistence/sqlite.py:873-875 | a runner at the stored offset never finds its history compacted |
| ProjectionRuns.StaleRunnerIsHarmless | movie/projection/extension.py:548-563 | a runner behind the stored offset changes nothing and never catches up |
| ProjectionLag.SoleRunsStand | movie/projection/extension.py:262-316 | over every run with one runner per projection, the runners at the stored offset are those that have lost no commit reply |
| ProjectionLag.CurrentIff | movie/projection/extension.py:438-467 | such a runner is at the stored offset exactly if none of its commits was applied with its reply lost |
| ProjectionLag.OnlyLostReplyStops | movie/projection/extension.py:454-464 | only after a lost reply does a sole runner meet compacted history, and exactly then its next moving commit is an offset conflict |
| ProjectionLag.LostReplyCanStopSoleRunner | movie/projection/extension.py:544-576 | there is such a run, for every source and read limits: one commit with its reply lost, one compaction, and the runner's own history is gone |
| ProjectionRetirement.RunsAreExact | movie/persistence/sqlite.py:1214-1250 | with a name retired at any time under its runners, exactly-once holds in every run if all definitions of the name select the same changes |
| ProjectionRetirement.ExactlyOnceIff | movie/projection/extension.py:326-345 | and only then: otherwise a runner of the old definition can commit into the new registration |
| DurableActors.DurableStateBehavior.constructor | movie/persistence/behavior.py:77-101 | a new incarnation is recovering with one load submitted |
| DurableActors.DurableStateBehavior.BeginRecovery | movie/persistence/behavior.py:160-174 | recovery submits a load |
| DurableActors.DurableStateBehavior.FinishRecovery | movie/persistence/behavior.py:176-202 | a completed load sets state and revision from the row, finishes a duplicate's effect, or fails the actor |
| DurableActors.DurableStateBehavior.ProcessCommand | movie/persistence/behavior.py:204-248 | a command copies the state, encodes the effect and submits the write with the current revision |
| DurableActors.DurableStateBehavior.FinishWrite | movie/persistence/behavior.py:250-266 | a completed write applies the candidate, recovers after a duplicate, or fails the actor |
| DurableActors.DurableStateBehavior.FinishPendingEffect | movie/persistence/behavior.py:268-280 | finishing clears the pending effect and runs or stops the actor |
| DurableActors.RecoveryKeepsActor | movie/persistence/behavior.py:176-202 | a recovered actor's state is the state of its revision |
| DurableActors.WriteKeepsActor | movie/persistence/behavior.py:250-280 | so is the state after a completed write |
| DurableActors.CommandKeepsActor | movie/persistence/behavior.py:204-248 | a submitted write carries the state the handler saw at its expected revision |
| DurableActors.StepKeepsInv | movie/persistence/behavior.py:160-280 | every step of any number of incarnations and of the store keeps the invariant |
| DurableActors.RunsKeepInv | movie/persistence/behavior.py:160-280 | so does every run |
| DurableActors.RunningIsAPoint | movie/persistence/behavior.py:176-202 | whenever an actor is running, its state and revision are a point of the store history |
| DurableActors.NoLostUpdate | movie/persistence/behavior.py:204-266 | the handler that produced revision r+1 was given the state of revision r |
| DurableActors.EveryUpdateSawThePrevious | movie/persistence/behavior.py:204-266 | with only actors writing, this holds of every committed change |
| DurableActors.AcknowledgedIsDurable | movie/persistence/behavior.py:268-284 | callbacks run only for operations in the store's history, with that content |
| DurableActors.RevisionCheckNeverFails | movie/persistence/behavior.py:261-264 | the invalid-revision check of a completed write never fires |
| ClusterCoordinator.ClusterRuntime.constructor | movie/cluster/runtime.py:486-495 | a coordinator starts up, alone and at revision 1 |
| ClusterCoordinator.ClusterRuntime.ReplaceMember | movie/cluster/runtime.py:1301-1307 | a changed member raises the view revision by one, an equal one changes nothing |
| ClusterCoordinator.ClusterRuntime.RevokeMember | movie/cluster/runtime.py:1280-1288 | revoking removes every credential and queues a departed identity for eviction |
| ClusterCoordinator.ClusterRuntime.Evict | movie/cluster/runtime.py:1241-1246 | eviction moves a departed member to the retired set |
| ClusterCoordinator.ClusterRuntime.ReserveCapacity | movie/cluster/runtime.py:1232-1247 | the eviction loop computes the reservation function |
| ClusterCoordinator.ClusterRuntime.HasSameName | movie/cluster/runtime.py:654-659 | the search finds another active incarnation of the name if there is one |
| ClusterCoordinator.ClusterRuntime.HandleJoinRequest | movie/cluster/runtime.py:630-703 | a join request is refused, refreshed, or enters a provisional member with a token and a deadline |
| ClusterCoordinator.ClusterRuntime.EnterMember | movie/cluster/runtime.py:682-703 | entering grants credentials, lists the member and starts its deadline |
| ClusterCoordinator.ClusterRuntime.ExpireProvisionalJoin | movie/cluster/runtime.py:1259-1278 | a provisional member that did not confirm is removed with its credentials |
| ClusterCoordinator.ClusterRuntime.HandleJoinConfirm | movie/cluster/runtime.py:791-822 | a confirmation with the right request and token before the deadline brings the member up |
| ClusterCoordinator.ClusterRuntime.HandleHeartbeat | movie/cluster/runtime.py:862-895 | a newer heartbeat of an up member is evidence and makes it reachable |
| ClusterCoordinator.ClusterRuntime.MarkOverdue | movie/cluster/runtime.py:947-960 | one member without evidence for the timeout becomes unreachable |
| ClusterCoordinator.ClusterRuntime.DetectUnreachable | movie/cluster/runtime.py:944-962 | the loop marks exactly the overdue members, one revision each |
| ClusterCoordinator.ClusterRuntime.HandleLeave | movie/cluster/runtime.py:1055-1070 | the first section of a leave marks an up member as leaving |
| ClusterCoordinator.ClusterRuntime.FinishLeaving | movie/cluster/runtime.py:1073-1079 | the second one marks it as left, takes the snapshot of the acknowledgement and revokes |
| ClusterCoordinator.ClusterRuntime.DownMember | movie/cluster/runtime.py:269-289 | only an up and unreachable member other than the coordinator is downed |
| ClusterCoordinator.ClusterRuntime.MoveSelf | movie/cluster/runtime.py:1118-1128 | each step in which the coordinator leaves raises the revision |
| ClusterBookkeeping.ReserveMakesRoom | movie/cluster/runtime.py:1232-1247 | making room evicts at most one departed member, and if it evicts there is room |
| ClusterBookkeeping.JoinKeeps | movie/cluster/runtime.py:630-703 | a join request keeps the bookkeeping, and anything wire-visible it changes comes with a higher revision and moves no member back |
| ClusterBookkeeping.ExpireKeeps | movie/cluster/runtime.py:1259-1278 | expiry keeps the bookkeeping, and anything wire-visible it changes comes with a higher revision and moves no member back |
| ClusterBookkeeping.ConfirmKeeps | movie/cluster/runtime.py:791-822 | a confirmation keeps the bookkeeping, and anything wire-visible it changes comes with a higher revision and moves no member back |
| ClusterBookkeeping.BeatKeeps | movie/cluster/runtime.py:862-895 | a heartbeat keeps the bookkeeping, and anything wire-visible it changes comes with a higher revision and moves no member back |
| ClusterBookkeeping.DetectKeeps | movie/cluster/runtime.py:944-962 | detection keeps the bookkeeping, and anything wire-visible it changes comes with a higher revision and moves no member back |
| ClusterBookkeeping.BeginLeaveKeeps | movie/cluster/runtime.py:1055-1070 | the first section of a leave keeps the bookkeeping, and anything wire-visible it changes comes with a higher revision and moves no member back |
| ClusterBookkeeping.EndLeaveKeeps | movie/cluster/runtime.py:1073-1079 | the second section keeps the bookkeeping, and anything wire-visible it changes comes with a higher revision and moves no member back |
| ClusterBookkeeping.DownKeeps | movie/cluster/runtime.py:269-289 | downing keeps the bookkeeping, and anything wire-visible it changes comes with a higher revision and moves no member back |
| ClusterBookkeeping.SelfMovesKeeps | movie/cluster/runtime.py:1118-1128 | the coordinator's own leave keeps the bookkeeping, and anything wire-visible it changes comes with a higher revision and moves no member back |
| ClusterBookkeeping.LaterTransitive | movie/cluster/runtime.py:1232-1278 | points of the coordinator that follow each other stay in that relation over any number of steps |
| ClusterParticipant.ClusterView.constructor | movie/cluster/runtime.py:74-143 | a participant starts knowing only itself, as joining |
| ClusterParticipant.ClusterView.ReplaceMember | movie/cluster/runtime.py:1301-1307 | a changed member raises the view revision by one |
| ClusterParticipant.ClusterView.HasWrongEndpoint | movie/cluster/runtime.py:1167-1185 | the loop finds an entry for itself or the seed name with another endpoint |
| ClusterParticipant.ClusterView.HasRevived | movie/cluster/runtime.py:1197-1206 | the search finds an active entry for an identity known to have left |
| ClusterParticipant.ClusterView.Refuses | movie/cluster/runtime.py:1167-1207 | a snapshot is refused for endpoints, missing entries, the retired limit or a revival |
| ClusterParticipant.ClusterView.KeepOwnStatus | movie/cluster/runtime.py:1208-1212 | a leaving or left participant keeps its own status |
| ClusterParticipant.ClusterView.InstallSnapshot | movie/cluster/runtime.py:1213-1221 | an accepted snapshot replaces view, revision and retired set |
| ClusterParticipant.ClusterView.ApplySnapshot | movie/cluster/runtime.py:1156-1221 | older revisions are refused, the same revision only confirms, newer ones are installed unless refused |
| ClusterParticipant.ClusterView.MarkCoordinatorReachable | movie/cluster/runtime.py:1343-1351 | hearing from the coordinator makes it reachable |
| ClusterParticipant.ClusterView.CompleteJoin | movie/cluster/runtime.py:1223-1230 | a join completes when the participant is shown as up |
| ClusterParticipant.ClusterView.HandleJoinAccepted | movie/cluster/runtime.py:722-756 | an acceptance of the pending request whose snapshot applies sets the token and is confirmed |
| ClusterParticipant.ClusterView.HandleHeartbeatAck | movie/cluster/runtime.py:915-942 | an acknowledgement in range whose snapshot applies is evidence and may complete the join |
| ClusterParticipant.ClusterView.HandleMembershipUpdate | movie/cluster/runtime.py:982-1000 | so does an update with the token |
| ClusterParticipant.ClusterView.HandleLeaveAck | movie/cluster/runtime.py:1095-1116 | a leave acknowledgement ends the pending leave |
| ClusterParticipant.ClusterView.DetectUnreachableCoordinator | movie/cluster/runtime.py:964-980 | a silent coordinator is marked unreachable in the local view only |
| ClusterParticipant.ClusterView.Leave | movie/cluster/runtime.py:1002-1010 | leaving marks the participant as leaving and starts a request |
| ClusterViews.KnownGone | movie/cluster/runtime.py:1189-1207 | what a participant knows to have left has left or is retired at every later point |
| ClusterViews.RejectedIffLeft | movie/cluster/runtime.py:1161-1212 | a newer honest snapshot is refused exactly if the participant has left by its own account and the snapshot has it active |
| ClusterViews.ApplyKeeps | movie/cluster/runtime.py:1156-1221 | accepting a snapshot keeps the view a point of the coordinator's history |
| ClusterSteps.CoordinatorStepKeeps | movie/cluster/runtime.py:630-1154 | a coordinator step with its packets keeps the cluster invariant |
| ClusterSteps.NodeStepKeeps | movie/cluster/runtime.py:722-1116 | so does a participant step |
| ClusterJoins.JoiningKeeps | movie/cluster/runtime.py:630-720 | a join request with its fresh token, answered or taken back, keeps the cluster invariant |
| ClusterJoins.ConfirmKeepsInv | movie/cluster/runtime.py:791-822 | so does a confirmation |
| ClusterTheorems.StepKeepsInv | movie/cluster/runtime.py:418-461 | every event of the cluster keeps the invariant |
| ClusterTheorems.RunsKeepInv | movie/cluster/runtime.py:418-461 | so does every run, over a network that loses, delays, repeats and reorders |
| ClusterTheorems.StepMoves | movie/cluster/runtime.py:1301-1307 | between two states nothing wire-visible changes or the revision grows |
| ClusterTheorems.RevisionDeterminesSnapshot | movie/cluster/runtime.py:1378-1396 | two packets with one revision carry one table, the coordinator's own while that revision lasts |
| ClusterTheorems.ViewIsCoordinatorsTable | movie/cluster/runtime.py:1156-1221 | a view at a revision is the coordinator's table at that revision, except the participant's own leaving or left status and its verdict on the coordinator |
| ClusterTheorems.RevisionHappened | movie/cluster/runtime.py:1181-1221 | every revision on record was the coordinator's own at some moment of the run |
| ClusterTheorems.ViewIsAPointOfHistory | movie/cluster/runtime.py:1181-1221 | every view is the coordinator's table of some moment of the run at the view's revision, but for the two local differences |
| ClusterTheorems.LeftNeverReturns | movie/cluster/runtime.py:651-673 | an identity that left is never shown otherwise by the coordinator or by another participant at that or a later revision |
| ClusterDepartures.OwnEntryCanShowLeaving | movie/cluster/runtime.py:1208-1212 | it is false for a member's own entry: in every cluster with room for two, some run shows leaving at the revision where the coordinator has left |
| ClusterDepartures.LeavingMemberShowsLeaving | movie/cluster/runtime.py:1095-1116 | every graceful leave can pass through such a state |
| ClusterDepartures.ClosedIff | movie/cluster/runtime.py:1002-1040 | a participant's shutdown is over exactly if the run contains its closing step |
| ClusterDepartures.OwnEntryIsLeftIff | movie/cluster/runtime.py:1022-1040 | exactly: the own entry shows left there if the participant has closed itself in the run, and leaving otherwise |
| ClusterContacts.PacketsAreForContacts | movie/cluster/runtime.py:519-525 | every packet ever sent is from or for a participant that has made contact |
| ClusterTheorems.SnapshotAcceptedIff | movie/cluster/runtime.py:1156-1207 | a snapshot sent to a participant is accepted exactly if it is not older, unless the participant already left locally and a newer snapshot has it active |
| ClusterTheorems.ViewsAreValid | movie/cluster/runtime.py:192-199 | every view lists its owner and at most one active incarnation of a name |
| ClusterTheorems.TokensAgree | movie/cluster/runtime.py:682-703 | a member past joining holds the token the coordinator has for it |
| ClusterTheorems.BookkeepingHolds | movie/cluster/runtime.py:1232-1288 | limits hold, credentials belong to exactly the active members, provisional entries to exactly the joining ones, and a leave in progress has its member |
| ClusterTheorems.StatusesMoveForward | movie/cluster/runtime.py:804-822 | statuses only move forward, and past joining a member disappears only into the retired set |
| ClusterViewRevisions.ParticipantViewRises | movie/cluster/runtime.py:1213-1216 | no step of the cluster changes what a participant shows under one local view revision |
| ClusterViewRevisions.CoordinatorViewRises | movie/cluster/runtime.py:1301-1307 | nor what the coordinator shows under one of its own |
| ClusterViewRevisions.ReserveRaises | movie/cluster/runtime.py:1232-1247 | making room by dropping members that have left raises the view revision with the members it shows |
| ClusterViewRevisions.SameRevisionSameMembers | docs/cluster-v1.md:81 | over every run view revisions never fall, and equal revisions of one node show equal members |
| ClusterDepartures.UpOnlyByConfirming | movie/cluster/runtime.py:804-822 | a member comes up only by confirming its own token for its pending request before the deadline |
| StreamStages.MapStage.constructor | movie/streams.py:226-240 | a stage starts unconnected and empty |
| StreamStages.MapStage.MaybePull | movie/streams.py:254-263 | a connected stage orders what it lacks to its target |
| StreamStages.MapStage.HandOver | movie/streams.py:265-270 | the loop hands over as much of the buffer as there is demand for |
| StreamStages.MapStage.Push | movie/streams.py:265-283 | a push hands over, completes, or pulls |
| StreamStages.MapStage.FailStream | movie/streams.py:285-293 | a failing stage cancels upstream and errors downstream |
| StreamStages.MapStage.OnNext | movie/streams.py:320-332 | an element is mapped, buffered and pushed, or fails the stage |
| StreamStages.MapStage.Receive | movie/streams.py:295-352 | the whole message handling of a map stage |
| StreamStages.SourceFromIterable.Receive | movie/streams.py:377-414 | the source loop serves a request from the iterator, completes or fails |
| StreamStages.SinkStage.Receive | movie/streams.py:529-554 | a sink subscribes, takes elements one request at a time, and settles its result |
| StreamInvariant.StageReacts | movie/streams.py:295-352 | every reaction of a map stage keeps its buffer, demand and completion flags consistent |
| StreamInvariant.SourceReacts | movie/streams.py:377-414 | so does every reaction of a source |
| StreamInvariant.SinkReacts | movie/streams.py:470-554 | and of a sink |
| StreamLinks.ConsumerStep | movie/streams.py:254-352 | a consumer's step keeps the invariant of the link above it |
| StreamLinks.ProducerStep | movie/streams.py:265-293 | a producer's step keeps the invariant of the link below it |
| StreamRuns.StepKeepsInv | movie/streams.py:770-780 | every delivery and every outside termination keeps the graph invariant |
| StreamRuns.RunsKeepInv | movie/streams.py:770-780 | so does every run of any graph, whatever the wiring order and interleaving |
| StreamTheorems.SinkGetsComposedPrefix | movie/streams.py:529-554 | the sink always holds a prefix of the composed map of the source, and success means all of it |
| StreamTheorems.PipelineConserved | movie/streams.py:265-345 | sink, mailboxes and buffers, pushed through the maps ahead, concatenate to the composed map of what was taken from the source |
| StreamTheorems.CompletedSentAll | movie/streams.py:265-283 | a completed stage has passed on everything, and so have all above it |
| StreamTheorems.DemandConserved | movie/streams.py:254-269 | what a stage has on order equals requests in transit, demand upstream and elements in transit, and fits its buffer |
| StreamTheorems.BufferNeverOverflows | movie/streams.py:320-332 | the buffer check never fires |
| StreamTermination.RunsAreBounded | movie/streams.py:377-414 | the number of deliveries in any run is bounded by the graph |
| StreamProgress.StuckIffOrphaned | movie/streams.py:340-345 | a run without messages left has an open sink exactly if a stage failed before its downstream subscribed |
| StreamProgress.FinishedRunsAgree | movie/streams.py:529-554 | all other finished runs agree: the composed map, or a failure if user code raises |
| StreamProgress.NeverStuck | movie/streams.py:254-352 | if no user code raises, an uncompleted graph always has a message in transit |
| StreamEarlyFault.OrphanNeedsEarlyFault | movie/streams.py:340-345 | a stage can be orphaned only by a fault within what is read ahead of the sink's subscription |
| StreamStuck.EarlyFaultStrandsSink | movie/streams.py:340-345 | every graph with such a fault has a run that leaves the sink open for ever |
| StreamStuck.SinkAlwaysClosesIff | movie/streams.py:340-345 | exactly: every finished run closes the sink if and only if the graph has no such fault; it takes two map stages |
| StreamStuck.RaisingIteratorStrandsSink | movie/streams.py:340-345 | a concrete case with the default sizes: an iterator that raises at once behind two maps |
| StreamMailboxes.MailboxBounded | movie/streams.py:254-269 | with one prefetch a running stage never has more than 2*prefetch+1 messages waiting, and a cancellation on top |
| StreamMailboxes.MailboxBoundedWithoutFailure | movie/streams.py:254-269 | and never more than 2*prefetch+1 in a run in which nothing raises or is terminated |
| StreamMailboxPeaks.BoundIsReached | movie/streams.py:254-281 | for every prefetch some run without failures leaves a running stage with 2*prefetch+1 messages |
| StreamMailboxPeaks.CancellationComesOnTop | movie/streams.py:283-291 | and with a sink that raises, some run leaves it with 2*prefetch+2 |
| StreamMailboxPeaks.DefaultsExceedMinimum | movie/streams.py:719-724 | with the default sizes a stage can have more messages waiting than the least mailbox capacity a graph accepts |
| Mailbox.DefaultMailbox.constructor | movie/mailbox/default.py:26-50 | a mailbox starts open, empty and idle |
| Mailbox.DefaultMailbox.Admit | movie/mailbox/default.py:68-87 | a message is refused when stopping or full, queued behind a scheduled activation, or queued with one |
| Mailbox.DefaultMailbox.RemoveEntry | movie/mailbox/default.py:97-98 | the search removes exactly the entry of a message |
| Mailbox.DefaultMailbox.AfterRejection | movie/mailbox/default.py:93-108 | a rejected activation takes a user message back, keeps a lifecycle message and says whether to publish again |
| Mailbox.DefaultMailbox.CloseMailbox | movie/mailbox/default.py:116-122 | closing empties both queues for good |
| Mailbox.DefaultMailbox.StopUserMessages | movie/mailbox/default.py:124-132 | stopping hands the queued user messages back in order |
| Mailbox.DefaultMailbox.Enter | movie/mailbox/default.py:134-139 | an activation enters, or leaves a note for the one running |
| Mailbox.DefaultMailbox.CheckWork | movie/mailbox/default.py:193-205 | the schedule is given up exactly when there is nothing to do |
| Mailbox.DefaultMailbox.TakeBatch | movie/mailbox/default.py:168-188 | a batch is the front of the lifecycle queue, or else of the user queue, up to the throughput |
| Mailbox.DefaultMailbox.RestoreBatch | movie/mailbox/default.py:218-225 | what the actor left over goes back to the front |
| Mailbox.DefaultMailbox.ConsumeInline | movie/mailbox/default.py:212-214 | the note is read and cleared |
| Mailbox.DefaultMailbox.Leave | movie/mailbox/default.py:155-159 | an activation leaves unless a note asks it to go on |
| MailboxRuns.StepKeepsSafe | movie/mailbox/default.py:68-246 | every critical section of any thread keeps mutual exclusion, the capacity and the conservation of messages |
| MailboxRuns.RunsKeepSafe | movie/mailbox/default.py:68-246 | so does every interleaving |
| MailboxRuns.OneBatchAtATime | movie/mailbox/default.py:134-164 | at most one batch runs at a time |
| MailboxRuns.CapacityHolds | movie/mailbox/default.py:74-79 | queued and running user messages never exceed the capacity |
| MailboxRuns.HandedOverInOrder | movie/mailbox/default.py:181-191 | user messages leave the queue in the order of admission, each once |
| MailboxRuns.NothingIsLost | movie/mailbox/default.py:218-225 | consumed, queued and handed-back messages make up what was admitted |
| MailboxRuns.NeverForgotten | movie/mailbox/default.py:166-216 | an open mailbox with work always has an activation queued, being published or running, whatever the dispatcher rejects, if user messages are stopped from within batches |
| MailboxRuns.StoppingFromOutsideCanStrand | movie/mailbox/default.py:90-113 | without that condition some run leaves a lifecycle message that nobody looks at |
| MailboxAttendance.StepCaresIff | movie/mailbox/default.py:68-246 | every step of any thread keeps a mailbox looked after, except exactly the rejection of its last activation by a sender whose entry is gone |
| MailboxAttendance.RejectionIsHarmlessIff | movie/mailbox/default.py:90-113 | a rejection leaves a scheduled mailbox looked after exactly if the sender's entry is still queued or somebody else is there |
| MailboxAttendance.StrandedStays | movie/mailbox/default.py:80-86 | nothing but closing ends the state of a scheduled mailbox with nobody there |
| MailboxAttendance.ForgottenIff | movie/mailbox/default.py:68-246 | over every run, with stops and rejections anywhere: an open mailbox is looked after exactly if the run contains no such rejection |
| MailboxAttendance.AcceptingDispatcherNeverForgets | movie/mailbox/default.py:166-216 | so with a dispatcher that accepts it is never forgotten, wherever user messages are stopped |
| MailboxAttendance.LifecycleFirst | movie/mailbox/default.py:181-186 | over every run: while a lifecycle message waits, no user message leaves the queue |
| TcpWriter.TcpConnection.constructor | movie/io/tcp.py:1258-1274 | a connection starts open with nothing queued |
| TcpWriter.TcpConnection.AdmitWrite | movie/io/tcp.py:1258-1274 | a write is admitted within both limits and asks for a wake-up when the queue was idle |
| TcpWriter.TcpConnection.PopSubmissions | movie/io/tcp.py:1470-1482 | the loop takes the oldest writes up to the batch limit, and clears the wake flag on an empty queue |
| TcpWriter.TcpConnection.QueueChunk | movie/io/tcp.py:1501-1508 | a chunk takes what the batch has room for and completes the write at its last byte |
| TcpWriter.TcpConnection.SendBatch | movie/io/tcp.py:1537-1550 | sending settles both counters and reports the completions in order |
| TcpWriter.TcpConnection.SplitSubmissions | movie/io/tcp.py:1483-1523 | the splitting loop ends and neither loses, repeats nor reorders a byte or a write |
| TcpWriter.ChunkKeeps | movie/io/tcp.py:1485-1508 | a chunk keeps the unsent bytes, stays within the batch limits and leaves fewer bytes to split |
| TcpWriterRuns.StepKeepsInv | movie/io/tcp.py:1454-1535 | every step of senders and writer keeps the writer invariant |
| TcpWriterRuns.RunsKeepInv | movie/io/tcp.py:1454-1535 | so does every interleaving, with failures and closing |
| TcpWriterRuns.SocketGetsPrefix | movie/io/tcp.py:1454-1550 | the socket gets a prefix of the concatenation of the admitted writes |
| TcpWriterRuns.CompletionsFollowBytes | movie/io/tcp.py:1508-1550 | completions come once, in order and after the last byte |
| TcpWriterRuns.BatchesAreBounded | movie/io/tcp.py:1485-1523 | no batch exceeds its byte or completion limit |
| TcpWriterRuns.CountersAreExact | movie/io/tcp.py:1258-1274 | both counters equal what is unsent and stay within the limits, on a closed connection too, until it is cleaned up; then they are zero |
| TcpWriterRuns.WriterIsWoken | movie/io/tcp.py:1258-1274 | queued writes never find the writer waiting with no wake-up on its way |
| TcpWriterRuns.SplittingShrinks | movie/io/tcp.py:1485-1508 | every turn of the splitting loop flushes or leaves fewer bytes |
| Transport.AsyncioTcpConnection.constructor | movie/remoting/asyncio_tcp.py:183-245 | a connection starts open with nothing queued |
| Transport.AsyncioTcpConnection.EnqueueOutbound | movie/remoting/asyncio_tcp.py:486-500 | a record joins its channel's queue, and a new channel the end of the turn order |
| Transport.AsyncioTcpConnection.SendActive | movie/remoting/asyncio_tcp.py:311-327 | a record is refused when closed, ended, too large or over the limits, and enqueued otherwise |
| Transport.AsyncioTcpConnection.SendGoAway | movie/remoting/asyncio_tcp.py:329-361 | the terminal record is taken once, outside the limits |
| Transport.AsyncioTcpConnection.DequeueOne | movie/remoting/asyncio_tcp.py:694-701 | the channel in front gives one record and goes to the back if it has more |
| Transport.AsyncioTcpConnection.GatherBatch | movie/remoting/asyncio_tcp.py:684-723 | the batching loop computes the gathering function, with the terminal record only after everything else |
| Transport.AsyncioTcpConnection.AfterSend | movie/remoting/asyncio_tcp.py:726-730 | a sent batch settles both counters |
| Transport.AsyncioTcpConnection.MarkClosed | movie/remoting/asyncio_tcp.py:556-577 | closing empties everything |
| TransportRuns.GatherHolds | movie/remoting/asyncio_tcp.py:684-723 | gathering a batch keeps, for every channel, what is still to be written and its order |
| TransportRuns.GatherStock | movie/remoting/asyncio_tcp.py:684-723 | and keeps the number and size of the records held |
| TransportRuns.StepKeepsInv | movie/remoting/asyncio_tcp.py:311-361 | every step of senders and writer keeps the transport invariant |
| TransportRuns.RunsKeepInv | movie/remoting/asyncio_tcp.py:679-738 | so does every interleaving |
| TransportRuns.ChannelsAreFifo | movie/remoting/asyncio_tcp.py:684-728 | the records written for a channel are the first ones admitted for it, in order |
| TransportRuns.CountersAreExact | movie/remoting/asyncio_tcp.py:486-500 | both outbound counters equal the records queued, in send and reserved |
| TransportRuns.WriterIsWoken | movie/remoting/asyncio_tcp.py:502-513 | pending output never finds the writer waiting with no wake-up on its way |
| TransportRuns.TerminalIsLast | movie/remoting/asyncio_tcp.py:702-716 | when the terminal record has gone out, everything admitted has gone out before it and nothing can follow |
| TransportRuns.NothingFollowsTerminal | movie/remoting/asyncio_tcp.py:328-360 | from its admission on, also through close and socket failure: nothing more is admitted, the terminal record goes out after all of what was admitted before it, and until then only that goes out |
| TransportRuns.TerminalHasOnePlace | movie/remoting/asyncio_tcp.py:702-716 | so in the output, open or closed, it is found only in the last place |
| TransportRuns.ServedInTurn | movie/remoting/asyncio_tcp.py:690-701 | over every run: a channel with k others ahead of it gets the record that goes out after the next k, whatever is admitted meanwhile |
| TransportInbound.InboundQueue.ReserveInbound | movie/remoting/asyncio_tcp.py:837-873 | a reservation is made, must wait, or fails, under the current limits |
| TransportInbound.InboundQueue.ReceiveMany | movie/remoting/asyncio_tcp.py:366-399 | receiving takes the oldest records and settles both counters |
| TransportInbound.StepKeepsExact | movie/remoting/asyncio_tcp.py:740-825 | every step of the reader and its consumers keeps both inbound counters exact |
| TransportInbound.InboundIsExact | movie/remoting/asyncio_tcp.py:740-825 | so the inbound counters equal the records queued and being read, over every run |
| TransportInbound.ReservationFits | movie/remoting/asyncio_tcp.py:837-873 | a reservation keeps both counters within the limits it was made under |
| TransportInbound.StepKeepsRoused | movie/remoting/asyncio_tcp.py:866-873 | every step keeps: a waiting reader has said so, and found no room since the last change or will be woken |
| TransportInbound.ReaderIsWoken | movie/remoting/asyncio_tcp.py:366-434 | over every run: a reader that waits although there is room, after records were received or limits changed, has a wake-up on its way |
| Lanes.Association.SendUserMessage | movie/remoting/association.py:303-374 | a user message takes the next number of its recipient's lane, used up only if the connection admits it |
| Lanes.Association.PrepareUserMessage | movie/remoting/association.py:962-999 | a record passes exactly if it carries the next number of its lane |
| Lanes.StepKeepsInv | movie/remoting/association.py:819-881 | every step of sender, connection and receiver keeps the lane invariant |
| Lanes.RunsKeepInv | movie/remoting/association.py:819-881 | so does every run |
| Lanes.LanesArePrefixes | movie/remoting/association.py:984-999 | what the receiver prepares for a lane is a prefix of what the sender was admitted for it |
| Lanes.RecipientsArePrefixes | movie/remoting/association.py:320-327 | so it is for every recipient, in order and without duplicates |
| Lanes.SequenceCheckHolds | movie/remoting/association.py:985-991 | a conforming sender never trips the sequence check |
| HttpParser.HttpRequestParser.constructor | movie/http/codec.py:39-68 | a parser starts with an empty buffer |
| HttpParser.HttpRequestParser.Feed | movie/http/codec.py:74-96 | feeding refuses an overflow and otherwise drains the buffer request by request |
| HttpParser.HttpRequestParser.Finish | movie/http/codec.py:98-106 | finishing reports an incomplete request unless the reader stopped by its own limit |
| HttpChunks.LengthAcceptedIff | movie/http/codec.py:175-195 | the digit-count shortcut accepts exactly the decimal lengths up to the body limit |
| HttpChunks.StableIff | movie/http/codec.py:108-134 | what is concluded from a buffer is concluded with more input behind it, except exactly when a line of the longest length was cut between CR and LF |
| HttpChunks.CutChanges | movie/http/codec.py:109-115 | in that case the verdict does change: too long before, not too long after |
| HttpChunks.DrainInTwo | movie/http/codec.py:74-96 | taking requests off a prefix first and going on gives what the whole stream gives |
| HttpChunks.ChunksDoNotMatter | movie/http/codec.py:74-96 | any chunking with any pacing gives the requests, remainder and error of the whole stream |
| HttpChunkSplits.SomeSplitShows | movie/http/codec.py:74-115 | for a stream with a line of the longest length, some fitting split gives other requests or another error than the whole |
| HttpChunkSplits.ReadAlikeIff | movie/http/codec.py:74-115 | so a stream is read alike in all fitting chunks exactly if no line met has the longest length |
| HttpChunks.SameAsWhole | movie/http/codec.py:74-106 | read to the end, the chunked requests and remainder are those of one buffer |
| HttpChunks.LeftoverIsBounded | movie/http/codec.py:108-134 | what is kept for an incomplete request fits next to a maximal one |
| HttpRoundTrip.WrittenParses | movie/http/codec.py:108-134 | round trip: a request within the limits, written out with anything behind it, parses to itself and takes exactly its own bytes |
| HttpRoundTrip.AcceptedIsWritable | movie/http/codec.py:108-173 | the converse: an accepted request can be written again exactly if its own form fits the header limit, and is then accepted as the same request |
| HttpRoundTrip.PipelinedRequestsArrive | movie/http/codec.py:74-96 | requests written one after the other, cut anywhere and read at any pace, come out as they were written, all of them, in order, with nothing left |
| HttpRoundTrip.AcceptedIsFramed | movie/http/codec.py:168-195 | an accepted request has one nonempty host, no transfer encoding and at most one length, which is decimal and that of its body; it ends where its body ends |
| HttpRoundTrip.LineParses | movie/http/codec.py:136-154 | a method, target and version written with single spaces are read back |
| HttpRoundTrip.LineIsGood | movie/http/codec.py:136-154 | an accepted request line is its three parts with single spaces, a token and a visible target |
| HttpRoundTrip.HeaderParses | movie/http/codec.py:161-170 | a trimmed header with a lower-case token as name is read back |
| HttpRoundTrip.FieldIsGood | movie/http/codec.py:161-170 | an accepted header line gives a lower-case token and a trimmed value without control characters |
| HttpRoundTrip.HeadParses | movie/http/codec.py:126-129 | a written head gives the request's line, headers and body length |

The source column names the repository file and the lines a member models.

## Left out

- SQL text, PRAGMAs, busy timeouts, schema comparison and the aiosqlite worker: each transaction is one atomic step that may abort or lose its reply.
- The admission limits of the store (pending operations and bytes) and its deadlines: they refuse work before a transaction starts.
- SHA-256 fingerprints, persistence slices and identifiers: a fingerprint stands for the content it is computed from, a slice is a parameter of a write, tokens and request identifiers are fresh values.
- The SQL sandbox of exactly-once handlers: a handler is a function folded over the committed changes.
- ProjectionRuns.ExactlyOnce: assumes that a name is not retired while any process runs it, as the extension ensures within one process; `ProjectionRetirement.ExactlyOnceIff` is without that.
- DurableActors.NoLostUpdate: assumes a stable codec, one whose decoded states survive another encoding and decoding; the repository leaves this to the author of a codec.
- User callbacks, hooks and supervision of durable actors: a callback that raises is a crash after the step that ran it.
- A coordinator stopped before it formed its cluster, worker failures, reassociation, retry timing and the bounded control queue: packets that are not sent or are dropped stand for all of them.
- Messages for another cluster, incarnation or configuration: they are dropped by a comparison before any state is touched.
- The canonical order of members in a wire snapshot: a snapshot is the map of its members.
- Cluster events, health events and dead letters: bounded windows of notifications.
- Coordinator restarts: one coordinator incarnation; a participant is bound to it by its identity.
- Stream materialization, futures and lifecycle acknowledgement: a result is what the sink settles on. The two sinks are one class with a function that accepts or raises.
- Asynchronous iterators and outside cancellation of a whole graph: only single stages are terminated from outside.
- Mailbox recovery when the dispatcher rejects the recovery activation itself: the code does not promise completion there.
- Socket reads and writes below whole chunks, event loops, threads and shutdown deadlines: a send completes, or fails after some of its bytes.
- Serialization, frame codecs, handshakes and GOAWAY reasons of remoting: a record is its channel, size and payload; records that arrive before activation are deferred.
- Rendering of HTTP responses, and the HTTP server around the parser: single passes over their input.
- TransportRuns.TerminalIsLast: is about an open connection; `TransportRuns.NothingFollowsTerminal` is about any. Both count a record cut off by a failing socket as not written.
- HttpChunks.ChunksDoNotMatter: assumes that no request line has exactly the longest length, which `HttpChunkSplits.ReadAlikeIff` shows to be necessary, and that no feed overflows the buffer, which is a refusal that depends on the chunks.
- HttpRoundTrip.PipelinedRequestsArrive: leaves out request lines of exactly the longest length and overflowing feeds, for the same two reasons.
- Lanes.Association.PrepareUserMessage: leaves out the comparisons of association, incarnations and serializer route, which refuse a record before its lane number is used up and change no state.
