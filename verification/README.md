# A verified model of coerce-rs

Coerce is an actor runtime for clusters.  This project models, in Dafny, the protocols in it whose
correctness does not show in any one handler, and proves what they guarantee over every run:

* **The singleton lease** (`LeaseManager`, `LeaseProtocol`, `LeaseLimits`, `LeaseTrio`, `LeaseActors`,
  `LeaseStarvation`, `LeaseNotices`; `LeaseRuns` builds concrete runs).  One manager per node collects an acknowledgement from
  every peer before it starts the singleton.  The cluster is a state machine over the managers and a multiset
  of messages in flight; messages are reordered and may be lost, nodes may crash, and leader announcements may
  contradict each other.  No two live managers are ever both `Running`.  The promises this rests on are listed
  at `LeaseProtocol.Admissible`; for acknowledgements, additions, removals and `MemberUp` it is proved that the
  invariant is kept if and only if they are, and three runs show two managers running when one is broken.
  `Running` is not the same as having an actor: a stopping manager still has its own, and grants a second
  requester at once, so an admissible run ends with two actors; at most one exists in every run in which no
  stopping manager is asked by another live node, and each such request breaks the invariant behind that.
  The price of exclusion is progress: a lost request is never repeated, and it is proved exactly which steps
  lose one.
* **The shard coordinator** (`Coordinator`, `CoordinatorBalance`, `CoordinatorRuns`).  The two indexes stay
  inverse to each other, a full rebalance is fair, losing a node conserves shards, and a coordinator that
  crashes anywhere recovers exactly the journaled shards.
* **The event journal** (`Journal`, `JournalHistory`, `PersistRetry`).  Recovery is compared with a reference
  that knows nothing of sequence numbers, for every history of messages, batches, snapshots, compactions
  and restarts.
* **Request routing** (`ShardHost`, `HostLedger`, `HostTrack`, `Shard`, `ShardLedger`, `Proxy`).  Every request is accounted for, in order;
  replaying a shard's journal rebuilds the live shard.
* **Leader election and the client's write buffer** (`Heartbeat`, `ClientBuffer`).

An actor handles one message at a time, so each actor is a class whose methods are its handlers and update
its fields in place.  Each method is proved against a function or relation on values, and the theorems
about runs use those.  Messages sent with `notify` from a spawned task go to a multiset of messages in
flight; iteration over a hash map is an arbitrary choice.  Whether a write succeeds, a connection is
reached, a start works out or a node is healthy comes in as a parameter.

Messages that the code hands to a spawned task, a shard or an actor are recorded in sequences (`sent`,
`delivered`, `passed`), so order means the order of handing over.

Where the code does less than its documentation or its types suggest, the model follows the code.  A lemma
says exactly when the expected property holds, and another exhibits a run from the initial state in which it
does not:

* a single message written right after a snapshot is not recovered (`JournalHistory.CompleteIffCareful`,
  `JournalHistory.MessageAfterSnapshotIsLost`);
* a stop request to a starting shard is forgotten (`HostLedger.StopIsHonouredIffReady`, `HostLedger.StopIsForgotten`);
* a start whose journal write failed runs, but is gone after a restart (`Shard.FaithfulIffStored`,
  `Shard.UnstoredStartIsLost`);
* a start from outside drops the requests that wait for an entity to start (`ShardLedger.LineKeptIff`,
  `ShardLedger.WaitingRequestIsDropped`);
* a leader whose id needs the 64th bit is announced again on every tick (`Heartbeat.QuietIffIdFits`,
  `Heartbeat.AnnouncedAgain`);
* a write can overtake messages that a broken-off flush left behind (`ClientBuffer.OrderIffNotOvertaking`,
  `ClientBuffer.WriteOvertakes`);
* a removal notice during a start launches it twice (`LeaseProtocol.RemovalKeepsInvIff`,
  `LeaseLimits.RemovalDuringStartBreaksExclusion`);
* a late acknowledgement from a removed node makes up the count (`LeaseProtocol.AckKeepsInvIff`,
  `LeaseTrio.StrayAckBreaksExclusion`);
* a second `MemberUp` during a start breaks the round (`LeaseProtocol.MemberUpKeepsInvIff`,
  `LeaseLimits.SecondMemberUpBreaksExclusion`); that input exists at the manager only, since a heartbeat never
  publishes it twice (`Heartbeat.MemberUpComesOnce`);
* a stopping manager lets another node run beside its own actor (`LeaseActors.ApartIffNotHasty`,
  `LeaseTrio.TwoActors`);
* a lease request can be lost for good, by a starting, joining or stopping receiver as well as by the network
  (`LeaseStarvation.LostIff`, `LeaseStarvation.StarvedIffLost`, `LeaseStarvation.RequestsCross`,
  `LeaseStarvation.GrantIsRecalled`).

`dafny verify dfyconfig.toml` checks the whole project.

## Model

| member | source | states |
|---|---|---|
| LeaseManager.Manager.NotifyAll | coerce/src/singleton/manager/mod.rs:158-166 | exactly one message to each known peer |
| LeaseManager.Manager.DoBeginStarting | coerce/src/singleton/manager/mod.rs:194-200 | opens a round with no acknowledgements; without peers it launches at once, otherwise it asks every peer |
| LeaseManager.Manager.DoBeginStopping | coerce/src/singleton/manager/mod.rs:202-222 | only a manager that has an actor goes to `Stopping` and tells the peers; a starting one does nothing |
| LeaseManager.Manager.DoGrantLease | coerce/src/singleton/manager/lease.rs:127-152 | while joining the grant is put aside, replacing an earlier one; otherwise it is sent |
| LeaseManager.Manager.HandleRequestLease | coerce/src/singleton/manager/lease.rs:78-98 | grants unless starting or running, and otherwise begins to stop |
| LeaseManager.Manager.HandleLeaseAck | coerce/src/singleton/manager/lease.rs:154-180 | counts the sender while starting, and launches when the count reaches the number of peers |
| LeaseManager.Manager.HandleStartResult | coerce/src/singleton/manager/start.rs:34-69 | a successful start makes the manager `Running` whatever its state and tells the peers; a failed one changes nothing |
| LeaseManager.Manager.HandleLeaderChanged | coerce/src/singleton/manager/mod.rs:224-331 | only a manager that is neither joining, starting nor running begins to start when it leads |
| LeaseManager.Manager.HandleMemberUp | coerce/src/singleton/manager/mod.rs:280-325 | all members become peers, a grant put aside is released, and the leader begins to start |
| LeaseManager.Manager.HandleChildStopped | coerce/src/singleton/manager/mod.rs:250-271 | a stopping manager grants the lease to who asked and becomes idle |
| LeaseManager.Manager.HandleNodeAdded | coerce/src/singleton/manager/mod.rs:333-368 | a new peer becomes known, is asked for the lease by a starting manager and told by a running one |
| LeaseManager.Manager.HandleNodeRemoved | coerce/src/singleton/manager/mod.rs:370-383 | forgets the peer and its acknowledgement, and repeats the count test while starting |
| LeaseProtocol.CountMeansAll | coerce/src/singleton/manager/lease.rs:164-168 | acknowledgements that come from peers pass the count test exactly when every peer is among them |
| LeaseProtocol.StepInv | coerce/src/singleton/manager/lease.rs:78-185 | every admissible step of any node keeps the invariant over managers and messages in flight |
| LeaseProtocol.RunInv | coerce/src/singleton/manager/mod.rs:194-383 | the invariant holds in every state of every run |
| LeaseProtocol.PermissionIsOneWay | coerce/src/singleton/manager/lease.rs:78-180 | in every run two live managers never hold each other's permission at once: an acknowledgement in flight, one collected, or `Running` |
| LeaseProtocol.MutualExclusion | coerce/src/singleton/manager/lease.rs:78-180 | at no point of any run are two live managers `Running` |
| LeaseProtocol.LeaseRoundsAreExact | coerce/src/singleton/manager/lease.rs:108-180 | per ordered pair at most one request, grant put aside, acknowledgement in flight or collected exists, and, for a live peer, none unless the requester is starting |
| LeaseProtocol.LaunchMeansAllAcknowledged | coerce/src/singleton/manager/lease.rs:154-185 | while a start is in progress every live peer has acknowledged, and the result finds the manager `Starting` |
| LeaseProtocol.OneLaunchPerRound | coerce/src/singleton/manager/start.rs:17-69 | launches balance with rounds opened and starts failed: never two for one round |
| LeaseProtocol.CountTestIsExact | coerce/src/singleton/manager/lease.rs:164-168 | in every run the count test launches exactly when no peer is missing |
| LeaseProtocol.AckKeepsInvIff | coerce/src/singleton/manager/lease.rs:154-180 | delivering an acknowledgement keeps the invariant if and only if a starting receiver still knows the sender |
| LeaseProtocol.RemovalKeepsInvIff | coerce/src/singleton/manager/mod.rs:370-383 | announcing a crashed node keeps the invariant if and only if no start is in progress |
| LeaseProtocol.AdditionKeepsInvIff | coerce/src/singleton/manager/mod.rs:333-368 | announcing a node as added keeps the invariant if and only if the manager is joining or knows it, or no start is in progress and nothing is left of an old request to it |
| LeaseProtocol.MemberUpKeepsInvIff | coerce/src/singleton/manager/mod.rs:280-325 | a `MemberUp` naming every live node keeps the invariant if and only if the manager is joining, or is not starting and no peer it was told is gone comes back while something of an old request to it is left |
| LeaseLimits.RemovalDuringStartBreaksExclusion | coerce/src/singleton/manager/mod.rs:370-383 | a run with one removal notice during a start that ends with two live managers running |
| LeaseLimits.SecondMemberUpBreaksExclusion | coerce/src/singleton/manager/mod.rs:306-325 | a run with one second `MemberUp` that ends with two live managers running |
| LeaseLimits.StrayAckFoolsCountIff | coerce/src/singleton/manager/lease.rs:154-180 | the count test launches without a peer's agreement exactly when the sender is no peer and one is missing by number |
| LeaseLimits.RemovalLaunchesIff | coerce/src/singleton/manager/mod.rs:370-383 | a removal notice launches exactly when nobody but the removed node was missing, a second time if nobody was |
| LeaseTrio.StrayAckBreaksExclusion | coerce/src/singleton/manager/lease.rs:154-180 | a run of three nodes in which the late acknowledgement of a removed node makes up the count, ending with two live managers running |
| LeaseTrio.TwoActors | coerce/src/singleton/manager/lease.rs:78-98 | an admissible run that ends with one manager running while another, stopping, still has its actor |
| LeaseActors.ApartIffNotHasty | coerce/src/singleton/manager/mod.rs:119-136 | an admissible step keeps any two live managers from occupying the singleton against each other, stopping ones included, if and only if it does not deliver a live node's request to a stopping manager |
| LeaseActors.ApartThroughoutIff | coerce/src/singleton/manager/lease.rs:78-98 | live managers stay so throughout a run if and only if it has no such step |
| LeaseActors.OneActor | coerce/src/singleton/manager/mod.rs:202-271 | in every run without such a step at most one live manager has an actor, running or stopping |
| LeaseStarvation.RequestAnsweredIffNotStarting | coerce/src/singleton/manager/lease.rs:78-98 | at the moment of delivery a request leaves one trace, or none exactly when the receiver is starting |
| LeaseStarvation.DroppedRequestStarves | coerce/src/singleton/manager/mod.rs:202-207 | in every run, a request that finds its receiver starting leaves the requester waiting with nothing on its way |
| LeaseStarvation.OverwrittenRequestStarves | coerce/src/singleton/manager/lease.rs:131-139 | in every run, a second request to a joining manager leaves the first requester waiting with nothing on its way |
| LeaseStarvation.RecalledGrantStarves | coerce/src/singleton/manager/mod.rs:224-228 | in every run, a manager stopping for a requester that is told it leads, or that the cluster is up, leaves that requester waiting with nothing on its way |
| LeaseStarvation.LostIff | coerce/src/singleton/manager/lease.rs:78-180 | an admissible step loses an outstanding request between live nodes if and only if the network loses it or its acknowledgement, or it is one of the three cases above |
| LeaseStarvation.StarvedForGood | coerce/src/singleton/manager/lease.rs:78-180 | such a requester neither launches nor runs for as long as the peer lives, whatever else happens |
| LeaseStarvation.StarvedIffLost | coerce/src/singleton/manager/mod.rs:194-383 | in every run a live manager is starved of a live peer's acknowledgement if and only if some earlier step lost its request |
| LeaseStarvation.CrossedRequestsDeadlock | coerce/src/singleton/manager/mod.rs:224-228 | two starters that dropped each other's requests stay `Starting` while both live |
| LeaseStarvation.RequestsCross | coerce/src/singleton/manager/lease.rs:78-98 | an admissible run of two nodes that ends in that deadlock |
| LeaseStarvation.GrantIsRecalled | coerce/src/singleton/manager/mod.rs:224-228 | an admissible run in which a stopping manager is told it leads and the requester it stops for starves |
| LeaseNotices.EnvelopesAreExact | coerce/src/singleton/manager/mod.rs:139-383 | for every manager, event and peer, exactly when a lease request, a started notice, a stopped notice and an acknowledgement is sent to that peer, and never twice |
| LeaseNotices.PeersAreTold | coerce/src/singleton/manager/mod.rs:354-360 | in every run each peer that a running manager knows was sent a started notice by it since it has been running |
| LeaseNotices.PeersAreToldOfStop | coerce/src/singleton/manager/mod.rs:202-222 | in every run a manager that stops tells exactly the peers it knows, in that step |
| Coordinator.ShardCoordinator.PreRecovery | coerce/src/sharding/coordinator/mod.rs:75-121 | this node is ready, the others if healthy or joining, and fresh books are sound |
| Coordinator.ShardCoordinator.PickHost | coerce/src/sharding/coordinator/allocation.rs:101-114 | a ready host with the least load, and none only if no host is ready |
| Coordinator.ShardCoordinator.AllocateShard | coerce/src/sharding/coordinator/allocation.rs:43-133 | a known shard stays put; a new one goes to a least-loaded ready host in both indexes and is broadcast to all ready hosts; without a ready host nothing changes |
| Coordinator.ShardCoordinator.HandleAllocate | coerce/src/sharding/coordinator/allocation.rs:64-90 | takes the request step, or the end-of-move step, of the run model: a fresh allocation is journaled first and every fresh one is broadcast; a failed write changes nothing |
| Coordinator.ShardCoordinator.Recover | coerce/src/sharding/coordinator/allocation.rs:92-99 | replays the journal as a series of allocations and leaves sound books |
| Coordinator.ShardCoordinator.RebalanceShards | coerce/src/sharding/coordinator/balancing.rs:81-146 | exactly the listed shards leave both indexes, each allocated one is on the move once, and all are withdrawn |
| Coordinator.ShardCoordinator.PickExcess | coerce/src/sharding/coordinator/balancing.rs:37-47 | shards of the host without repeats, so many that the fair share stays, and none if it has no more than that |
| Coordinator.ShardCoordinator.RebalanceAll | coerce/src/sharding/coordinator/balancing.rs:29-58 | every host gives up exactly its excess over the floor of shards per host |
| Coordinator.ShardCoordinator.RebalanceUnavailableNode | coerce/src/sharding/coordinator/balancing.rs:148-174 | the host becomes unavailable and owns nothing, and exactly its shards are allocated again, each once |
| Coordinator.ShardCoordinator.ReallocateAll | coerce/src/sharding/coordinator/balancing.rs:164-168 | the loop is a series of sound allocations of the lost shards, stale entries notwithstanding |
| Coordinator.ShardCoordinator.HandleNodeAdded | coerce/src/sharding/coordinator/discovery.rs:34-63 | the node becomes a ready host that keeps its shards, and a rebalance is scheduled unless it was ready |
| Coordinator.Started | coerce/src/persistent/actor.rs:230-293 | a coordinator that starts over a predecessor's journal sets up the hosts, replays it and has sound books: the restart step of every run |
| Coordinator.AllocatesKeepsSound | coerce/src/sharding/coordinator/allocation.rs:115-129 | an allocation keeps the indexes inverse and only ready hosts owning shards, and moves no other shard |
| Coordinator.DropKeepsSound | coerce/src/sharding/coordinator/balancing.rs:98-100 | taking shards off keeps the indexes inverse |
| Coordinator.WriteOffKeepsSound | coerce/src/sharding/coordinator/balancing.rs:151-162 | writing off a host keeps the indexes inverse |
| Coordinator.AllocatesIgnoresStale | coerce/src/sharding/coordinator/balancing.rs:164-168 | entries that still name the lost host do not affect where a shard is placed |
| CoordinatorBalance.AllocationsConserve | coerce/src/sharding/coordinator/allocation.rs:43-61 | any series of allocations adds exactly the named shards if a host is ready, none otherwise, and moves nothing |
| CoordinatorBalance.AllocationsKeepEven | coerce/src/sharding/coordinator/allocation.rs:101-133 | a load spread of at most one among ready hosts survives any series of allocations |
| CoordinatorBalance.FillingEndsFair | coerce/src/sharding/coordinator/allocation.rs:101-133 | if no ready host starts above its final fair share, every one ends with the floor of the share or one more |
| CoordinatorBalance.RebalanceLeaves | coerce/src/sharding/coordinator/balancing.rs:32-47 | a full rebalance leaves a host above the fair share with exactly that share, and takes nothing from any other host |
| CoordinatorBalance.RebalanceTakesNothingIff | coerce/src/sharding/coordinator/balancing.rs:32-47 | it takes nothing at all if and only if no host is above the fair share |
| CoordinatorBalance.FullRebalanceIsFair | coerce/src/sharding/coordinator/balancing.rs:29-58 | once the shards taken are allocated again, in any order, with any tie-break and any requests in between, every ready host has its fair share up to one, and no shard is lost |
| CoordinatorBalance.NodeLossConserves | coerce/src/sharding/coordinator/balancing.rs:148-168 | with another ready host exactly the lost node's shards move and the set of shards is unchanged; without one exactly those become unallocated |
| CoordinatorBalance.NodeLossStaysEven | coerce/src/sharding/coordinator/balancing.rs:164-168 | a load spread of at most one among the remaining hosts holds after every re-placement |
| CoordinatorBalance.ReplayIsExact | coerce/src/sharding/coordinator/allocation.rs:92-99 | replay on fresh books allocates exactly the journaled shards, evenly |
| CoordinatorRuns.StepInv | coerce/src/sharding/coordinator/balancing.rs:22-78 | every event keeps the books sound and everything allocated or moving journaled |
| CoordinatorRuns.RunKeepsBooks | coerce/src/sharding/coordinator/allocation.rs:64-90 | so does every run, crashes included; hence there is a host to divide by and an owner to unwrap |
| CoordinatorRuns.CrashRecovery | coerce/src/sharding/coordinator/mod.rs:75-121 | a crash at any point of any run: all shards allocated or moving are allocated again, exactly the journaled ones, fairly shared |
| CoordinatorRuns.NothingIsLost | coerce/src/sharding/coordinator/balancing.rs:81-146 | while a host is ready and stops are answered, the journaled shards are exactly those allocated or moving |
| Journal.Storage.WriteMessage | coerce/src/persistent/journal/provider.rs:90-106 | appends to the actor's messages |
| Journal.Storage.Find | coerce/src/persistent/journal/provider.rs:147-160 | the first entry at the bound or above it, and none only if there is none |
| Journal.Storage.ReadLatestMessages | coerce/src/persistent/journal/provider.rs:137-171 | everything from sequence zero, otherwise the tail above the sequence |
| Journal.Storage.DeleteMessagesTo | coerce/src/persistent/journal/provider.rs:252-293 | keeps the tail at the sequence or above it, and the snapshots |
| Journal.Number | coerce/src/persistent/journal/mod.rs:207-222 | a batch takes consecutive sequences after the current one |
| Journal.Journal.WriteMessage | coerce/src/persistent/journal/mod.rs:254-288 | a single message takes the current sequence, and the counter moves on only if it was stored |
| Journal.Journal.WriteBatch | coerce/src/persistent/journal/mod.rs:207-233 | a batch takes the sequences after the current one, and the counter moves on only if it was stored |
| Journal.Journal.WriteSnapshot | coerce/src/persistent/journal/mod.rs:290-320 | a snapshot takes the next sequence and becomes the newest only if it was stored |
| Journal.Journal.RecoverSnapshot | coerce/src/persistent/journal/mod.rs:322-353 | both counters follow the newest snapshot even if nobody handles its type |
| Journal.Journal.RecoverMessages | coerce/src/persistent/journal/mod.rs:355-411 | the counter follows the last entry read; entries without a handler are skipped |
| Journal.Journal.ClearOldMessages | coerce/src/persistent/journal/mod.rs:417-427 | deletes below the newest snapshot, and fails without one |
| Journal.Load | coerce/src/persistent/recovery.rs:84-101 | a new journal recovers the snapshot first and the messages after it, and continues numbering from there; an attempt fails if either read does |
| JournalHistory.TailIsFilter | coerce/src/persistent/journal/provider.rs:147-160 | on ordered entries, first match and tail equals filtering by sequence |
| JournalHistory.NumberedConsecutively | coerce/src/persistent/journal/mod.rs:207-222 | the payloads of a batch have consecutive sequences, one each, in order |
| JournalHistory.ReplayAgrees | coerce/src/persistent/journal/mod.rs:207-427 | after every history, storage and counters agree with the reference that has no sequence numbers |
| JournalHistory.SequencesStayOrdered | coerce/src/persistent/journal/mod.rs:207-320 | across every history messages never decrease, snapshots strictly increase, the counter bounds both, and searches are filters |
| JournalHistory.RecoveryIsExact | coerce/src/persistent/journal/mod.rs:322-411 | recovery returns the newest snapshot and, in order, every later event except single messages written while the journal was at the snapshot |
| JournalHistory.HandledExactly | coerce/src/persistent/journal/mod.rs:367-395 | exactly the payloads whose type has a handler are kept, as often as they occur |
| JournalHistory.HandledAppend | coerce/src/persistent/journal/mod.rs:367-395 | and in their order, whatever is in between |
| JournalHistory.OnlyHandledIsRecovered | coerce/src/persistent/journal/mod.rs:355-411 | over every history, nothing without a handler is recovered, and every remembered event with one is, as often as it was written |
| JournalHistory.CompleteIffCareful | coerce/src/persistent/journal/mod.rs:254-411 | recovery is complete if and only if no single message was written at the newest snapshot |
| JournalHistory.BatchesAreRecovered | coerce/src/persistent/journal/mod.rs:207-233 | histories of batches, snapshots, compactions and restarts are recovered completely |
| JournalHistory.SnapshotFreeIsRecovered | coerce/src/persistent/journal/mod.rs:355-411 | histories without snapshots, single messages and restarts included, recover all that was ever written, in order, although sequences repeat after restarts |
| JournalHistory.MessageAfterSnapshotIsLost | coerce/src/persistent/journal/mod.rs:254-320 | any snapshot followed by any single message: the message is not recovered |
| JournalHistory.CompactionIsInvisible | coerce/src/persistent/journal/mod.rs:417-427 | taking every compaction out of any history changes no recovery |
| JournalHistory.CompactionClears | coerce/src/persistent/journal/mod.rs:417-427 | right after a compaction exactly the messages at the newest snapshot's sequence or above are stored |
| PersistRetry.WrittenOnce | coerce/src/persistent/journal/mod.rs:207-320 | a message, batch or snapshot that is stored is stored once, at the end, in order, and changes nothing stored before |
| PersistRetry.ShouldRetry | coerce/src/persistent/failure.rs:33-56 | a bounded retry tries again while fewer attempts than its maximum were made and then stops the actor, an unbounded one always tries again, and the other policies never |
| PersistRetry.Persist | coerce/src/persistent/actor.rs:31-214 | done means stored exactly once, anything else means nothing stored and no counter moved; all writes but the last failed; with `MaxAttempts` there are at most max(1, max_attempts), exactly so many and an error if all of those fail, and success otherwise; without retries there is one |
| PersistRetry.RecoverJournal | coerce/src/persistent/recovery.rs:23-76 | a recovery that is reported is the one of the stored entries, however many attempts it took and wherever they failed; their number is bounded in the same way |
| ShardHost.ShardHost.HandleEntity | coerce/src/sharding/host/request.rs:35-121 | buffered, sent or dropped by the state of a hosted shard, forwarded for a remote one, otherwise pending with an allocation asked for |
| ShardHost.ShardHost.HandleAllocated | coerce/src/sharding/host/mod.rs:177-249 | the shard is hosted here or known elsewhere, a shard that moves away is stopped, and pending requests are handled in order |
| ShardHost.ShardHost.HandleReady | coerce/src/sharding/host/mod.rs:251-283 | the shard is ready and its buffer is sent in order |
| ShardHost.ShardHost.HandleStop | coerce/src/sharding/host/mod.rs:292-326 | a hosted shard is stopping; only a ready one is told so |
| HostLedger.LedgerBalances | coerce/src/sharding/host/request.rs:35-121 | in every run each request is in exactly one of sent, dropped, buffered or pending, as often as it arrived |
| HostLedger.AllocatedSettles | coerce/src/sharding/host/mod.rs:177-249 | after an allocation is announced nothing for that shard is pending, and no other shard's queue changed |
| HostLedger.DiscardsAreExplained | coerce/src/sharding/host/mod.rs:177-326 | exactly which requests each event of any run discards: only for a stopping shard, or the buffer of a starting one that is stopped or moves away |
| HostLedger.StopIsHonouredIffReady | coerce/src/sharding/host/mod.rs:292-326 | a stop request reaches the shard, with its request id to report to, if and only if it is ready; one to a starting shard is forgotten |
| HostLedger.StopIsForgotten | coerce/src/sharding/host/mod.rs:251-326 | a run in which a shard stopped while it starts ends up ready and is never told to stop |
| HostLedger.OrderIsKept | coerce/src/sharding/host/mod.rs:177-283 | in runs whose events discard nothing, each shard's requests are sent in order of arrival and the rest wait in that order |
| HostTrack.ShardsAreTracked | coerce/src/sharding/host/mod.rs:177-372 | in every run whether a shard is absent, starting, ready or stopping here, and where else it is known to be, is what the events about that shard alone tell |
| HostTrack.AskedIsExact | coerce/src/sharding/host/request.rs:93-116 | in every run the coordinator is asked for an allocation exactly for each request whose shard is neither hosted nor known elsewhere |
| HostTrack.PendingWasAsked | coerce/src/sharding/host/request.rs:93-116 | so whatever is pending has been asked for |
| HostTrack.StopsAreExact | coerce/src/sharding/host/mod.rs:221-363 | in every run a shard is told to stop exactly when it moves away while starting or ready, or is asked to stop while ready; only then is the outcome reported |
| Shard.ShardActor.Recovered | coerce/src/sharding/shard/recovery.rs:50-78 | applies the journal and starts exactly the entities left in `Starting`, journaling nothing |
| Shard.ShardActor.RecoverEntities | coerce/src/sharding/shard/mod.rs:208-223 | starts each of those entities once |
| Shard.ShardActor.HandleAsk | coerce/src/sharding/shard/mod.rs:340-454 | delivers, buffers, starts the entity, or refuses with the reason |
| Shard.ShardActor.HandleStarted | coerce/src/sharding/shard/mod.rs:226-280 | the entity is active and its buffer is delivered in order |
| Shard.RestartedIffLastStarted | coerce/src/sharding/shard/recovery.rs:50-78 | for any records, the entities started again are exactly those whose last record is a start, with that start's recipe |
| Shard.PresentIffStarted | coerce/src/sharding/shard/recovery.rs:50-78 | for any records, the entities there are after recovery are exactly those last started rather than removed, with that start's recipe |
| Shard.FaithfulIffStored | coerce/src/sharding/shard/mod.rs:283-319 | a step keeps journal and live shard in agreement if and only if its start was stored or changes no recipe |
| Shard.UnstoredStartIsLost | coerce/src/sharding/shard/mod.rs:283-319 | a run in which an entity whose start was not stored serves a request, and nothing of it is left after a restart |
| Shard.ReplayMatchesLive | coerce/src/sharding/shard/mod.rs:208-454 | at any point of any run whose starts were stored, replay rebuilds the live entities with their recipes, across restarts |
| ShardLedger.AcceptedAreServed | coerce/src/sharding/shard/mod.rs:226-454 | in every run in which no start from outside drops waiting requests, each entity's accepted requests are delivered in the order in which they came and the rest wait in that order |
| ShardLedger.LineKeptIff | coerce/src/sharding/shard/mod.rs:322-338 | short of a restart, requests of an entity are lost if and only if a start from outside finds some waiting at it |
| ShardLedger.WaitingRequestIsDropped | coerce/src/sharding/shard/mod.rs:322-338 | a run in which an accepted request is delivered to nobody for that reason |
| ShardLedger.RefusalsAndStartsAreExact | coerce/src/sharding/shard/mod.rs:340-454 | in every run exactly the requests that are not accepted are refused, each with its reason, and exactly the starts that begin are in progress until their result |
| ShardLedger.ActiveIsExact | coerce/src/sharding/shard/mod.rs:226-280 | in every run an entity becomes active exactly when its start succeeds, and stays so until it is started anew or the shard restarts |
| Proxy.Proxy.HandleStarted | coerce/src/singleton/proxy/mod.rs:62-90 | the queue is passed on in order to the new singleton |
| Proxy.NothingIsLost | coerce/src/singleton/proxy/mod.rs:62-103 | for every interleaving, what was passed on followed by the queue is what was sent |
| Proxy.PointsAtTarget | coerce/src/singleton/proxy/mod.rs:62-103 | in every run the proxy is active exactly while a singleton has started and not stopped since, and points at the latest |
| Proxy.GoesToTarget | coerce/src/singleton/proxy/send.rs:55-77 | in every run each message is passed on to that singleton, and stays passed on |
| Heartbeat.Heartbeat.Sort | coerce/src/remote/heartbeat/mod.rs:254-262 | a permutation ordered by start time and then id |
| Heartbeat.Heartbeat.FirstHealthy | coerce/src/remote/heartbeat/mod.rs:264-282 | the healthy node before all healthy others, and none only if none is healthy |
| Heartbeat.Heartbeat.HandleTick | coerce/src/remote/heartbeat/mod.rs:203-306 | from the second tick on, an oldest healthy node that is not the recorded leader is recorded and announced |
| Heartbeat.OldestIsUnique | coerce/src/remote/heartbeat/mod.rs:254-262 | the oldest healthy node is unique, in whatever order the nodes are listed |
| Heartbeat.TickElectsOldest | coerce/src/remote/heartbeat/mod.rs:264-326 | a tick records the oldest healthy node if its id fits the signed field, and nobody otherwise |
| Heartbeat.LeaderIsOldest | coerce/src/remote/heartbeat/mod.rs:203-326 | so it is in every run from the second tick on |
| Heartbeat.QuietIffIdFits | coerce/src/remote/system/cluster.rs:41-60 | repeating a tick on an unchanged view announces nothing if and only if the leader's id is below 2^63 |
| Heartbeat.AnnouncedAgain | coerce/src/remote/system/cluster.rs:50-60 | a run in which a leader with such an id is announced on two ticks over the same view |
| Heartbeat.EqualViewsAgree | coerce/src/remote/heartbeat/mod.rs:254-282 | heartbeats with equal views record equal leaders |
| Heartbeat.MemberUpComesOnce | coerce/src/remote/heartbeat/mod.rs:286-341 | `MemberUp` is published at most once in any run |
| Heartbeat.OldestMeans | coerce/src/remote/heartbeat/mod.rs:254-262 | the oldest node has the earliest start time, an unknown one counting as zero, and among equals the smallest id |
| Heartbeat.PublishedIsExact | coerce/src/remote/heartbeat/mod.rs:264-341 | exactly when a tick publishes a change of leader and `MemberUp`, which node and members they name, and what it records |
| Heartbeat.NobodyIsElected | coerce/src/remote/heartbeat/mod.rs:264-282 | without a healthy node a tick publishes and records nothing |
| Heartbeat.MemberUpIff | coerce/src/remote/heartbeat/mod.rs:286-341 | in every run `MemberUp` has been published if and only if some tick after the first saw a big enough cluster whose oldest healthy node was not the recorded leader |
| ClientBuffer.RemoteClient.HandleWrite | coerce/src/remote/net/client/send.rs:74-133 | written when connected, buffered when idle or when the write fails, lost when terminated |
| ClientBuffer.RemoteClient.FlushBufferedWrites | coerce/src/remote/net/client/send.rs:43-67 | a prefix is written in order, the rest stays, and the byte count stays exact without underflow |
| ClientBuffer.RemoteClient.HandleConnect | coerce/src/remote/net/client/connect.rs:121-170 | on success connected and flushed, on failure as after a disconnection |
| ClientBuffer.RemoteClient.HandleDisconnected | coerce/src/remote/net/client/connect.rs:274-343 | a reconnection is scheduled until the attempts are used up; then the client is terminated |
| ClientBuffer.MessagesAreConserved | coerce/src/remote/net/client/send.rs:43-133 | in every run the byte count is the length of the buffer, and the messages offered are exactly those written, buffered or lost while terminated |
| ClientBuffer.OrderIffNotOvertaking | coerce/src/remote/net/client/send.rs:74-133 | a message joins the end of the line if and only if it is not written past different buffered ones |
| ClientBuffer.OrderIsKept | coerce/src/remote/net/client/send.rs:43-133 | in every run whose writes meet that condition, written messages followed by buffered ones are the messages offered, in order |
| ClientBuffer.WriteOvertakes | coerce/src/remote/net/client/send.rs:43-133 | a run of three events in which the second message is written before the first |
| ClientBuffer.ConnectFlushes | coerce/src/remote/net/client/connect.rs:121-160 | a new connection takes the waiting messages in order, exactly up to the first that it cannot write |
| ClientBuffer.TerminatedAfterEleven | coerce/src/remote/net/client/connect.rs:274-343 | in every run a client that is not connected has counted its failures since it last was, and is terminated by the eleventh in a row |
| ClientBuffer.StateAfter | coerce/src/remote/net/client/connect.rs:274-343 | what each event does to the state; every failure but the terminating one schedules a reconnection, that one removes the client, and only a terminated client loses messages |

## Left out

- Networking, framing, sessions, remote calls, timers, tracing, metrics, the HTTP interface, the Kubernetes and Redis providers and the macros: input and output, or wrappers over other libraries.
- Message encodings: messages are datatypes, and a value that cannot be serialised is an absent write.
- The node store, the actor registry and the hash of the shard allocator: a request carries its shard.
- Range reads of the journal and `Journal::clear`: recovery does not use them.
- Snapshots of a shard's state: nothing in the modelled files saves one.
- Node health and the minimum cluster size: each tick takes the statuses and the outcome of the size test as input.
- Membership beyond crash-stop: the managers' node set is fixed (the nodes the selector includes); nodes that join after `MemberUp` are not covered.
- Progress of the lease beyond `LeaseStarvation`: nothing is claimed about how long a request that is not lost takes.
- One owner of a shard across the cluster during a rebalance: the claims are about the coordinator's books and about each host.
- `Singleton::notify` through the proxy.
- The callbacks run when the leader changes, and the callbacks of a connecting client.
- The default error handlers of recovery (`on_recovery_err`, `on_recovery_failed`): recovery of each event is taken to succeed.
- Journal.Journal.WriteMessage: sequences and counters are unbounded integers, so overflow of 64 bits is not modelled; nor is the panic on a message type that the actor has not configured.
- LeaseManager.Manager.HandleStartResult: the notice to the node's own proxy is not modelled; `Proxy` takes it as an event.
- LeaseActors.OneActor: an actor is what the manager's state records; a stopping manager that begins anew forgets an actor that may still be stopping.
- ShardHost.ShardHost.HandleStop: the report to the requester is recorded with the stop and not sent when the actor has stopped.
- The single-node option, which records the node itself as the first leader.
- Journal.Storage.WriteMessage: a failed write stores nothing, which a storage provider has to ensure.
- PersistRetry.Persist: retrying until success ends because the failures ahead are finitely many.
- Heartbeat.Heartbeat.Sort: an insertion sort stands for the library's sort; both give the one order of the comparison.
- Coordinator.ShardCoordinator.PickHost: a search for the least load stands for sorting the hosts and taking the first ready one; ties are arbitrary, as hash map order makes them.
