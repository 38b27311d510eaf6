# freno: consensus, metric aggregation and health, in Dafny

freno throttles database clients and keeps its own nodes consistent with an embedded Raft
implementation.  This project models that Raft implementation (`internal/raft`) as a cluster of nodes
in arbitrary runs, the stateful parts the nodes are made of, and four smaller pieces of freno itself,
and proves what they are relied upon for.

`dafny verify dfyconfig.toml` checks everything.

## How the model is laid out

**Raft, as a step relation.**  `Node.dfy` holds one node as a value and what each handler makes of it;
`Cluster.dfy` holds the cluster, its messages and its steps.  `IsRun` allows any loss, duplication and
reordering of messages, restarts, and crashes inside `requestVote`, `electSelf` (before and between the
two writes of `persistVote`) and `appendEntries` (after the new term is on disk).  `IsLockStepRun` adds
the delivery of `replicateTo`: a request is delivered at most once and before the leader's next request
to that peer, or is lost, and so is its reply; and it leaves out only those crashes that put the term of
a new vote next to the candidate of an older one.  The proofs go from
`Election.dfy` over `LogMatching.dfy`, `Replication.dfy`/`LockStep.dfy` (one leader and one follower),
`ReplicaCount.dfy` (the tracker's counts), `LeaderCompleteness.dfy` and `Commitment.dfy` to the
statements about whole runs in `Safety.dfy`.  `Handlers.dfy` says of every handler exactly what it
answers and leaves behind, without the functions that define it; `Frontier.dfy` and `Progress.dfy` prove
the other half of safety, that what is due happens: who has the votes leads, what is committed is
applied, and a leader commits exactly what a majority of replicators has confirmed.  `Witness.dfy` builds
a run in which two of three nodes elect, replicate, commit and apply.  `Boundaries.dfy` shows why lock-step delivery, requests
read in one piece and untorn votes are assumed where they are.

**Raft, in place.**  `Server.dfy` (`RaftServer`), `InflightLog.dfy`, `SnapshotServer.dfy`,
`LogCache.dfy`, `VerifyLeader.dfy` (`VerifyFuture`) and `BatchFilter.dfy` (`Leader`) are classes whose
methods change fields, arrays and maps with the loops of the source.  Each method is proved equal to
the function on values that the step relations use, so the theorems are about these bodies.
`VerifyExact.dfy` adds that a leadership verification is answered by the quorum's decision and by
nothing else.
`Backtracking.dfy` runs the `replicateTo` loop on two `RaftServer` objects.

**The rest of freno.**  `Basics.dfy` holds what all parts share; `Aggregation.dfy` (MySQL probes),
`Lease.dfy` (election through a shared table), `ShareDomain.dfy`, `HealthRecord.dfy` and
`ThrottlerServer.dfy` (checks and shared-domain health).

### Assumptions

- Membership is fixed and duplicate-free; peer changes appear only in the batch filter.
- Each handler is one atomic step, apart from the crashes above, and so is building one AppendEntries
  request: the last index, the commit index and the entries are read together.  The source reads the
  last index in `replicate` and the commit index later, in `setupAppendEntries`, while the main loop
  runs.  What is assumed of this is that the last index a replicator has read never goes back, and that
  a request without entries comes from a reading of the whole log;
  `Boundaries.AdoptedCommitIsShared` says what an empty request from an older reading can do.  A
  replicator acts only while its node leads in its term.
- Heartbeats are handled in the main loop and are their own kind of message, as `heartbeat` builds them.
- Timeouts, step-downs and losses may happen at any moment.  A peer answers a vote request of one
  election at most once (one RPC per peer).
- Storage calls succeed, except in `LogCache.RefusedBatch`.  `MaxAppendEntries` is at least 1, as
  configuration validation requires.
- The guards of `Cluster.Enabled` include that the acting node is well formed, because the handlers
  index its log and its tracker; `Safety.NodesStayWellFormed` proves that this is always so.
- `History` in `Cluster.dfy`, `cast`/`sent` in `VerifyLeader.dfy`, `lease` in `Lease.dfy` and `full` in
  `Snapshots.dfy` are history variables: steps write them and no step reads them.
- Log indexes and terms are unbounded; metric values, thresholds and ratios are reals.

### Results worth knowing

- `appendEntries` clears everything from the first new index on, where section 5.3 of the Raft paper
  clears only from the first conflict.  `Boundaries.CodeMatchesPaper` says exactly when the two differ,
  and `Boundaries.LateRequestTruncates` exactly when a late request costs the follower entries it has
  already acknowledged.  Lock-step delivery rules this out.
- A follower adopts the smaller of the leader's commit index and its own last index, where the Raft
  paper takes the index of the last new entry.  With a request that has no entries and a commit index
  read after its last index, it can commit and apply a stale entry of its own
  (`Boundaries.LateCommitIndexAppliesStale`); `Boundaries.AdoptedCommitIsShared` says exactly when the
  adopted index is safe.
- A crash between the two writes of `persistVote` leaves a node that votes, in that term, for its
  previous candidate without looking at logs; a node that never voted still looks
  (`Boundaries.TornVoteGrants`).  Election Safety and Log Matching survive every such crash; the theorems
  that need up-to-date votes leave out exactly the crashes with a previous candidate.
- `replicateTo` stops when the next index has passed the index it was asked for.  That implies agreement
  unless the walk starts beyond it and the first rejection does not bring it back
  (`Backtracking.Converges`, `Backtracking.WalkStopsShort`); this can concern only the last call for a
  removed peer, which names an older index.
- `LogCache.StoreLogs` fills the buffer before the store is asked.  When the store refuses a batch, the
  cache may return entries that the store does not have; `LogCache.RefusedBatch` says exactly when.
- A negative `IgnoreHostsCount` acts like 0.
- Two services may both remember that they lead (`Lease.BothBelieve`), but only after the row one of
  them read has expired (`Lease.OneLeaderBelieves`).

## Model

| member | source | states |
|---|---|---|
| Safety.StateMachineSafety | internal/raft/raft.go:1170-1196 | In every lock-step run, whatever two nodes applied at an index, at whatever moments and across elections, crashes and restarts, is the same entry |
| Safety.LeaderCompletenessTheorem | internal/raft/raft.go:1495-1517 | An index that was ever on the committed list of a leader is, with everything before it, in the log of every leader of a later term, whenever it leads |
| Safety.LogMatchingTheorem | internal/raft/raft.go:1367-1419 | Under any loss, duplication and reordering, two logs that hold an entry of the same index and term, at whatever moments, are identical up to it |
| Safety.ElectionSafety | internal/raft/raft.go:1460-1517 | At most one node ever leads in a term, at whatever moments, over restarts and even when a crash separates the two writes of a vote |
| Safety.GenuineQuorum | internal/raft/inflight.go:152-213 | An index on a leader's committed list is stored, with the leader's entries up to it, by a majority of distinct nodes |
| Safety.RangesDisjoint | internal/raft/replication.go:508-518 | The index ranges that one replicator passes to CommitRange in its leader's term never overlap and come in ascending order |
| Safety.SafeTruncationTheorem | internal/raft/raft.go:1394-1428 | An accepted request keeps every committed and applied entry, never lowers the commit index, and the commit index adopted lies within the prefix shared with the leader |
| Safety.NodesStayWellFormed | internal/raft/raft.go:781-786 | The tracker and the replicators of every node fit its log in every state of every run, so no handler indexes out of bounds |
| Safety.VotesAreUpToDate | internal/raft/raft.go:1484-1517 | Every granted vote of a lock-step run went, when it was first cast, to a candidate whose log at its election was at least as up to date as the voter's, over restarts and repeated requests |
| Progress.MajorityLeads | internal/raft/raft.go:703-734 | In every run, counting an answer makes a candidate the leader if and only if the granted answers it has counted since it stood are then more than half of the members |
| Progress.CandidateTally | internal/raft/raft.go:703-734 | A node that is still a candidate has counted exactly the granted answers since it stood, and they are not more than half |
| Progress.AppliedKeepsUp | internal/raft/raft.go:1170-1196 | In every run and at every moment a node has applied everything up to its commit index |
| Progress.AppliedIsLogPrefix | internal/raft/raft.go:1170-1196 | In every lock-step run what a node has applied is the beginning of its log, at least up to its commit index |
| Progress.CommitStepApplies | internal/raft/raft.go:913-925 | After a leader's commit step everything listed is applied, in order and from the log, and the commit index is the last one listed |
| Progress.RequestStepApplies | internal/raft/raft.go:1421-1428 | After a request that raises a follower's commit index, the follower has applied up to that index |
| Progress.TrackedExactly | internal/raft/inflight.go:152-213 | In every lock-step run a leader tracks an entry of its term if and only if no more than half of the members, itself included, have confirmed it |
| Progress.CommitsExactly | internal/raft/raft.go:913-925 | A commit step commits an entry of the leader's term if and only if more than half of the members have confirmed it |
| Progress.RunProgress | internal/raft/inflight.go:186-209 | In every lock-step run nothing with a quorum stays tracked, and the committed list holds the indexes after the commit index, in order |
| Witness.TwoOfThreeApply | internal/raft/raft.go:703-925 | A lock-step run of three nodes, one of them silent, in which an entry is dispatched by an elected leader, stored, committed, and applied by leader and follower |
| Frontier.NotifyFrontier | internal/raft/inflight.go:186-209 | The NOTIFY loop hands out the next indexes in order, each with its quorum, and stops only where the next one has none |
| Frontier.CommitEachFrontier | internal/raft/inflight.go:152-163 | So does a committed range, with one vote more for each of its indexes |
| Handlers.VoteIsGivenWhen | internal/raft/raft.go:1437-1518 | A vote is granted if and only if no other leader is known, the term is not older, and the node has voted for this candidate or has not voted in the term and the candidate's log is at least as up to date; and the term the answer carries |
| Handlers.VoteRequestLeaves | internal/raft/raft.go:1460-1517 | Term, vote term and candidate after a vote request, and that nothing else changes unless the term is newer |
| Handlers.ElectionStarts | internal/raft/raft.go:1639-1702 | A new term, a vote for itself, no votes counted, and a request that describes the log |
| Handlers.LeadsWithMajority | internal/raft/raft.go:726-734 | A candidate leads after an answer if and only if its term is not newer and more than half of the members have granted |
| Handlers.CountingLeaves | internal/raft/raft.go:703-734 | What an answer does to term, tally and role, and the state a new leader starts with |
| Handlers.CommittedIsApplied | internal/raft/raft.go:913-925 | Everything listed is applied, from the log and in order, and nothing beyond it; the commit index is the last one listed |
| Handlers.DispatchLeaves | internal/raft/raft.go:1130-1166 | The commands are appended in order with the leader's term |
| Handlers.RequestCarries | internal/raft/replication.go:435-491 | Which term, commit index, previous entry and entries a leader's request carries |
| Handlers.RequestIsAcceptedWhen | internal/raft/raft.go:1336-1392 | A request is accepted if and only if its term is not older and the previous entry is there; and what the answer carries |
| Handlers.RequestLeavesLog | internal/raft/raft.go:1394-1419 | The log after a request |
| Handlers.RequestIsApplied | internal/raft/raft.go:1421-1428 | The commit index after a request, and that everything up to it is applied from the log |
| Handlers.RequestLeavesRole | internal/raft/raft.go:1344-1365 | A request that is not older makes the node follow its sender; a vote never changes |
| Handlers.HeartbeatLeaves | internal/raft/replication.go:292-325 | A heartbeat makes a node that is not ahead follow its sender and leaves log and commit index alone |
| Handlers.ReplyLeaves | internal/raft/replication.go:166-192 | Next and match index, stop and confirmations after a reply, for its replicator and no other |
| Handlers.RestartKeeps | internal/raft/raft.go:179-245 | A restart keeps exactly term, vote and log |
| Election.ElectionStep | internal/raft/raft.go:1639-1722 | Every step, crashes inside requestVote, electSelf, persistVote and appendEntries included, keeps: recorded votes are never given twice in a term, and winners hold a majority of them |
| Election.WinIsNew | internal/raft/raft.go:703-734 | A candidate that reaches the quorum wins a term nobody has won |
| Election.MajoritiesMeet | internal/raft/raft.go:1092-1094 | Two sets of quorum size share a member |
| LogMatching.LogStep | internal/raft/replication.go:435-491 | Every step keeps: each log, and each request on its way, is up to each of its entries the log of the leader that created that entry |
| LockStep.LockStepStep | internal/raft/replication.go:136-199 | Every lock-step step keeps, per leader and follower: what is acknowledged is shared, what is confirmed was acknowledged, ranges ascend, and no late request can shorten the shared prefix |
| ReplicaCount.RangeCounts | internal/raft/inflight.go:152-163 | A confirmed range raises the count of exactly its indexes by one distinct node, and what becomes committed by it has a quorum |
| ReplicaCount.StartRangeCounts | internal/raft/raft.go:1138-1157 | Newly dispatched entries are counted for the leader alone |
| LeaderCompleteness.UpToDateHas | internal/raft/raft.go:1495-1507 | A candidate that passes the up-to-date check has every entry of the voter that can still be chosen |
| LeaderCompleteness.SafeStep | internal/raft/raft.go:781-786 | Every lock-step step keeps: later leaders, candidates with such voters, and nodes that stored it, have every entry that a majority stored or still may |
| Commitment.CommitInvStep | internal/raft/raft.go:913-925 | Every lock-step step keeps: commit indexes, applied entries, committed lists and requests on their way lie within prefixes that a majority stored |
| Commitment.BackedIsChosen | internal/raft/inflight.go:26-38 | What a quorum of replicators confirmed, a majority of nodes has stored |
| Commitment.SafeTruncation | internal/raft/raft.go:1400-1428 | The state form of safe truncation, against the leader's recorded log |
| Boundaries.LateRequestTruncates | internal/raft/raft.go:1400-1408 | A request leaves the follower what it shares with the leader if and only if it is empty or reaches at least as far |
| Boundaries.DuplicateLosesEntry | internal/raft/raft.go:1400-1419 | A request delivered twice costs the follower an entry acknowledged in between |
| Boundaries.AdoptedCommitIsShared | internal/raft/raft.go:1421-1428 | The commit index a follower adopts lies in what it then shares with the leader if and only if the request has entries or the follower has no other entry up to that index |
| Boundaries.LateCommitIndexAppliesStale | internal/raft/replication.go:435-446 | An empty request whose commit index was read later than its last index can make a follower apply an entry the leader does not have |
| Boundaries.CodeMatchesPaper | internal/raft/raft.go:1394-1419 | The stored log is the one section 5.3 of the Raft paper asks for if and only if the request is empty, conflicts, or reaches the end of the log |
| Boundaries.TornVoteGrants | internal/raft/raft.go:1705-1713 | After a crash between the two writes, who gets the vote of that term: exactly the previous candidate, or an up-to-date one if there was none |
| Boundaries.TornVoteSkipsCheck | internal/raft/raft.go:1485-1493 | Such a vote can go to a candidate whose log is behind |
| Server.RaftServer.RequestVote | internal/raft/raft.go:1437-1518 | The handler turns the server's value and answer into those of the vote step of the runs |
| Server.RaftServer.ElectSelf | internal/raft/raft.go:1639-1702 | New term, vote for itself and request as in the election step; leadership state is dropped |
| Server.RaftServer.PersistVote | internal/raft/raft.go:1705-1713 | Both parts of the vote are written |
| Server.RaftServer.CountVote | internal/raft/raft.go:703-734 | One turn of the tally is the tally step; the quorum is a majority of the distinct members |
| Server.RaftServer.SetupLeader | internal/raft/raft.go:781-846 | A new leader has an empty tracker of its own and one replicator per peer after its last entry |
| Server.RaftServer.BecomeFollower | internal/raft/raft.go:789-824 | Leaving leadership cancels the tracker and drops the replicators |
| Server.RaftServer.DispatchLogs | internal/raft/raft.go:1130-1166 | The batch gets the next indexes and the current term, is appended, and is tracked with a majority quorum each |
| Server.RaftServer.ProcessLogs | internal/raft/raft.go:1170-1196 | The loop applies exactly the entries after the last applied one, in order, up to the index |
| Server.RaftServer.ApplyCommitted | internal/raft/raft.go:913-925 | The committed list is committed and applied in order, once |
| Server.RaftServer.NewLogs | internal/raft/replication.go:478-491 | The loop copies the leader's entries from the next index on, at most the configured number |
| Server.RaftServer.SetupAppendEntries | internal/raft/replication.go:435-474 | The request built is the one the runs send |
| Server.RaftServer.PreviousMatches | internal/raft/raft.go:1367-1392 | True if and only if the log holds an entry of that term at that index, or none is asked for |
| Server.RaftServer.AppendEntries | internal/raft/raft.go:1336-1434 | The handler turns the server's value and answer into those of the append step of the runs |
| Server.RaftServer.UpdateLastAppended | internal/raft/replication.go:508-522 | Entries sent are counted once and the indexes move past them; an empty request changes nothing |
| Server.RaftServer.Backtrack | internal/raft/replication.go:183-192 | After a rejection the next index is the smaller of one less and the follower's end, and at least 1 |
| Server.RaftServer.HandleReply | internal/raft/replication.go:166-192 | A reply has the effect of the reply step of the runs |
| Backtracking.ReplicateTo | internal/raft/replication.go:136-199 | The loop terminates; if it ends without a lost message or a newer term, the follower's log agrees with the leader's up to the index asked for if and only if the walk can converge or they agreed before |
| Backtracking.Round | internal/raft/replication.go:150-192 | One round makes progress in one direction, or stops, or a message is lost |
| Backtracking.RoundMakesProgress | internal/raft/replication.go:175-192 | Where logs have met they agree up to the new, higher next index; elsewhere the next index falls strictly and never to 0 |
| Backtracking.PrevIsMet | internal/raft/replication.go:450-474 | A built request is accepted exactly when the logs hold an entry of the same term before the next index |
| Backtracking.RunLogsMatch | internal/raft/raft.go:1367-1392 | The logs of any two nodes at any two moments of any run satisfy what the walk needs |
| Backtracking.WalkStopsShort | internal/raft/replication.go:194-199 | A walk that starts past the index asked for can end without agreement |
| Inflight.InflightRefinement | internal/raft/inflight.go:67-213 | Over any run of Start, StartAll, Commit, CommitRange and Committed, what is handed out plus queued is the longest prefix of started entries that all have their own quorum, and the rest is tracked at consecutive indexes |
| Inflight.InflightConservation | internal/raft/inflight.go:86-140 | Handed out, queued and tracked futures are, in that order, exactly the started ones, each once |
| Inflight.CommitRangeIsCommitEach | internal/raft/inflight.go:150-163 | Skipping the indexes below minCommit loses no vote |
| Inflight.CommitEachCounts | internal/raft/inflight.go:166-213 | A range adds one vote to each of its tracked indexes, and only entries with their quorum leave the tracker |
| InflightLog.InflightLog.CommitIndex | internal/raft/inflight.go:166-213 | The in-place commit is the commit of the refinement, never looks up a missing operation, never sends on a closed channel, and notifies exactly when something became ready |
| InflightLog.InflightLog.HandOver | internal/raft/inflight.go:186-209 | The NOTIFY jump terminates and hands over the longest ready run |
| InflightLog.InflightLog.StartOne | internal/raft/inflight.go:86-97 | Tracking and the leader's own vote |
| InflightLog.InflightLog.CommitSpan | internal/raft/inflight.go:152-163 | The loop commits the range |
| InflightLog.InflightLog.Take | internal/raft/inflight.go:135-140 | Everything ready is handed out, and only once |
| InflightLog.InflightLog.Cancel | internal/raft/inflight.go:102-132 | Every tracked and every queued future is answered once, whatever the map's order, nothing is left, and the channel is closed |
| Snapshots.ReplayEquivalence | internal/raft/raft.go:1883-1915 | After any interleaving of append, overwrite, apply, snapshot, compaction and restart, the remaining log folded over the newest snapshot gives the state of the full log |
| Snapshots.NeverPanics | internal/raft/raft.go:1170-1196 | Every index after the last applied one, up to the last, is in the store, so processLogs never misses an entry |
| Snapshots.DrainedIsFold | internal/raft/raft.go:537-606 | A state machine with an empty queue is in the state of the log up to the last applied entry, however often the node restarted |
| Snapshots.StepKeeps | internal/raft/raft.go:1786-1878 | Every step keeps: snapshots, captured or persisted, are states of prefixes, and nothing after the newest one is missing from the store |
| Snapshots.FsmStepKeeps | internal/raft/raft.go:591-606 | Entries that never reach the state machine do not change what a snapshot at its index means |
| Snapshots.CompactionKeeps | internal/raft/raft.go:1858-1876 | An entry survives compaction if and only if the snapshot does not cover it, it is among the trailing logs, or there are too few logs to truncate |
| Snapshots.ProcessReaches | internal/raft/raft.go:1170-1215 | Processing reaches the index and queues exactly the commands and barriers up to it, in order |
| Snapshots.FsmTakes | internal/raft/raft.go:590-605 | A command is applied, anything else is not, and the machine's index moves |
| Snapshots.SnapshotTakes | internal/raft/raft.go:564-588 | Capture and persist make the newest snapshot the state of the consumed prefix, whenever something was consumed |
| Snapshots.CompactionDeletes | internal/raft/raft.go:1850-1878 | Compaction deletes exactly what the newest snapshot covers and the trailing logs do not |
| Snapshots.RestartRestores | internal/raft/raft.go:1883-1915 | A new process has the stored log and the state of the newest snapshot |
| SnapshotServer.SnapshotServer.DispatchLogs | internal/raft/raft.go:1135-1160 | New entries follow the last index of log and snapshot |
| SnapshotServer.SnapshotServer.StoreNew | internal/raft/raft.go:1394-1418 | The suffix goes and the new entries are stored, entry by entry |
| SnapshotServer.SnapshotServer.ProcessLogs | internal/raft/raft.go:1170-1215 | Commands and barriers are queued in order |
| SnapshotServer.SnapshotServer.Apply | internal/raft/raft.go:590-605 | One queued entry reaches the state machine |
| SnapshotServer.SnapshotServer.TakeSnapshot | internal/raft/raft.go:564-588 | A snapshot of the consumed prefix, or ErrNothingNewToSnapshot right after a start |
| SnapshotServer.SnapshotServer.PersistSnapshot | internal/raft/raft.go:1814-1836 | The snapshot becomes the newest one |
| SnapshotServer.SnapshotServer.CompactLogs | internal/raft/raft.go:1850-1878 | The compaction step of the runs, FirstIndex being the store's first index |
| SnapshotServer.SnapshotServer.Restart | internal/raft/raft.go:1883-1915 | A new process starts from the newest snapshot and the stored log |
| LogCache.CacheCoherence | internal/raft/log_cache.go:33-79 | Over every sequence of successful StoreLogs and of DeleteRange calls, with any capacity, batches and collisions, GetLog returns what the store returns |
| LogCache.CoherentIsBacked | internal/raft/log_cache.go:33-47 | Reading through the cache is reading the store if and only if every cached record is in the store |
| LogCache.RefusedBatch | internal/raft/log_cache.go:53-62 | After a batch the store refused, the cache agrees with the store if and only if the records that stayed in the buffer were stored already |
| LogCache.RefusedRecordIsSeen | internal/raft/log_cache.go:53-62 | One refused record can be read from the cache |
| LogCache.InsertedSlot | internal/raft/log_cache.go:53-62 | A slot holds the last record of the batch that belongs there, or what it held before |
| LogCache.LogCache.GetLog | internal/raft/log_cache.go:33-47 | The record of the store, or none |
| LogCache.LogCache.StoreLogs | internal/raft/log_cache.go:53-62 | The loop fills the ring from left to right and stays coherent |
| LogCache.LogCache.DeleteRange | internal/raft/log_cache.go:72-79 | An empty buffer of the same size, coherent with the shortened store |
| LogCache.NewLogCache | internal/raft/log_cache.go:22-31 | A capacity that is not positive is refused, every other gives a coherent cache |
| VerifyLeader.VerifiedByQuorum | internal/raft/future.go:163-182 | A future succeeds only if the leader and distinct followers forming a quorum said yes before any said no |
| VerifyLeader.VotesOnce | internal/raft/replication.go:58-69 | In any interleaving each follower votes on a future at most once, and all voters are peers of one leadership |
| VerifyLeader.NotifiedOnce | internal/raft/future.go:167-181 | A future is sent on its channel at most once |
| VerifyLeader.AnsweredOnce | internal/raft/future.go:77-87 | The first answer stands |
| VerifyLeader.StepKeeps | internal/raft/raft.go:927-943 | Every step keeps the account of votes, ballots on their way and waiting lists |
| VerifyLeader.VerifyKeeps | internal/raft/raft.go:1028-1050 | A future is shown to every replicator of the leadership once |
| VerifyExact.TakenIsDecided | internal/raft/raft.go:927-943 | In every run, a future that was shown and comes back unanswered is answered yes, and the node leads on, if and only if a quorum said yes before any said no; otherwise the answer is no and the node stops leading |
| VerifyExact.TakenIsShown | internal/raft/raft.go:1028-1050 | A new future is shown to every replicator of the leadership, succeeds at once in a cluster of one, and is refused by a node that does not lead |
| VerifyExact.NotifiedWhenDecided | internal/raft/future.go:163-182 | A future has been sent on its channel if and only if a quorum said yes or someone said no |
| VerifyExact.EveryoneIsAsked | internal/raft/replication.go:58-69 | The word of every follower on a shown future is on its list, on its way, or cast |
| VerifyExact.WordIsGiven | internal/raft/replication.go:58-69 | A follower's word goes to everything it was asked, and is cast as given |
| VerifyExact.NoneLeftWaiting | internal/raft/raft.go:789-824 | A node that does not lead has answered every future that was shown |
| VerifyExact.StepExact | internal/raft/raft.go:927-943 | Every step keeps the account of who was asked, who has answered and what is decided |
| VerifyLeader.VerifyFuture.Vote | internal/raft/future.go:163-182 | The vote of the runs, and whether it notifies |
| VerifyLeader.VerifyFuture.Answer | internal/raft/future.go:77-87 | Only the first response is kept |
| BatchFilter.BatchConservation | internal/raft/raft.go:960-995 | Kept and answered futures together are the gathered ones, each answered with one error |
| BatchFilter.ExaminedOnce | internal/raft/raft.go:960-995 | The swap-remove loop examines every gathered future exactly once |
| BatchFilter.NothingPastSelfRemoval | internal/raft/raft.go:962-995 | A future is refused with ErrNotLeader if and only if an accepted removal of the leader was examined before it |
| BatchFilter.VerdictIs | internal/raft/raft.go:962-995 | Until a removal of the leader is accepted, adding a member and removing a stranger get their errors and everything else is kept, where members are those of the last accepted change that names them |
| BatchFilter.MembersAfter | internal/raft/raft.go:1220-1254 | The membership that the accepted changes so far have left |
| BatchFilter.ApplyIs | internal/raft/raft.go:1220-1254 | Which peers an accepted change leaves, that every peer stays replicated to, and that only removing the leader makes it step down |
| BatchFilter.Leader.Filter | internal/raft/raft.go:960-1004 | The in-place loop terminates, leaves exactly the kept futures in front, in the order examined, and answers the others |
| BatchFilter.Leader.Decide | internal/raft/raft.go:963-994 | One future is kept or answered, and an accepted change takes effect before the next is examined |
| BatchFilter.Leader.PreparePeerChange | internal/raft/raft.go:1098-1126 | Known peers are not added, unknown ones not removed, each with its error |
| BatchFilter.Leader.ProcessLog | internal/raft/raft.go:1220-1254 | The peer set before the commit, and replication to every peer in it |
| BatchFilter.ExcludePeer | internal/raft/util.go:89-97 | The other peers, in order |
| BatchFilter.PeerContained | internal/raft/util.go:100-107 | Membership |
| Aggregation.AggregateProbes | pkg/throttle/mysql.go:11-80 | Success if and only if every probe that is not excluded has a result, the errors fit in the allowance and a value remains; the metric is then the value of rank n-1-d among the n values |
| Aggregation.OrderDoesNotMatter | pkg/throttle/mysql.go:23-47 | Any two orders of the same probes give the same verdict and the same value |
| Aggregation.Collect | pkg/throttle/mysql.go:22-51 | The first loop keeps the values and spends a token per error, or stops at the first probe without a result or with an error no token is left for, and returns what that probe says |
| Aggregation.Worst | pkg/throttle/mysql.go:55-78 | The second loop ignores min(tokens, n-1, values above the threshold) of the worst values |
| Aggregation.WorstInAny | pkg/throttle/mysql.go:52-54 | The rank is taken in the one ascending arrangement of the values there is |
| Aggregation.AboveAreLast | pkg/throttle/mysql.go:63-70 | In ascending order the values above the threshold are the last ones |
| Aggregation.ReadIs | pkg/throttle/mysql.go:23-47 | Which probes are excluded, missing, forgiven, broken or good |
| Aggregation.IgnoredIs | pkg/throttle/mysql.go:55-78 | Only values above the threshold are ignored, no more than there are tokens and never all, and no more could be |
| Aggregation.Sort | pkg/throttle/mysql.go:52-54 | An ascending arrangement of the same values |
| Lease.DisplacedOnlyWhenExpired | pkg/group/mysql.go:261-275 | Over any interleaving of attempts and any nondecreasing clock, a row changes holder only at an attempt that finds the last renewal more than five seconds ago |
| Lease.RenewingHolderStays | pkg/group/mysql.go:261-275 | A holder whose row never expires is never displaced |
| Lease.RenewedByHolder | pkg/group/mysql.go:261-275 | The renewal time of a row is the clock of an attempt of its holder |
| Lease.AttemptDisplaces | pkg/group/mysql.go:261-275 | An attempt changes the holder if and only if another one's row has expired, renews if and only if the row is then its own, and changes nothing otherwise |
| Lease.AttemptTakes | pkg/group/mysql.go:261-275 | The first attempt in a domain takes the row, and an attempt touches no other domain |
| Lease.ReadIs | pkg/group/mysql.go:299-315 | A service reads itself as leader if and only if it holds the row, and otherwise who does |
| Lease.RefreshRemembers | pkg/group/mysql.go:140-157 | A service remembers what it read |
| Lease.OneLeaderReads | pkg/group/mysql.go:299-315 | At most one service of a domain reads itself as leader |
| Lease.OneLeaderBelieves | pkg/group/mysql.go:140-157 | Two services remember leadership at once only after the row one of them read has run out |
| Lease.BothBelieve | pkg/group/mysql.go:140-157 | A run after which two services both remember that they lead |
| Lease.ElectionTable.AttemptLeadership | pkg/group/mysql.go:261-275 | The upsert, its assignments evaluated from left to right |
| ShareDomain.NoHealthSnowball | pkg/throttle/check.go:80-93 | Two runs that agree on everything of a service's own give it the same health record and report, whatever other services report, and whenever |
| ShareDomain.RunErases | pkg/throttle/throttler.go:664-704 | Leaving out all reports of other services changes nothing in a run but the cache of those reports |
| ShareDomain.OwnCheckIgnoresReports | pkg/throttle/check.go:39-95 | The check of the freno app does not depend on other services |
| ShareDomain.LocalCheckErases | pkg/throttle/check.go:155-171 | Neither does what a local check records |
| ShareDomain.ReportsThrottleOthers | pkg/throttle/check.go:80-93 | Another app's check depends on the reports if and only if its own metric would let it pass and the metric is reported unhealthy for a second or more |
| ShareDomain.CheckPasses | pkg/throttle/check.go:39-95 | An app passes if and only if it is named, not denied, its metric is known and within the threshold in force, and, unless it is freno itself, no other service reports the metric unhealthy |
| HealthRecord.StatusIs | pkg/throttle/check.go:39-95 | Which of 200, 404, 417, 429 and 500 a check gets, by throttled apps, cached value, threshold and reports |
| HealthRecord.CheckShows | pkg/throttle/check.go:50-58 | Which value and threshold the answer shows, and that an app kept out sees neither |
| HealthRecord.OtherStoresNotFound | pkg/throttle/check.go:98-111 | Stores of any other type are not found, and such a check changes nothing |
| HealthRecord.CheckDemotesWhen | pkg/throttle/check.go:72-79 | A check makes low-priority requests fail for a second if and only if it is an ordinary one over the threshold, and changes nothing else |
| HealthRecord.LocalCheckRecords | pkg/throttle/check.go:155-171 | A local check marks the metric healthy now if and only if it is one of a MySQL store with a threshold, the freno app is not throttled and the unexpired cached value is within the threshold |
| HealthRecord.LocalCheckDemotesWhen | pkg/throttle/check.go:155-162 | What else a local check changes: only what the shared-domain app's check leaves for low-priority requests |
| HealthRecord.ReportIsTimeSinceHealthy | pkg/throttle/throttler.go:633-652 | After any run a service reports, of each metric, the time since the last local check that found it healthy, and nothing of a metric that never was |
| HealthRecord.CollectCaches | pkg/throttle/throttler.go:664-704 | A leader caches the worst report of each metric for five seconds, others cache nothing |
| ShareDomain.WorstIsMax | pkg/base/metric_health.go:24-35 | The aggregate of a metric is the worst of the reports that mention it |
| ShareDomain.Split | pkg/throttle/check.go:143-152 | A metric name splits if and only if it has exactly one slash, and the parts give the name back |
| ThrottlerServer.ThrottlerServer.IsThrottled | pkg/throttle/throttler.go:548-567 | An app is denied in the store or anywhere, by an entry that has not expired, with its ratio |
| ThrottlerServer.ThrottlerServer.RequestMetric | pkg/throttle/throttler.go:654-662 | Denied apps get no metric |
| ThrottlerServer.ThrottlerServer.CheckApp | pkg/throttle/check.go:39-111 | The answer and the low-priority record of the runs |
| ThrottlerServer.ThrottlerServer.LocalCheck | pkg/throttle/check.go:155-171 | The metric is marked healthy exactly when the freno app's own check is fine |
| ThrottlerServer.ThrottlerServer.SecondsSince | pkg/throttle/throttler.go:706-712 | What the shared domain reports about a metric, 0 when nothing recent |
| ThrottlerServer.ThrottlerServer.CollectHealth | pkg/throttle/throttler.go:664-704 | Only a leader collects, and the worst report of each metric is cached |
| ThrottlerServer.Aggregate | pkg/base/metric_health.go:24-35 | The loop keeps the worse report of each metric, in whatever order the map is walked |

## Left out

- Server.RaftServer.SetupAppendEntries: leaves out a previous entry that only the last snapshot still knows, because the node of the cluster proofs keeps its whole log.
- Backtracking.ReplicateTo: leaves out the branch that sends a snapshot, for the same reason.
- A crash inside appendEntries between DeleteRange and StoreLogs, which leaves a shorter log.
- Dynamic membership (AddPeer, RemovePeer, SetPeers, EnableSingleNode) in the cluster proofs: several uncommitted peer changes may be in flight, and freno's documentation treats the peer list as static.
- InstallSnapshot and sendLatestSnapshot in the cluster proofs: restores and pending commits reach the state machine on separate channels, so they need an ordering assumption of their own. Snapshots and compaction are modelled on one node.
- Pipelined replication, the heartbeat fast path and timers: they relax lock-step delivery and atomicity; timeouts are steps that may happen at any moment.
- StartAsLeader: documented as able to cause split brain.
- The peer entry a new leader dispatches first is an ordinary dispatch that may happen at any time; nothing proved depends on it coming first.
- Falling back to an older snapshot when the newest cannot be opened, and the reaping of old snapshots.
- Storage errors in the handlers (they answer without success or panic), apart from the log cache.
- Transports, connection pools, message encoding, BoltDB, snapshot files, and InmemStore as a log store.
- freno's own state machine: an abstract machine with a pure step takes its place.
- ForceLeadership, Reelect and RegisterHealth of the MySQL backend: operator overrides and health records. Failed database calls change nothing in the model.
- ThrottleApp's own expiry handling, skipped hosts and recent apps: throttle entries are set and removed as given. Asynchronous cache writes of a check are part of its step.
- The HTTP API, configuration reading, HAProxy, ProxySQL, Vitess and memcache clients, and metrics gauges.
- NaN, infinities and rounding of floating-point values.
