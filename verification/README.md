# RaftDB in Dafny

This project models RaftDB, a key-value store replicated by a Raft implementation of its own, and
proves what the repository is for: in every run with lost, delayed, duplicated and reordered messages
and crashes at any point, all replicas apply one and the same history, and a write that a client was
told about is in it.

`dafny verify dfyconfig.toml` checks the whole project.

## How it is built

The model has three levels, and each is proved to follow the one above it.

1. **The protocol** (`protocol*.dfy`, `logs.dfy`). Raft on logs that are never compacted. A handler is a
   short sequence of events (observe a term, step down, write the log, acknowledge, learn the commit
   index), and a crash in the middle of a handler is a prefix of that sequence followed by a restart. A
   crash in the middle of an install is an event of its own, which may leave a log with a stale tail. The
   history remembers every vote, acknowledgement, request and leader. `ProtocolInvariant.Inv` is the
   inductive invariant: every log, up to such a tail, descends from the leaders' logs, electors respect what
   they acknowledged, commit indices are backed by majorities, and a tail is older than what was committed
   before it.
2. **The running system** (`node*.dfy`, `handlers.dfy`, `append_simulation.dfy`, `recovery.dfy`, `cluster*.dfy`,
   `applier_simulation.dfy`, `crash_simulation.dfy`). One value per host with what the Go structs hold: the
   log with its floating sentinel, nextIndex, matchIndex, the vote counter, the parked snapshot, the
   durable hard state, write-ahead-log records and snapshot, the applier's phase, the key-value map,
   proposed and waiting client requests. One action is one region under the mutex, one stretch of the
   applier without it, or a crash, also between the disk writes of a handler. `ClusterSafety.RunTracked`
   is a forward simulation: every run of this system is followed, state by state, by a run of the protocol.
   `handlers.dfy` says of every handler, field by field, what it decides, what it tells the sender and what
   it leaves alone.
3. **The objects** (`raft_node.dfy`, `kv_server.dfy`, `wal_bytes.dfy`). `RaftNode`, `Store`, `Server` and
   `FileStore` as classes whose methods update fields in place, with the loops of the Go code. Every
   method is proved to do to the fields what the functions of the second level do to the values (and
   `FileStore` what the record level does, byte for byte).

On top of these stand the theorems: the five properties of Figure 3 of the Raft paper on compacted logs,
one history for all state machines, honest acknowledgements (`cluster_safety.dfy`,
`cluster_properties.dfy`, `cluster_guarantees.dfy`), invisibility of compaction (`compaction.dfy`), order
insensitivity of AppendEntries (`merge_order.dfy`), backtracking (`backtracking.dfy`), the commit rule as an
order statistic (`commit_rule.dfy`), durability down to the bytes (`wal_bytes.dfy`, `durability.dfy`), every
handler's decision on every host and what clients read (`host_behaviour.dfy`).
What is said about logs is said about the whole logs behind the hosts: `ClusterProperties.RunLogs` gives
every run one choice of them, and `ClusterProperties.HostStores` says that memory, snapshot and
write-ahead log of each host hold exactly that log (the write-ahead log as long as it can be read).
`overrun_run.dfy`, `overshoot_run.dfy` and `window_run.dfy`, built with `scenario.dfy`, give runs: one with an
acknowledged write, and those in which the things happen that the next section is about.

## What the code does not guarantee

Three statements one would like to make are false of the code. Each is shown by a concrete input and
bounded by an exact condition.

- **The snapshot trigger can index outside the log.** `maybeSnapshotLocked` subtracts unsigned indices; if
  InstallSnapshot moves the boundary past a batch that is being applied, the difference wraps around.
  `CrashSimulation.TriggerPanics` says exactly when, and `OverrunRun.TriggerOverruns` is a run of three
  nodes in which it happens. The running system treats the panic as a crash of the process, and all
  theorems hold with it.
- **The install path is not crash-atomic.** Between SaveSnapshot and Compact in HandleInstallSnapshot the
  disk holds the new snapshot and the old write-ahead log; the comment there takes this to be harmless.
  `Durability.TornInstallRecovers` says exactly when a crash at that point brings back entries that the
  handler discards, `Durability.TornInstallMatches` that exactly then it breaks Log Matching,
  `Durability.TornInstallOrdered` exactly when it leaves terms that decrease along the log (the snapshot
  overrules what comes after it, and that is older), and `InstallWindow.WindowLeavesGap` when the next
  stored entry makes the disk unreadable. In `WindowRun.WindowChangesAVote`, a run of five nodes, such a
  crash changes a vote; in `WindowRun.TornLogDoesNotMatch` two hosts no longer match and terms decrease; in
  `OverrunRun.HostIsLost` a host cannot be started any more. The running system has this crash as an action
  (`Cluster.TornInstall`), so the safety theorems hold with it: the stale entries never match a leader of
  the node's term or later (`ClusterProperties.MatchesLeader`), a candidate that has some never wins
  (`ProtocolSteps.WinnerIsWhole`), and what the node then acknowledges had been committed before. Log
  Matching between any two hosts holds up to the entries that came back
  (`ClusterProperties.LogMatchingOnHosts`), terms are ordered up to the commit index and among the entries
  beyond the sentinel (`ClusterGuarantees.TermsOrdered`, `ClusterGuarantees.RetainedTermsOrdered`), and
  backtracking stays short (`BacktrackingOnHosts.RejectionsOnHosts`). The threshold path is crash-atomic
  (`Durability.CompactIsCrashAtomic`).
- **Backtracking can go below the agreed prefix.** The comment on `nextIndexAfterRejection` takes the logs to
  diverge only after the leader's last entry of the rejected term. `Backtracking.OvershootsExactly` says
  exactly when the retry goes too low, for any follower, and `BacktrackingOnHosts.OvershootsOnHosts` says it
  of every reachable leader and member. Either the leader has compacted all entries of the rejected term and
  one of them sits at the hint, also if its sentinel has another term
  (`OvershootRun.OvershootBelowOtherSentinel`, a run of three nodes). Or it still has some and the term is
  older than the follower's own snapshot; this happens only after a torn install, and then also to a leader
  that has compacted nothing and goes on sending entries (`OvershootRun.SendingOvershoots`, another run). To
  a follower along whose log terms do not decrease, entries never overshoot
  (`Backtracking.EntriesNeverOvershoot`). And the progress argument needs more than Log Matching between the
  two logs (`Backtracking.PairwiseMatchingIsNotEnough`).

Two more readings of the code: `sendSnapshot` loads the snapshot without rechecking leadership, and in the
running system the load is one step with the check; a stopped node's replies are taken as silence.

## Model

| member | source | states |
|---|---|---|
| `ProtocolSteps.LeaderCompleteness` | raft/handlers.go:35-61 | an index acknowledged by a majority in its own term is in the log of every later leader, by induction over leaders with quorum intersection and the election restriction |
| `ProtocolSteps.EventKept` | raft/handlers.go:11-297 | every protocol event, from any node at any time, a crash in the middle of an install included, keeps the whole invariant and only extends the history |
| `ProtocolSteps.TornOk` | raft/handlers.go:265-284 | a crash between the two writes of an install keeps the node's part of the invariant: what comes back beyond the snapshot is older than what the snapshot committed, and votes still respect every acknowledgement |
| `ProtocolSteps.NeverMatches` | raft/handlers.go:122-160 | entries that came back from such a crash never have the term of a leader of the node's term or later at their index |
| `ProtocolSteps.WinnerIsWhole` | raft/election.go:87-113 | a candidate with such entries never reaches a majority |
| `ProtocolSteps.LogMatching` | raft/handlers.go:122-160 | two logs that descend from the leaders' logs and have the same term at an index agree on everything up to it |
| `ProtocolSafety.ElectionSafety` | raft/election.go:41-116 | two leaders of one term, however far apart in a run, are the same node |
| `ProtocolSafety.LeaderAppendOnly` | raft/node.go:456-468 | while a node leads a term its log only grows |
| `ProtocolSafety.LogMatchingInRuns` | raft/handlers.go:122-200 | Log Matching between any two nodes at any two moments of a run, up to the tail that a torn install may leave |
| `ProtocolSafety.LeaderCompletenessInRuns` | raft/replication.go:246-297 | a committed index is in the log of every leader of a later term, at any moment and whichever came first |
| `ProtocolSafety.StateMachineSafety` | raft/replication.go:339-350 | committed prefixes of any two nodes at any two moments agree |
| `ProtocolSafety.CommittedIsKept` | raft/handlers.go:172-193 | no event changes or removes a committed entry, and only a restart lowers a commit index |
| `ProtocolSafety.AckWitnessed` | raft/replication.go:174-188 | every acknowledgement a leader counts is true: at some earlier moment its sender was in that term and held that leader's log up to the acknowledged index |
| `ProtocolSafety.AcksStayInForce` | raft/replication.go:174-188 | no event takes back an acknowledgement: its sender is in that term or a later one, and in that term still holds what it acknowledged |
| `Handlers.FollowerExactly` | raft/node.go:537-549 | a later term makes a node a follower of that term without a vote, durably; within its term stepping down changes the role; nothing else changes |
| `Handlers.ElectionStarts` | raft/election.go:41-72 | an election is in the next term with the node's own vote, durably, and every peer is asked; a node without peers has won, any other has not |
| `Handlers.VoteDecided` | raft/handlers.go:11-80 | a vote is granted if and only if the term is not old, the candidate's last (term, index) is at least that of the voter's whole log, and no other candidate has this term's vote; the reply has the larger term, and a refusal changes nothing beyond the observed term |
| `Handlers.VoteReplyCounted` | raft/election.go:87-113 | a reply of a later term deposes the candidate; each peer's first reply in the running election counts, and the node takes office exactly with the vote that makes a majority; all other replies change nothing |
| `Handlers.AppendAnswers` | raft/handlers.go:85-217 | any request that is not old, accepted or rejected, makes the node a follower of its sender in its term and keeps a vote of that term; success exactly if the entry before it is there; a rejection carries the exact hints and leaves log, commit index and disk alone; an acceptance moves the commit index to what the leader has committed of the request; an old one changes nothing |
| `Handlers.PanicsExactly` | raft/handlers.go:172-193 | the handler panics if and only if an entry of a request it would accept disagrees with a committed entry of the log |
| `Handlers.SnapshotInstalls` | raft/handlers.go:222-297 | the same for a snapshot; it is installed if and only if it is beyond the commit index, with the suffix that survives exactly if the log has the snapshot's last entry |
| `Handlers.AppendReplyTallied` | raft/replication.go:150-204 | a reply of a later term deposes the leader, one to another term's request changes nothing; a success only raises matchIndex and nextIndex of its sender, a rejection only lowers nextIndex |
| `Handlers.SnapshotReplyTallied` | raft/replication.go:126-147 | the same for a snapshot reply, which never moves the commit index |
| `Handlers.ProposalAppends` | raft/node.go:456-468 | a proposal adds one entry of the current term behind the log, in memory and on disk, and nothing else but perhaps a commit |
| `NodeSimulation.SimRequestVote` | raft/handlers.go:11-80 | the vote handler follows the protocol and decides by the uncompacted log as above; a granted reply is a recorded vote of this node for this candidate in this term |
| `NodeSimulation.MajoritySize` | raft/node.go:663-665 | a set of members outnumbers the rest of the cluster if and only if it is at least as large as the computed quorum |
| `NodeSimulation.SimTimeout` | raft/election.go:41-72 | starting an election follows the protocol and does to the node what is said above, and the request that goes out is the recorded one |
| `NodeSimulation.SimVoteReply` | raft/election.go:87-113 | counting a reply follows the protocol and does to the node what is said above: deposed by a later term, stale replies ignored, in office exactly at the majority |
| `NodeSimulation.ScanMeetsRule` | raft/replication.go:270-297 | what the commit scan finds is an entry of the current term, and a majority of members is known to hold it |
| `NodeSimulation.SimAdvance` | raft/replication.go:270-297 | advancing the commit index follows the protocol's majority rule and touches nothing else |
| `NodeSimulation.SimPropose` | raft/node.go:456-468 | a proposal appends, durably and in memory, the entry that the term's leader log gets at that index |
| `NodeSimulation.SimAppendReply` | raft/replication.go:150-204 | handling any reply, of a later term, stale or not, success or rejection, does to the node what is said above and keeps the leader's bookkeeping related to real acknowledgements |
| `NodeSimulation.SimSnapshotReply` | raft/replication.go:126-147 | the same for a snapshot reply |
| `AppendSimulation.CheckIsAgreement` | raft/handlers.go:122-160 | the consistency check on the compacted log, boundary included, accepts exactly when the uncompacted log holds the leader's entries up to prevLogIndex |
| `AppendSimulation.WalkFacts` | raft/handlers.go:162-200 | the walk stops exactly where the leader's prefix and the uncompacted log part, and never below the boundary |
| `AppendSimulation.WrittenIsMerge` | raft/handlers.go:169-200 | memory becomes the compacted form of the leader's prefix, the durable records are one truncation (exactly on a conflict) and the rest of the entries |
| `AppendSimulation.SimAppendEntries` | raft/handlers.go:85-217 | the handler never panics, answers success exactly when terms allow and the uncompacted log matches, merges the leader's prefix into it, does to every other field what is said above, and a success is a recorded acknowledgement |
| `AppendSimulation.InstalledRel` | raft/handlers.go:250-286 | installing a snapshot gives the compacted form of the log merged with the entries the snapshot stands for, in memory and on disk |
| `AppendSimulation.SimInstallSnapshot` | raft/handlers.go:222-297 | the snapshot handler does to the uncompacted log what the entries it replaces would have done, to every other field what is said above, and its reply is a recorded acknowledgement |
| `Recovery.BeyondSuffix` | raft/node.go:362-378 | filtering recovered entries by the snapshot boundary keeps exactly the suffix beyond it |
| `Recovery.BeyondExactly` | raft/node.go:362-378 | of any recovered entries, those beyond the boundary are taken, and they are refused if and only if they do not go on from it one by one |
| `Recovery.RecoverRel` | raft/node.go:323-384 | recovery from a disk that describes a log and whose write-ahead log can be read rebuilds that log, compacted, with commit index and position at the boundary |
| `Recovery.SimTornAppend` | raft/handlers.go:193-199 | a crash after any number of the records of a batch recovers a prefix of the leader's log that holds everything committed, unless an earlier torn install made the write-ahead log unreadable |
| `Recovery.SimTornInstall` | raft/handlers.go:265-284 | a crash between the two writes of an install recovers at the snapshot, followed by the protocol's torn install |
| `Recovery.TornWal` | raft/handlers.go:265-284 | between the two writes the old write-ahead log yields exactly what the torn log has beyond the snapshot |
| `Recovery.SnapshotThenCompact` | raft/replication.go:385-393 | after SaveSnapshot alone and after Compact too, the disk describes the same log with the same boundary |
| `ApplierSimulation.OutboundMatches` | raft/replication.go:54-76 | what goes out to a peer is a slice of the uncompacted log, or its fold up to the boundary, and the cursor is inside the log |
| `ApplierSimulation.SimApplyOne` | raft/replication.go:342-346 | applying one entry keeps the state machine equal to the fold of the log, and a fired waiter's entry is committed |
| `CrashSimulation.TriggerPanics` | raft/replication.go:362-371 | the snapshot trigger indexes outside the log if and only if a snapshot is ahead of the applier and the wrapped difference reaches the threshold; otherwise it captures exactly at the threshold |
| `ClusterSafety.ActionFollowed` | raft/replication.go:305-394 | every action of the running system, crashes in the middle of disk writes included, is followed by protocol events |
| `ClusterSafety.RunTracked` | raft/node.go:456-468 | every run of the running system is followed by a run of the protocol, state by state |
| `ClusterSafety.NeverPanics` | raft/handlers.go:172-193 | in no run does a node hit the "Leader Completeness violated" panic |
| `ClusterSafety.OneHistory` | kv/store.go:9-42 | every run has one growing log such that at every moment every state machine is the fold of a prefix of it, and everything applied or acknowledged is in it |
| `ClusterProperties.ElectionSafety` | raft/election.go:41-116 | Election Safety on the running system, across crashes and recovered votes |
| `ClusterProperties.RunLogs` | raft/node.go:585-603 | every run has uncompacted logs behind all hosts at all moments |
| `ClusterProperties.HostStores` | raft/node.go:637-660 | each host stores exactly its log: memory from the boundary on, the snapshot its fold up to the boundary, the write-ahead log the rest; its sound part has everything committed, and is the whole log unless a torn install has brought overruled entries back |
| `ClusterProperties.LeaderAppendOnly` | raft/node.go:456-468 | while a node leads, the whole log behind it only grows |
| `ClusterProperties.LogMatchingOnHosts` | raft/handlers.go:122-200 | the logs behind any two hosts at any two moments that have the same term at an index, compacted there or not, agree up to it, if the index is in the sound part of both |
| `ClusterProperties.MatchesLeader` | raft/handlers.go:122-160 | the same between a leader and any host that is not ahead in term, whatever crashes hit it |
| `ClusterProperties.CommittedEntriesAgree` | raft/handlers.go:202-213 | the logs behind two hosts agree on everything both have committed, at any two moments |
| `ClusterProperties.VoteCounter` | raft/election.go:64-113 | a candidate's counter is one plus the number of distinct peers whose vote it received, and each of them had a durable vote for it in this term at some moment not later |
| `ClusterProperties.Bookkeeping` | raft/replication.go:174-197 | cursors stay inside the log, and a peer that is still in the leader's term stores the leader's whole log up to its matchIndex |
| `ClusterProperties.DiskIsMemory` | raft/node.go:323-384 | recovering at any moment of any run rebuilds the same term, vote and log; it succeeds if and only if the write-ahead log can be replayed, and always unless a crash hit an install |
| `ClusterProperties.OnlyTornHostsStayDown` | raft/node.go:357-378 | only a host on which a crash hit an install is ever refused by NewNode |
| `ClusterProperties.ApplierInRange` | raft/replication.go:310-340 | whenever the applier looks for work, the entry after lastApplied is in the log |
| `ClusterGuarantees.LeaderCompletenessOnHosts` | raft/replication.go:246-297 | everything a host committed is in the whole log behind every leader of a later term, at any two moments |
| `ClusterGuarantees.BoundaryNeverFalls` | raft/node.go:637-660 | compaction and installs only move a host's boundary forward, and no restart moves it back |
| `ClusterGuarantees.CommitNeverFalls` | raft/handlers.go:202-213 | no action lowers a host's commit index unless the process restarts |
| `ClusterGuarantees.PositionNeverFalls` | raft/replication.go:319-350 | no action moves a state machine back unless the process restarts |
| `ClusterGuarantees.AppliesInOrder` | raft/replication.go:336-350 | every Apply call is for the index right after the position and moves it by one |
| `ClusterGuarantees.HonestAck` | kv/server.go:89-111 | a success ack means the very command was applied at the very (index, term) on that host, and nothing else is ever applied at that index anywhere |
| `ClusterGuarantees.AckedWritesSurvive` | kv/server.go:113-153 | at any moment after a write was acknowledged, one history that has the write at its index explains all state machines, Apply calls and acks |
| `ClusterGuarantees.AppliedEntriesAgree` | raft/replication.go:339-350 | State Machine Safety on Apply calls: same index, same entry, on all hosts and in all lifetimes |
| `ClusterGuarantees.TermsOrdered` | raft/replication.go:275-280 | terms on any host never exceed its current term, and never decrease up to its commit index; nor beyond, if it leads or no torn install has brought overruled entries back |
| `ClusterGuarantees.RetainedTermsOrdered` | raft/replication.go:233-243 | in the memory of any host, whatever crashes hit it, terms never decrease among the entries beyond the sentinel |
| `ClusterGuarantees.MatchWitnessed` | raft/replication.go:174-188 | whenever a leader has a matchIndex for a peer, at some moment not later that peer was in the leader's term and stored, in memory and on disk, the leader's whole log up to that index |
| `Compaction.CompactionInvisible` | raft/node.go:577-660 | beside a compacting host, a twin that keeps its log for ever gets the same packets (a snapshot as the entries it stands for) and stays in step: same votes, same success bits, same commit index, same log underneath |
| `Compaction.LifetimeInvisible` | raft/node.go:637-660 | the same over a whole lifetime from any reachable state |
| `Compaction.TwinExists` | raft/node.go:585-603 | every host of every reachable state has such a twin |
| `Compaction.InstallInvisible` | raft/handlers.go:250-286 | installing a snapshot is receiving the AppendEntries request with all entries it stands for |
| `Compaction.BatchInvisible` | raft/replication.go:336-340 | host and twin hand the same entries to the state machine |
| `Compaction.StateIsFoldOfLog` | raft/replication.go:319-350 | the key-value map is the fold of the uncompacted log up to the applier's position, however the host got there |
| `Compaction.AppliedOnce` | raft/replication.go:336-350 | of two Apply calls of one process the later is for a later index, so each entry is applied exactly once per lifetime, in log order |
| `MergeOrder.MergeOrderIrrelevant` | raft/handlers.go:162-213 | requests of one term that a host accepts as they arrive leave the same log, commit index, term, vote and role in any other order in which they are accepted, with any repetitions |
| `MergeOrder.RedeliveryChangesNothing` | raft/handlers.go:162-168 | an accepted request that arrives again is answered with success and changes neither memory nor disk |
| `MergeOrder.LaterEntriesKept` | raft/handlers.go:162-200 | the walk keeps every entry of the log, also beyond the request, if and only if no incoming entry contradicts a term |
| `Backtracking.RejectionLowers` | raft/replication.go:191-197 | every rejection makes the retry strictly smaller, and at least 1, for any follower, one with a stale tail included |
| `Backtracking.ConflictTermsFall` | raft/handlers.go:140-153 | after a rejection the next one is for a strictly smaller term, and never for a log that is too short |
| `Backtracking.BacktrackingIsFast` | raft/replication.go:206-244 | at most one rejection per distinct term among the follower's entries beyond where the logs agree, plus one if its log was too short, before acceptance or the snapshot path; for any follower |
| `Backtracking.LastOfTermFacts` | raft/replication.go:233-243 | the leader's scan with early break finds the last entry of the term |
| `Backtracking.RetryExactly` | raft/replication.go:206-244 | the leader goes on right behind its last retained entry of the rejected term, at the hint if it has none or the log was too short, and one lower, but not below 1, without hints |
| `Backtracking.OvershootsExactly` | raft/replication.go:206-244 | for any follower, one with a stale tail included, the retry goes below the longest agreed prefix if and only if the leader still has entries of the rejected term and that is older than the follower's snapshot, or all of them are compacted and one sits at the hint |
| `Backtracking.EntriesNeverOvershoot` | raft/replication.go:54-76 | as long as entries are sent, the retry is below the longest agreed prefix if and only if the leader has entries of the rejected term and that is older than the follower's snapshot; never if terms do not decrease along the follower's log |
| `Backtracking.NeedlessSnapshotExactly` | raft/replication.go:56-62 | for any follower, the leader falls back on a snapshot although the logs agree at its boundary if and only if the rejected term is its sentinel's, the hint is at or below it and no retained entry has that term |
| `OvershootRun.OvershootBelowOtherSentinel` | raft/replication.go:233-243 | a run of three nodes after which a rejection sends the leader below the agreed prefix although the sentinel's term differs from the rejected one |
| `OvershootRun.SendingOvershoots` | raft/replication.go:214-218 | a run of three nodes with a torn install after which a rejection sends a leader that has compacted nothing below the agreed prefix |
| `Backtracking.PairwiseMatchingIsNotEnough` | raft/replication.go:215-218 | two logs that satisfy Log Matching where a rejection sends the leader forward |
| `BacktrackingOnHosts.RelatedOnHosts` | raft/handlers.go:155-160 | in every reachable state a leader's log and that of any member not ahead in term are related as backtracking needs, also after a torn install: they agree up to some index that is not below the member's commit index, beyond it have no term in common, and what the member retains is sorted |
| `BacktrackingOnHosts.RejectionsOnHosts` | raft/replication.go:191-197 | in every reachable state, whatever crashes hit the follower, a rejection that is not stale lowers the leader's nextIndex, and the rest takes at most one rejection per follower term |
| `BacktrackingOnHosts.OvershootsOnHosts` | raft/replication.go:206-244 | in every reachable state, whatever crashes hit the follower, a rejection that is not stale sends the leader below the longest agreed prefix, and into a needless snapshot, exactly under the conditions above, read off the reply, the leader's log and the follower's sentinel |
| `CommitRule.CommitIsQuorumth` | raft/replication.go:270-297 | the scan commits exactly the quorum-th largest of the last index and all matchIndex values, if it is beyond the commit index and of the current term |
| `CommitRule.OrderStatistic` | raft/replication.go:281-287 | at least q values reach i if and only if the q-th largest does |
| `CommitRule.Ranked` | raft/replication.go:281-287 | the ranking is a descending permutation of the reports |
| `CommitRule.LeadersAreOrderly` | raft/replication.go:275-280 | every leader of every reachable state meets what the commit rule needs |
| `CommitRule.ReplyCommitsByRule` | raft/replication.go:174-190 | handling a success reply leaves the commit index at the quorum-th largest, that reply counted, if it is beyond the old one and of the current term |
| `CommitRule.ProposalCommitsByRule` | raft/node.go:456-468 | so does a proposal, with the new entry already in the log |
| `NodeState.FirstOfTerm` | raft/handlers.go:147-152 | the follower's hint is the start of the run of equal terms, not below the boundary |
| `SentinelLog.FirstNew` | raft/handlers.go:169-200 | the first incoming entry that the log does not hold, with all earlier ones held |
| `SentinelLog.CompactedTruncate` | raft/node.go:622-635 | truncating the compacted log is compacting the truncated log |
| `SentinelLog.CompactedAppend` | raft/node.go:605-620 | appending to the compacted log is compacting the longer log |
| `SentinelLog.CompactedFurther` | raft/node.go:643-658 | compacting a compacted log further is compacting the whole log there |
| `WalRecords.DropFrom` | storage/wal.go:178-180 | dropping keeps a prefix whose last index is below the given one |
| `WalRecords.ReplayOneExactly` | storage/wal.go:161-183 | on entries without gaps, an append is accepted if and only if it leaves none; a truncation is refused if and only if it names index 0, and keeps exactly the entries below its index |
| `WalRecords.ReplayLeavesNoGap` | storage/wal.go:161-183 | whatever the records, what they replay to has no gaps |
| `WalRecords.ReplayAppends` | storage/wal.go:162-173 | replaying appended records appends their entries |
| `WalRecords.ReplayTruncate` | storage/wal.go:174-180 | replaying a truncation record truncates |
| `WalRecords.ReplayCompacted` | storage/wal.go:205-266 | a compacted write-ahead log replays to exactly the suffix it was rewritten with |
| `KvState.CommandEffect` | kv/store.go:27-42 | after a Put the key has the value, after a Delete it has none, and every other key, and every key after an undecodable command, is as before |
| `KvState.FoldIsLastWrite` | kv/store.go:27-42 | the last write wins: in the fold of any log a key has value v if and only if the last write to it put v there, and none if and only if it was never written or last deleted |
| `KvState.FoldStep` | kv/store.go:27-42 | the fold of a longer prefix is one more command |
| `WalBytes.Put32` | storage/wal.go:107-110 | the four bytes of a number read back as the number |
| `WalBytes.LittleEndian` | storage/wal.go:107-110 | the least significant of them comes first |
| `WalBytes.ReadsFramed` | storage/wal.go:138-159 | for any payload, any stored number in the place of the checksum and anything behind them, the record is read if and only if the payload is not empty, at most 64 MiB, the number is its checksum and it decodes; nothing is assumed about the checksum |
| `WalBytes.ReadBack` | storage/wal.go:138-159 | a framed record is read back, whatever follows it, if and only if its payload is not empty, within the limit and decodable |
| `WalBytes.TornFrame` | storage/wal.go:139-152 | a frame cut short anywhere is not read |
| `WalBytes.LoadSplit` | storage/wal.go:124-196 | loading records with any bytes behind them is loading those bytes on top of what the records replay to |
| `WalBytes.CorruptRecordIsCut` | storage/wal.go:153-155 | a record whose stored checksum is wrong is cut off with everything behind it, and exactly the records before it are loaded and kept |
| `WalBytes.UnknownRecordIsRefused` | storage/wal.go:181-183 | a sound record of an unknown type makes the loader refuse the file |
| `WalBytes.TornTail` | storage/wal.go:124-196 | whatever byte the file is cut at, loading gives exactly what the whole records before the cut say and keeps exactly those |
| `WalBytes.RoundTrip` | storage/wal.go:102-196 | a file that was closed cleanly loads as the replay of its records |
| `WalBytes.AppendAfterTornTail` | storage/wal.go:187-194 | records appended after recovering from a torn tail load behind the recovered ones |
| `WalBytes.FileStore.WriteRecord` | storage/wal.go:102-115 | the file becomes the frames of the old records and the new one, whatever its payload, with the handle at the end |
| `WalBytes.FileStore.AppendEntries` | storage/wal.go:78-92 | the file gets one append record per entry, in order |
| `WalBytes.FileStore.TruncateSuffix` | storage/wal.go:94-100 | the file gets one truncate record |
| `WalBytes.FileStore.Compact` | storage/wal.go:205-266 | the file is exactly the frames of the given entries |
| `WalBytes.FileStore.ReadAt` | storage/wal.go:138-159 | reading a record in the loader's order of checks gives what `WalBytes.ReadsFramed` is about |
| `WalBytes.FileStore.DropTail` | storage/wal.go:178-180 | the loop drops exactly the entries from the given index on |
| `WalBytes.FileStore.ReplayRecord` | storage/wal.go:161-183 | one record against the entries so far, with the errors for gaps and bad truncations |
| `WalBytes.FileStore.LoadEntries` | storage/wal.go:124-196 | the loop computes the load of the whole file, cuts the torn tail and leaves the handle at the end; records with any tail at which the log ends behind them load as their replay and are all that is kept; on an error the file is untouched |
| `Durability.TornBytesAreTornRecords` | storage/wal.go:81-92 | a crash at any byte of a batch loads as a crash between two of its records |
| `Durability.RestartFromBytes` | raft/node.go:357-378 | for every host of every run, loading the bytes of its write-ahead log and filtering by its snapshot gives the log in memory; loading can fail only after a torn install |
| `Durability.TornAppendRecovers` | raft/node.go:605-635 | a crash inside an append batch recovers; the log is a prefix of what the request would have made of it, has the same entries up to the commit index and, without a conflict, everything old |
| `Durability.TornTermRecovers` | raft/node.go:537-549 | a crash right after a new term was stored comes back in that term with no vote and the same log |
| `Durability.CompactIsCrashAtomic` | raft/replication.go:380-393 | a crash between SaveSnapshot and Compact brings back the same host as a crash after both, but for the bytes of the write-ahead log |
| `Durability.TornInstallRecovers` | raft/handlers.go:265-284 | a crash between the two writes of an install brings the host back at the snapshot, with the log the install would have left if and only if the old log does not go on beyond the snapshot with another term at its last index |
| `Durability.TornInstallMatches` | raft/handlers.go:250-284 | such a crash breaks Log Matching between the host before and after it if and only if that is so |
| `Durability.TornInstallOrdered` | raft/handlers.go:250-284 | it leaves a log along which terms never decrease if and only if no entry of the old log beyond the snapshot is older than the snapshot or than an entry before it; if no such crash came before, if and only if it is not so that the snapshot overrules the entry after its last index and that one is older |
| `Durability.TermsFallOnce` | raft/handlers.go:250-284 | along the log behind any host at any moment of any run, terms decrease at most once, right behind its sound part: they never decrease if and only if the first entry in memory is not older than the sentinel |
| `Durability.NothingBlocks` | raft/replication.go:66-75 | what handlers take for granted about the node's shape holds in every reachable state |
| `HostBehaviour.HandlersOnHosts` | raft/handlers.go:11-297 | on every host at every moment of every run, any request and any reply is handled as the `Handlers` lemmas say, votes by the whole log behind the host |
| `HostBehaviour.RestartsAfresh` | raft/node.go:306-384 | a process started on any disk is refused or starts as a follower with that disk's term and vote, no waiters and the snapshot's map |
| `HostBehaviour.CapturesOnHosts` | raft/replication.go:372-394 | on every host of every run, a finished capture is saved in the place of exactly the entries it covers, unless an install has moved the boundary past it |
| `HostBehaviour.GuardsAreExact` | raft/replication.go:310-340 | in every reachable state an action on a running host can happen if and only if the code's own condition holds |
| `HostBehaviour.ReadsAreLastWrites` | kv/store.go:27-51 | on every host at every moment of every run, a key has the value of the last write to it in the part of the one history that the host has applied |
| `HostBehaviour.AckedWriteIsRead` | kv/server.go:113-153 | at any later moment, a host that has applied an acknowledged write reads its value, unless a later entry it has applied writes the same key |
| `InstallWindow.WindowRecovers` | raft/handlers.go:265-284 | a crash in the install window still recovers, with whatever the old log had beyond the snapshot |
| `InstallWindow.WindowKeepsStaleSuffix` | raft/handlers.go:254-284 | what comes back is the installed log if and only if the snapshot does not overrule what the old log has beyond it; for any node and any snapshot not below its boundary |
| `InstallWindow.WindowLeavesGap` | storage/wal.go:163-172 | the next stored entry makes the disk unrecoverable if and only if the old write-ahead log was not empty and ended before the snapshot |
| `WindowRun.WindowChangesAVote` | raft/handlers.go:53-61 | a run of five nodes after which one of them grants a vote if it crashes in the middle of an install and refuses it if it does not |
| `WindowRun.TornLogDoesNotMatch` | raft/handlers.go:265-284 | a run after which two hosts have the same term at an index and different entries below it, and terms decrease along a log |
| `OverrunRun.TriggerOverruns` | raft/replication.go:362-371 | a run of three nodes after which finishing a batch makes the snapshot trigger index outside the log |
| `OverrunRun.GapOpens` | raft/handlers.go:265-284 | a run after which a crash in the middle of an install leaves a disk that any next entry makes unreadable |
| `OverrunRun.HostIsLost` | storage/wal.go:163-172 | a run that goes on from there until the host crashes again and NewNode refuses to start it |
| `RaftNodeObject.RaftNode.FilterEntries` | raft/node.go:362-378 | the recovery loop keeps exactly the gap-free entries beyond the boundary, or refuses |
| `RaftNodeObject.RaftNode.NewNode` | raft/node.go:306-384 | the constructed node is the recovered value, and there is none exactly when the disk is refused |
| `RaftNodeObject.RaftNode.PersistHardState` | raft/node.go:493-501 | the hard state on disk is the one in memory, nothing else changes |
| `RaftNodeObject.RaftNode.AppendLog` | raft/node.go:613-620 | entries go to disk and memory |
| `RaftNodeObject.RaftNode.TruncateLog` | raft/node.go:628-635 | entries from the index on go, on disk by a record, and the sentinel stays |
| `RaftNodeObject.RaftNode.CompactLog` | raft/node.go:643-660 | the sentinel moves and only the entries beyond it remain, in memory and on disk; an older boundary changes nothing |
| `RaftNodeObject.RaftNode.StepDown` | raft/node.go:537-549 | the fields become those of the modelled step to a follower |
| `RaftNodeObject.RaftNode.InitialCursors` | raft/election.go:130-135 | the loop gives every peer the optimistic nextIndex and the pessimistic matchIndex |
| `RaftNodeObject.RaftNode.Lead` | raft/election.go:122-135 | the fields become those of the modelled new leader |
| `RaftNodeObject.RaftNode.BecomeCandidate` | raft/election.go:42-49 | a new term and a durable vote for itself |
| `RaftNodeObject.RaftNode.Campaign` | raft/election.go:41-72 | the fields become those of the modelled election start, and the returned request is the one the protocol records |
| `RaftNodeObject.RaftNode.HandleVoteReply` | raft/election.go:87-113 | the fields become those of the modelled vote count (`Handlers.VoteReplyCounted`) |
| `RaftNodeObject.RaftNode.HandleRequestVote` | raft/handlers.go:11-80 | fields and reply are those of the modelled vote handler (`Handlers.VoteDecided`) |
| `RaftNodeObject.RaftNode.ScanBack` | raft/handlers.go:147-152 | the hint loop finds the start of the run |
| `RaftNodeObject.RaftNode.SkipKnown` | raft/handlers.go:169-175 | the loop stops at the first entry the log does not hold |
| `RaftNodeObject.RaftNode.WriteEntries` | raft/handlers.go:169-200 | log and disk are those of the modelled walk, and it fails exactly on the panic |
| `RaftNodeObject.RaftNode.Follow` | raft/handlers.go:106-116 | leader contact makes the node a follower of that leader and nothing else |
| `RaftNodeObject.RaftNode.CheckPrevious` | raft/handlers.go:122-160 | the rejection, if any, with the modelled hints |
| `RaftNodeObject.RaftNode.HandleAppendEntries` | raft/handlers.go:85-217 | fields and reply are those of the modelled handler, or it panics exactly when that does (`Handlers.AppendAnswers`, `Handlers.PanicsExactly`) |
| `RaftNodeObject.RaftNode.SuffixBeyond` | raft/handlers.go:254-263 | the surviving suffix of an install |
| `RaftNodeObject.RaftNode.HandleInstallSnapshot` | raft/handlers.go:222-297 | fields and reply are those of the modelled handler (`Handlers.SnapshotInstalls`) |
| `RaftNodeObject.RaftNode.AdvanceCommitIndex` | raft/replication.go:270-297 | the loop commits what the modelled scan commits |
| `RaftNodeObject.RaftNode.CountHolders` | raft/replication.go:281-286 | the inner loop counts the members that hold an index |
| `RaftNodeObject.RaftNode.ProposeCommand` | raft/node.go:456-468 | the fields become those of the modelled proposal and the returned (index, term) is its place; a non-leader changes nothing |
| `RaftNodeObject.RaftNode.ReplicationRound` | raft/replication.go:42-78 | one message per peer, exactly when the node still leads the term: the modelled entries, or the decision to send a snapshot |
| `RaftNodeObject.RaftNode.LoadForSend` | raft/replication.go:100-125 | the snapshot on disk at the moment of the load, under the round's term; while the node leads that term it is what the running system sends to a peer below the boundary |
| `RaftNodeObject.RaftNode.RetryIndex` | raft/replication.go:221-244 | the scan computes the modelled retry index |
| `RaftNodeObject.RaftNode.HandleAppendEntriesReply` | raft/replication.go:150-204 | the fields become those of the modelled reply handling (`Handlers.AppendReplyTallied`) |
| `RaftNodeObject.RaftNode.HandleSnapshotReply` | raft/replication.go:126-147 | the same for a snapshot reply (`Handlers.SnapshotReplyTallied`) |
| `RaftNodeObject.RaftNode.TakePending` | raft/replication.go:317-321 | the parked snapshot is taken and restored only if it is ahead |
| `RaftNodeObject.RaftNode.FinishRestore` | raft/replication.go:327-332 | the position becomes the snapshot's |
| `RaftNodeObject.RaftNode.TakeBatch` | raft/replication.go:336-340 | the batch is exactly the committed entries not yet applied, in order |
| `RaftNodeObject.RaftNode.FinishBatch` | raft/replication.go:347-371 | the position moves by the batch, and the trigger is the modelled one |
| `RaftNodeObject.RaftNode.FinishCapture` | raft/replication.go:376-393 | the fields become those of the modelled end of a capture |
| `KvServer.Store.Apply` | kv/store.go:27-42 | the key of a Put has its value, the key of a Delete has none, every other key is as before |
| `KvServer.Store.Get` | kv/store.go:44-51 | the value of the key, if any |
| `KvServer.Store.Serialize` | kv/store.go:72-79 | the data decodes to the map |
| `KvServer.Store.Restore` | kv/store.go:81-93 | corrupt data changes nothing; restoring what any store serialized yields that store's state |
| `KvServer.Server.FireWaiter` | kv/server.go:89-111 | exactly the request waiting at that index is answered, with success if and only if its term is the entry's |
| `KvServer.Server.Apply` | kv/server.go:57-71 | one Apply call does to map, waiters and acks what the running system's step does |
| `KvServer.Server.ApplyBatch` | raft/replication.go:342-346 | a map that folds the log up to k folds it up to the end of the batch, and whoever was acknowledged had proposed an entry of the batch |
| `KvServer.Server.Await` | kv/server.go:125-134 | a request that was waiting at the same index is refused, the new one waits |
| `KvServer.Server.GiveUp` | kv/server.go:144-151 | the waiter is gone and nobody was told anything |
| `OverrunRun.SomeoneIsAcknowledged` | kv/server.go:113-153 | a run of a three-node cluster, from an election over replication to a fired waiter, that ends with an acknowledged write |

## Left out

- gRPC and protobuf glue (`rpc/`): field copying; the network is a set of packets.
- Timers, randomised timeouts, tickers and liveness: a timeout is an action that may happen at any time, and nothing is said about leaders being elected eventually.
- fsync, rename and directory sync: saving the hard state or a snapshot, and swapping in a compacted write-ahead log, are atomic durable assignments.
- JSON and CRC32: encode, decode and checksum are parameters; a record with a wrong checksum is cut off, but nothing is said about which flipped bits change the checksum.
- `WalBytes.Fits`: a payload of 1 byte to 64 MiB is a hypothesis of the round trips; `WalBytes.ReadBack` says what happens to others.
- Goroutines, channels, condition variables and the started/stopped lifecycle: each locked region is one action, and a stopped node is silent.
- Snapshot bytes: a snapshot carries the map itself; `KvServer.Store.Restore` covers the codec.
- Undecodable commands are one constructor of `Command`; `DecodeCommand` itself is not modelled.
- `raft/replication.go:100-125`: the snapshot that sendSnapshot ships is loaded in one step with the leadership check.
- `ClusterProperties.LogMatchingOnHosts`: not for entries that a crash in the middle of an install has brought back; `WindowRun.TornLogDoesNotMatch` shows that it fails there, `Durability.TornInstallMatches` when, and `ClusterProperties.MatchesLeader` says what holds for them.
- `ClusterGuarantees.TermsOrdered`: beyond the commit index not for a follower with such entries, where it fails in the same run; `Durability.TornInstallOrdered` says when, `Durability.TermsFallOnce` where, and `ClusterGuarantees.RetainedTermsOrdered` what still holds.
- Catch-up liveness across compaction: nextIndex may fall to or below matchIndex by stale rejections, and nothing is claimed about it.
- Linearizability of Get: the code disclaims it.
- The meaning of negative acks and guaranteed firing of waiters: a waiter is registered after Propose returns.
- uint64 overflow of terms and indices: natural numbers, except for the subtraction in the snapshot trigger.
- `cmd/`, scripts, status reporting, redirects, configuration loading: only "node IDs are distinct" is used, as a condition on the initial state.
