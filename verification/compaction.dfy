/**
 Compaction is invisible. Beside a node with a floating sentinel runs its twin: the same node with
 every entry it ever compacted away put back. The twin gets the same packets, except that a snapshot
 reaches it as an AppendEntries request with all the entries the snapshot stands for.
 */
module Compaction {
  import opened Types
  import opened Logs
  import opened SentinelLog
  import opened WalRecords
  import opened KvState
  import opened NodeState
  import opened NodeRelation
  import opened NodeSimulation
  import opened AppendSimulation
  import opened Recovery
  import opened ClusterRelation
  import opened ClusterSimulation
  import opened ClusterSafety
  import opened ClusterProperties
  import opened ClusterGuarantees
  import P = Protocol
  import opened ProtocolInvariant
  import opened ProtocolSteps
  import C = Cluster

  /** The twin's whole log. */
  function Full(u: Node): Log { if u.log == [] then [] else u.log[1..] }

  /** Same fields, apart from the log, what is durable, the replication cursors and the applier's
      position; and n's log is the compacted form of u's. */
  ghost predicate Twin(n: Node, u: Node) {
    && |u.log| >= 1 && Indexed(Full(u)) && u.log == Compacted(Full(u), 0)
    && Numbered(n.log) && Base(n.log) <= n.commitIndex <= |Full(u)| && n.log == Compacted(Full(u), Base(n.log))
    && u == n.(log := u.log, disk := u.disk, nextIndex := u.nextIndex, lastApplied := u.lastApplied,
              pending := u.pending)
    && u.nextIndex.Keys == n.nextIndex.Keys
  }

  /** u is the twin of host p, and its log is what the uncompacted protocol says it is. */
  ghost predicate Behind(c: C.State, s: P.State, p: NodeId, u: Node) {
    ClusterRel(c, s) && p in c.hosts && p in s.nodes && Twin(c.hosts[p].node, u) && s.nodes[p].log == Full(u)
  }

  /** The AppendEntries request that a snapshot of `prefix` replaces. */
  function Expanded(a: SnapshotArgs, prefix: Log): AppendArgs {
    AppendArgs(a.term, a.leader, 0, 0, prefix, a.snap.lastIndex)
  }

  function NodeOf(o: AppendOutcome, n: Node): Node { match o case Replied(m, _) => m case Panicked => n }

  function TwinReceives(u: Node, k: C.Packet, prefix: Log): Node {
    if !Formed(u) then u else
    match k
    case VoteReqPacket(_, a) => OnRequestVote(u, a).0
    case VoteRepPacket(_, from, t, r) => OnVoteReply(u, from, t, r)
    case AppendReqPacket(_, a) => NodeOf(OnAppendEntries(u, a), u)
    case AppendRepPacket(_, from, a, r) => OnAppendReply(u, from, a, r)
    case SnapReqPacket(_, a) => NodeOf(OnAppendEntries(u, Expanded(a, prefix)), u)
    case SnapRepPacket(_, from, a, r) => OnSnapshotReply(u, from, a, r)
  }

  /** What the twin does when the system performs `act`. It never compacts. */
  function TwinAfter(u: Node, p: NodeId, act: C.Action, prefix: Log): Node {
    if !Formed(u) then u else
    match act
    case ElectionTimeout(q) => if q == p then StartElection(u) else u
    case ClientPropose(q, cmd) => if q == p then Propose(u, cmd) else u
    case Deliver(k) => if k.to == p then TwinReceives(u, k, prefix) else u
    case _ => u
  }

  /** Both answer the packet in the same way. */
  predicate SameAnswer(n: Node, u: Node, k: C.Packet, prefix: Log) {
    Formed(n) && Formed(u) &&
    match k
    case VoteReqPacket(_, a) => OnRequestVote(n, a).1 == OnRequestVote(u, a).1
    case AppendReqPacket(_, a) =>
      var x, y := OnAppendEntries(n, a), OnAppendEntries(u, a);
      x.Replied? && y.Replied? && x.reply.success == y.reply.success && x.reply.term == y.reply.term
    case SnapReqPacket(_, a) =>
      var y := OnAppendEntries(u, Expanded(a, prefix));
      y.Replied? && OnInstallSnapshot(n, a).1.term == y.reply.term && y.reply.success == (a.term >= n.currentTerm)
    case _ => true
  }

  /** The twin takes the action and, if it is a request to host p, answers it as the host does. */
  ghost predicate TwinMoves(n: Node, act: C.Action, p: NodeId, u: Node, u': Node, prefix: Log) {
    && Formed(n) && Formed(u) && u' == TwinAfter(u, p, act, prefix)
    && (act.Deliver? && act.packet.to == p ==> StandsFor(act.packet, prefix) && SameAnswer(n, u, act.packet, prefix))
  }

  lemma TwinFormed(n: Node, u: Node)
    requires Formed(n) && Twin(n, u)
    ensures Formed(u)
  {
  }

  // ---- Steps that look only at the end of the log ----------------------------------------------

  lemma TimeoutInvisible(n: Node, u: Node)
    requires Formed(n) && Twin(n, u)
    ensures Twin(StartElection(n), StartElection(u))
  {
    hide Compacted, Indexed, Formed;
  }

  lemma ObserveInvisible(n: Node, u: Node, t: nat)
    requires Formed(n) && Twin(n, u)
    ensures Twin(Observe(n, t), Observe(u, t))
  {
    hide Compacted, Indexed, Formed;
  }

  lemma VoteInvisible(n: Node, u: Node, a: VoteArgs)
    requires Formed(n) && Twin(n, u)
    ensures Twin(OnRequestVote(n, a).0, OnRequestVote(u, a).0) && OnRequestVote(n, a).1 == OnRequestVote(u, a).1
  {
    hide Compacted, Indexed, Observe, Formed;
    ObserveInvisible(n, u, a.term);
  }

  lemma VoteReplyInvisible(n: Node, u: Node, from: NodeId, t: nat, r: VoteReply)
    requires Formed(n) && Twin(n, u)
    ensures Twin(OnVoteReply(n, from, t, r), OnVoteReply(u, from, t, r))
  {
    hide Compacted, Indexed, Numbered, LastTerm, Formed;
  }

  lemma SnapshotReplyInvisible(n: Node, u: Node, from: NodeId, a: SnapshotArgs, r: SnapshotReply)
    requires Formed(n) && Formed(u) && Twin(n, u)
    ensures Twin(OnSnapshotReply(n, from, a, r), OnSnapshotReply(u, from, a, r))
  {
    hide Compacted, Indexed, Formed, Numbered;
  }

  lemma {:induction false} ScanInvisible(n: Node, u: Node, i: nat)
    requires Formed(n) && Twin(n, u) && i <= LastLogIndex(n.log)
    ensures CommitScan(n, i) == CommitScan(u, i)
  {
    hide Compacted;
    if i > n.commitIndex {
      CompactedTerm(Full(u), Base(n.log), i);
      CompactedTerm(Full(u), 0, i);
      ScanInvisible(n, u, i - 1);
    }
  }

  lemma AdvanceInvisible(n: Node, u: Node)
    requires Formed(n) && Twin(n, u)
    ensures Twin(AdvanceCommit(n), AdvanceCommit(u))
  {
    hide CommitScan, Compacted, Indexed;
    if n.state == Leader {
      ScanInvisible(n, u, LastLogIndex(n.log));
      CommitScanFacts(n, LastLogIndex(n.log));
    }
  }

  lemma ReplyInvisible(n: Node, u: Node, peer: NodeId, a: AppendArgs, r: AppendReply)
    requires Formed(n) && Formed(u) && Twin(n, u)
    ensures Twin(OnAppendReply(n, peer, a, r), OnAppendReply(u, peer, a, r))
  {
    hide AdvanceCommit, NextIndexAfterRejection, Compacted, Indexed, Numbered;
    if r.term <= n.currentTerm && n.state == Leader && n.currentTerm == a.term && peer in n.peers && r.success {
      var k := a.prevLogIndex + |a.entries|;
      if k > n.matchIndex[peer] {
        AdvanceInvisible(n.(matchIndex := n.matchIndex[peer := k], nextIndex := n.nextIndex[peer := k + 1]),
                         u.(matchIndex := u.matchIndex[peer := k], nextIndex := u.nextIndex[peer := k + 1]));
      }
    }
  }

  lemma ProposeInvisible(n: Node, u: Node, cmd: Command)
    requires Formed(n) && Twin(n, u)
    ensures Twin(Propose(n, cmd), Propose(u, cmd)) && Full(Propose(u, cmd))[..|Full(u)|] == Full(u)
    ensures |Full(Propose(u, cmd))| == |Full(u)| + 1 && Base(Propose(n, cmd).log) == Base(n.log)
  {
    hide CommitScan, Compacted, Indexed, LastTerm;
    var e := LogEntry(n.currentTerm, LastLogIndex(n.log) + 1, cmd);
    var n', u' := n.(log := n.log + [e], disk := n.disk.(wal := n.disk.wal + [AppendRecord(e)])),
                  u.(log := u.log + [e], disk := u.disk.(wal := u.disk.wal + [AppendRecord(e)]));
    assert Full(u') == Full(u) + [e];
    Extended(Full(u), e);
    CompactedAppend(Full(u), Base(n.log), [e]);
    CompactedAppend(Full(u), 0, [e]);
    AdvanceInvisible(n', u');
  }

  lemma Extended(log: Log, e: LogEntry)
    requires Indexed(log) && e.index == |log| + 1
    ensures Indexed(log + [e])
  {
  }

  // ---- Steps that look into the log ------------------------------------------------------------

  /** Wherever the boundary is, the walk merges the leader's prefix into the log behind it, and it
      never reaches down to a committed entry. */
  lemma WrittenMerges(log: Log, b: nat, commit: nat, m: Log, prev: nat)
    requires Matches(log, m) && Indexed(log) && Indexed(m) && b <= commit <= |log| && prev <= |m|
    requires Agree(m, log, prev) && Agree(log, m, Min(commit, |m|))
    ensures Written(Compacted(log, b), m[prev..]) == Compacted(Overwritten(log, m), b)
    ensures Agree(log, Overwritten(log, m), commit)
    ensures var s, i := Compacted(log, b), FirstNew(Compacted(log, b), m[prev..]);
      Conflicts(s, m[prev..]) ==> m[prev..][i].index > commit
  {
    hide Matches, FirstNew, IsNew, Compacted, RecordsFor, MergeRecords, Numbered;
    var c := prev + FirstNew(Compacted(log, b), m[prev..]);
    WalkFacts(log, b, m, prev, c);
    if c < |m| { WrittenIsMerge(log, b, m, prev, c); }
  }

  /** Merge, with what makes it a log again. */
  ghost function Overwritten(log: Log, m: Log): (r: Log)
    requires Indexed(log) && Indexed(m)
    ensures Indexed(r) && |m| <= |r|
  {
    Merge(log, m)
  }

  /** Two followers that differ only in their boundary accept the same entries. */
  lemma AcceptInvisible(n: Node, u: Node, a: AppendArgs, m: P.Append)
    requires Twin(n, u) && AppendMatch(a, m) && Indexed(m.prefix) && Matches(Full(u), m.prefix)
    requires Agree(m.prefix, Full(u), m.prev) && Agree(Full(u), m.prefix, Min(n.commitIndex, |m.prefix|))
    ensures !WouldPanic(n, a.entries) && !WouldPanic(u, a.entries) && Twin(Accept(n, a), Accept(u, a))
    ensures Full(Accept(u, a)) == Merge(Full(u), m.prefix) && Base(Accept(n, a).log) == Base(n.log)
    ensures Agree(Full(u), Full(Accept(u, a)), n.commitIndex)
  {
    hide Matches, FirstNew, Compacted, Indexed, RecordsFor, Written, Merge;
    var log := Full(u);
    WrittenMerges(log, Base(n.log), n.commitIndex, m.prefix, m.prev);
    WrittenMerges(log, 0, n.commitIndex, m.prefix, m.prev);
    FullOf(Overwritten(log, m.prefix));
  }

  /** Node and twin handle the request alike, and merge the leader's prefix into the log behind them. */
  ghost predicate AppendedAlike(n: Node, u: Node, a: AppendArgs, m: P.Append) {
    && Numbered(n.log) && Numbered(u.log)
    && var x, y := OnAppendEntries(n, a), OnAppendEntries(u, a);
    && x.Replied? && y.Replied? && x.reply.success == y.reply.success && x.reply.term == y.reply.term
    && Twin(x.node, y.node) && Base(x.node.log) == Base(n.log) && Agree(Full(u), Full(y.node), n.commitIndex)
    && (y.reply.success ==> Full(y.node) == Merge(Full(u), m.prefix))
    && (y.reply.success <==> a.term >= n.currentTerm && Agree(m.prefix, Full(u), m.prev))
  }

  lemma AppendInvisible(s: P.State, p: NodeId, n: Node, u: Node, a: AppendArgs, m: P.Append)
    requires Inv(s) && p in s.nodes && NodeRel(n, s.At(p)) && Twin(n, u) && Full(u) == s.At(p).log
    requires m in s.h.appends && AppendMatch(a, m)
    ensures AppendedAlike(n, u, a, m)
  {
    hide Inv, NodeRel, Twin, Rooted, Matches, AppendedAlike;
    RelLog(n, s.nodes[p]);
    if a.term >= n.currentTerm {
      RequestFacts(s, p, m);
      RequestMatches(s, p, m);
      AppendsAlike(n, u, s.nodes[p], a, m);
    } else {
      RefusesAlike(n, u, a, m);
    }
  }

  lemma RefusesAlike(n: Node, u: Node, a: AppendArgs, m: P.Append)
    requires Twin(n, u) && a.term < n.currentTerm
    ensures AppendedAlike(n, u, a, m)
  {
    hide Twin, Compacted, Indexed, Check, Accept, WouldPanic, Merge;
    TwinLogs(n, u);
  }

  lemma AppendsAlike(n: Node, u: Node, o: P.Node, a: AppendArgs, m: P.Append)
    requires LogRel(n, o) && n.commitIndex == o.commit && Twin(n, u) && Full(u) == o.log && a.term >= n.currentTerm
    requires AppendMatch(a, m) && Matches(o.log, m.prefix) && Consistent(m, o)
    ensures AppendedAlike(n, u, a, m)
  {
    hide Twin, Matches, Compacted, Indexed, Check, Accept, WouldPanic, Merge, Agree, FirstOfTerm, FirstNew;
    TwinLogs(n, u);
    var f, g := Observe(n, a.term).(state := Follower, leaderID := Some(a.leader)),
                Observe(u, a.term).(state := Follower, leaderID := Some(a.leader));
    FollowInvisible(n, u, a.term, a.leader);
    CheckAgrees(f, o, a, m);
    CheckAgrees(g, o, a, m);
    if Agree(m.prefix, Full(u), m.prev) { AcceptInvisible(f, g, a, m); } else { SelfAgree(Full(u), n.commitIndex); }
  }

  lemma SelfAgree(log: Log, k: nat)
    requires k <= |log|
    ensures Agree(log, log, k)
  {
  }

  lemma FollowInvisible(n: Node, u: Node, t: nat, leader: NodeId)
    requires Twin(n, u)
    ensures Twin(Observe(n, t).(state := Follower, leaderID := Some(leader)),
                 Observe(u, t).(state := Follower, leaderID := Some(leader)))
  {
    hide Compacted, Indexed;
  }

  lemma TwinLogs(n: Node, u: Node)
    requires Twin(n, u)
    ensures Numbered(n.log) && |u.log| >= 1 && Numbered(u.log) && Base(u.log) == 0
    ensures u.log == Compacted(Full(u), 0) && Indexed(Full(u))
    ensures n.currentTerm == u.currentTerm && n.commitIndex == u.commitIndex <= |Full(u)|
  {
  }

  /** The node's answer to the snapshot is the twin's to the entries it stands for, and they stay twins. */
  ghost predicate InstalledAlike(n: Node, u: Node, a: SnapshotArgs, prefix: Log, led: map<nat, P.Reign>) {
    && Numbered(n.log) && Numbered(u.log)
    && var x, y := OnInstallSnapshot(n, a), OnAppendEntries(u, Expanded(a, prefix));
    && y.Replied? && x.1.term == y.reply.term && (y.reply.success <==> a.term >= n.currentTerm)
    && RootedBelow(led, x.0, y.node)
  }

  /** Installing a snapshot does what receiving the entries it stands for would have done. */
  lemma InstallInvisible(s: P.State, p: NodeId, n: Node, u: Node, a: SnapshotArgs, m: P.Append)
    requires Inv(s) && p in s.nodes && NodeRel(n, s.At(p)) && Twin(n, u) && Full(u) == s.At(p).log
    requires m in s.h.appends && SnapshotMatch(a, m)
    ensures InstalledAlike(n, u, a, m.prefix, s.h.past.led)
  {
    hide Inv, Matches, Rooted, DiskRel, LeaderRel, ElectionRel, Compacted, Indexed, Check, Install, Accept, WouldPanic,
         RootedBelow, Merge;
    assert m.prefix[0..] == m.prefix;
    var x, y := OnInstallSnapshot(n, a), OnAppendEntries(u, Expanded(a, m.prefix));
    AppendInvisible(s, p, n, u, Expanded(a, m.prefix), m);
    OwnCommitRooted(s, p);
    if a.term >= n.currentTerm {
      RequestFacts(s, p, m);
      RequestMatches(s, p, m);
      var f, g := Observe(n, a.term).(state := Follower, leaderID := Some(a.leader)),
                  Observe(u, a.term).(state := Follower, leaderID := Some(a.leader));
      CheckAgrees(g, s.nodes[p], Expanded(a, m.prefix), m);
      InstalledTwin(f, g, s.nodes[p], a, m);
    }
    InstallRooted(s.h.past.led, n, u, a, m.prefix, y.node);
  }

  lemma InstallRooted(led: map<nat, P.Reign>, n: Node, u: Node, a: SnapshotArgs, m: Log, v: Node)
    requires Twin(n, u) && Twin(OnInstallSnapshot(n, a).0, v) && a.snap.lastIndex == |m|
    requires Rooted(led, Full(u)[..n.commitIndex]) && Agree(Full(u), Full(v), n.commitIndex)
    requires a.term >= n.currentTerm ==> Rooted(led, m) && Full(v) == Merge(Full(u), m)
    ensures RootedBelow(led, OnInstallSnapshot(n, a).0, v)
  {
    hide Rooted, Compacted, Indexed, SurvivingSuffix;
    var n' := OnInstallSnapshot(n, a).0;
    if n'.log == n.log {
      StaysRooted(led, u, n', v, n.commitIndex);
    } else {
      assert Full(v)[..|m|] == m;
    }
  }

  lemma InstalledTwin(n: Node, u: Node, o: P.Node, a: SnapshotArgs, m: P.Append)
    requires Twin(n, u) && LogRel(n, o) && Full(u) == o.log && o.commit == n.commitIndex && SnapshotMatch(a, m)
    requires Indexed(m.prefix) && Matches(o.log, m.prefix)
    requires Agree(o.log, m.prefix, Min(o.commit, |m.prefix|))
    ensures Twin(if a.snap.lastIndex <= n.commitIndex then n else Install(n, a.snap), Accept(u, Expanded(a, m.prefix)))
  {
    hide Matches, FirstNew, Compacted, Indexed, RecordsFor, Written, SurvivingSuffix, WalRel, Conflicts;
    var log := Full(u);
    assert m.prefix[0..] == m.prefix;
    WrittenMerges(log, 0, n.commitIndex, m.prefix, 0);
    FullOf(Overwritten(log, m.prefix));
    if a.snap.lastIndex > n.commitIndex {
      InstalledRel(n, o, m.prefix, a.snap);
    } else {
      assert Includes(log, m.prefix);
    }
  }

  lemma FullOf(log: Log)
    requires Indexed(log)
    ensures Compacted(log, 0)[1..] == log
  {
  }

  // ---- Compacting itself, and the applier ------------------------------------------------------

  /** Taking a snapshot and compacting leaves the twin as it is. */
  lemma CaptureInvisible(h: C.Host, u: Node, o: P.Node)
    requires Twin(h.node, u) && Full(u) == o.log && o.commit == h.node.commitIndex && ApplierRel(h, o)
    requires h.applier.Capturing?
    ensures Twin(C.CaptureFinished(h).node, u)
  {
    hide Compacted, Indexed, PendingRel, Fold, SaveAndCompact;
    if h.applier.index > Base(h.node.log) { SaveIs(h.node, o.log, Snapshot(h.applier.index, h.applier.term, h.kv)); }
  }

  /** Finished or restored, the applier only moves its own position. */
  lemma ApplierInvisible(h: C.Host, u: Node)
    requires Twin(h.node, u)
    ensures h.node.pending.Some? ==> Twin(C.SnapshotTaken(h).node, u)
    ensures h.applier.Restoring? ==> Twin(C.Restored(h).node, u)
    ensures h.applier.Applying? && !C.Overruns(h) ==> Twin(C.BatchFinished(h).node, u)
  {
    hide Compacted, Indexed, SnapshotTrigger, C.Reboot;
  }

  /** Both hand the same entries to the state machine. */
  lemma BatchInvisible(n: Node, u: Node)
    requires Twin(n, u) && Base(n.log) <= n.lastApplied <= n.commitIndex && u.lastApplied == n.lastApplied
    ensures C.Batch(n) == C.Batch(u) == Full(u)[n.lastApplied..n.commitIndex]
  {
    hide Compacted, Indexed, EntriesFrom;
    CompactedFrom(Full(u), Base(n.log), n.lastApplied);
    CompactedFrom(Full(u), 0, n.lastApplied);
    assert Full(u)[n.lastApplied..][..n.commitIndex - n.lastApplied] == Full(u)[n.lastApplied..n.commitIndex];
  }

  // ---- Every step ------------------------------------------------------------------------------

  /** The snapshot in the packet, if there is one, is the fold of these entries. */
  ghost predicate StandsFor(k: C.Packet, prefix: Log) {
    k.SnapReqPacket? ==> k.snapshot.snap == SnapshotOf(prefix, |prefix|)
  }

  lemma DeliveryInvisible(c: C.State, s: P.State, k: C.Packet, p: NodeId, u: Node) returns (prefix: Log)
    requires Behind(c, s, p, u) && C.Can(c, C.Deliver(k)) && k.to == p && Formed(c.At(p).node) && Formed(u)
    ensures p in C.Perform(c, C.Deliver(k)).hosts && StandsFor(k, prefix) && SameAnswer(c.At(p).node, u, k, prefix)
    ensures RootedBelow(s.h.past.led, C.Perform(c, C.Deliver(k)).At(p).node, TwinReceives(u, k, prefix))
  {
    hide Inv, HostRel, NodeRel, Formed, RecordRel, Rooted, RootedBelow, Compacted, Indexed, OnRequestVote, OnVoteReply,
         OnAppendEntries, OnAppendReply, OnInstallSnapshot, OnSnapshotReply, SnapshotOf;
    prefix := [];
    var n := c.hosts[p].node;
    HostFacts(c, s, p);
    assert PacketRel(k, s.h);
    OwnCommitRooted(s, p);
    RelLog(n, s.nodes[p]);
    match k
    case AppendReqPacket(_, a) =>
      var m :| m in s.h.appends && AppendMatch(a, m);
      AppendInvisible(s, p, n, u, a, m);
      StaysRooted(s.h.past.led, u, OnAppendEntries(n, a).node, OnAppendEntries(u, a).node, n.commitIndex);
    case SnapReqPacket(_, a) =>
      var m :| m in s.h.appends && SnapshotMatch(a, m);
      InstallInvisible(s, p, n, u, a, m);
      prefix := m.prefix;
    case _ =>
      OthersInvisible(n, u, k);
      StaysRooted(s.h.past.led, u, C.Delivered(c, k).hosts[p].node, TwinReceives(u, k, prefix), n.commitIndex);
  }

  /** Packets that do not carry entries. */
  lemma OthersInvisible(n: Node, u: Node, k: C.Packet)
    requires Formed(n) && Formed(u) && Twin(n, u) && !k.AppendReqPacket? && !k.SnapReqPacket?
    ensures SameAnswer(n, u, k, []) && TwinReceives(u, k, []).log == u.log
    ensures var n' := TwinReceives(n, k, []); Twin(n', TwinReceives(u, k, [])) && n'.log == n.log
  {
    hide Twin, Formed, OnRequestVote, OnVoteReply, OnAppendReply, OnSnapshotReply, OnAppendEntries, OnInstallSnapshot;
    match k
    case VoteReqPacket(_, a) =>
      VoteInvisible(n, u, a);
      VoteKeepsLog(u, a);
      VoteKeepsLog(n, a);
    case VoteRepPacket(_, from, t, r) =>
      VoteReplyInvisible(n, u, from, t, r);
      RepliesKeepLog(u, k);
      RepliesKeepLog(n, k);
    case AppendRepPacket(_, from, a, r) =>
      ReplyInvisible(n, u, from, a, r);
      RepliesKeepLog(u, k);
      RepliesKeepLog(n, k);
    case SnapRepPacket(_, from, a, r) =>
      SnapshotReplyInvisible(n, u, from, a, r);
      RepliesKeepLog(u, k);
      RepliesKeepLog(n, k);
  }

  ghost predicate CommitRooted(led: map<nat, P.Reign>, n: P.Node) {
    n.commit <= |n.log| && Rooted(led, n.log[..n.commit])
  }

  /** What a node has committed is part of the leaders' logs. */
  lemma OwnCommitRooted(s: P.State, p: NodeId)
    requires Inv(s) && p in s.nodes
    ensures CommitRooted(s.h.past.led, s.At(p))
  {
    hide NodeOk, HistoryOk, PastOk, Tracks;
    NodeFacts(s, p);
    var n := s.nodes[p];
    RootedPrefix(s.h.past.led, n.log[..n.sound], n.log[..n.commit]);
  }

  lemma VoteKeepsLog(u: Node, a: VoteArgs)
    requires Formed(u)
    ensures OnRequestVote(u, a).0.log == u.log
  {
  }

  lemma RepliesKeepLog(u: Node, k: C.Packet)
    requires Formed(u)
    ensures k.VoteRepPacket? ==> OnVoteReply(u, k.from, k.term, k.voteReply).log == u.log
    ensures k.AppendRepPacket? ==> OnAppendReply(u, k.from, k.append, k.appendReply).log == u.log
    ensures k.SnapRepPacket? ==> OnSnapshotReply(u, k.from, k.snapshot, k.snapReply).log == u.log
  {
    hide CommitScan, NextIndexAfterRejection, Formed;
  }

  /** One action of the system, seen by the twin. */
  lemma ActionInvisible(c: C.State, s: P.State, act: C.Action, p: NodeId, u: Node) returns (prefix: Log)
    requires Behind(c, s, p, u) && C.Can(c, act) && !Restarts(c, act, p) && Formed(c.At(p).node) && Formed(u)
    ensures p in C.Perform(c, act).hosts && TwinMoves(c.At(p).node, act, p, u, TwinAfter(u, p, act, prefix), prefix)
    ensures RootedBelow(s.h.past.led, C.Perform(c, act).At(p).node, TwinAfter(u, p, act, prefix))
  {
    hide ClusterRel, Inv, NodeRel, ConfigRel, HostRel, RequestsRel, ApplierRel, Formed, Twin, Rooted, RootedBelow,
         SameAnswer, StandsFor, Restarts, C.Perform, C.Can, TwinAfter;
    prefix := [];
    HostFacts(c, s, p);
    RelLog(c.hosts[p].node, s.nodes[p]);
    match act
    case Deliver(k) => prefix := AnyDelivery(c, s, k, p, u);
    case ClientPropose(q, cmd) => AnyProposal(c, s, q, cmd, p, u);
    case _ =>
      OwnCommitRooted(s, p);
      LocalInvisible(c, s, act, p, u);
      LocalRooted(s.h.past.led, c.hosts[p].node, u, C.Perform(c, act).hosts[p].node, TwinAfter(u, p, act, prefix));
  }

  lemma AnyDelivery(c: C.State, s: P.State, k: C.Packet, p: NodeId, u: Node) returns (prefix: Log)
    requires Behind(c, s, p, u) && C.Can(c, C.Deliver(k)) && Formed(c.At(p).node) && Formed(u)
    ensures p in C.Perform(c, C.Deliver(k)).hosts
    ensures RootedBelow(s.h.past.led, C.Perform(c, C.Deliver(k)).At(p).node, TwinAfter(u, p, C.Deliver(k), prefix))
    ensures k.to == p ==> StandsFor(k, prefix) && SameAnswer(c.At(p).node, u, k, prefix)
  {
    hide ClusterRel, Inv, NodeRel, ConfigRel, HostRel, RequestsRel, ApplierRel, Formed, Twin, Rooted, RootedBelow,
         SameAnswer, StandsFor, C.Delivered, TwinReceives;
    prefix := [];
    HostFacts(c, s, p);
    if k.to == p {
      prefix := DeliveryInvisible(c, s, k, p, u);
    } else {
      OwnCommitRooted(s, p);
      RelLog(c.hosts[p].node, s.nodes[p]);
      OthersUntouched(c, k, p);
      LocalRooted(s.h.past.led, c.hosts[p].node, u, c.hosts[p].node, u);
    }
  }

  lemma AnyProposal(c: C.State, s: P.State, q: NodeId, cmd: Command, p: NodeId, u: Node)
    requires Behind(c, s, p, u) && C.Can(c, C.ClientPropose(q, cmd)) && Formed(c.At(p).node) && Formed(u)
    ensures var act := C.ClientPropose(q, cmd);
      p in C.Perform(c, act).hosts
      && RootedBelow(s.h.past.led, C.Perform(c, act).At(p).node, TwinAfter(u, p, act, []))
  {
    hide ClusterRel, Inv, NodeRel, ConfigRel, HostRel, RequestsRel, ApplierRel, Formed, Twin, Rooted, RootedBelow,
         Propose;
    HostFacts(c, s, p);
    OwnCommitRooted(s, p);
    RelLog(c.hosts[p].node, s.nodes[p]);
    if q == p { ProposedRooted(s.h.past.led, c.hosts[p].node, u, cmd); }
    else { LocalRooted(s.h.past.led, c.hosts[p].node, u, c.hosts[p].node, u); }
  }

  lemma LocalInvisible(c: C.State, s: P.State, act: C.Action, p: NodeId, u: Node)
    requires C.Can(c, act) && !Restarts(c, act, p) && !act.Deliver? && !act.ClientPropose?
    requires p in c.hosts && p in s.nodes && Formed(c.At(p).node) && Formed(u) && Twin(c.At(p).node, u)
    requires Full(u) == s.At(p).log && s.At(p).commit == c.At(p).node.commitIndex
    requires ApplierRel(c.At(p), s.At(p))
    ensures p in C.Perform(c, act).hosts
    ensures Twin(C.Perform(c, act).At(p).node, TwinAfter(u, p, act, []))
    ensures Full(TwinAfter(u, p, act, [])) == Full(u)
    ensures TwinAfter(u, p, act, []).commitIndex == u.commitIndex
  {
    hide ApplierRel, Formed, Twin, StartElection, C.SnapshotTaken, C.Restored, C.BatchFinished, C.CaptureFinished,
         C.Reboot, C.Overruns;
    var h := c.hosts[p];
    match act
    case ElectionTimeout(q) => if q == p { TimeoutInvisible(h.node, u); TimeoutKeepsLog(u); }
    case TakeSnapshot(q) => if q == p { ApplierInvisible(h, u); }
    case FinishRestore(q) => if q == p { ApplierInvisible(h, u); }
    case FinishBatch(q) => if q == p { ApplierInvisible(h, u); }
    case FinishCapture(q) => if q == p { CaptureInvisible(h, u, s.nodes[p]); }
    case _ =>
  }

  lemma TimeoutKeepsLog(u: Node)
    requires Formed(u)
    ensures StartElection(u).log == u.log && StartElection(u).commitIndex == u.commitIndex
  {
  }

  lemma ProposedRooted(led: map<nat, P.Reign>, n: Node, u: Node, cmd: Command)
    requires Formed(n) && Twin(n, u) && n.commitIndex <= |Full(u)| && Rooted(led, Full(u)[..n.commitIndex])
    ensures RootedBelow(led, Propose(n, cmd), Propose(u, cmd))
  {
    hide Propose, Rooted, Indexed, Compacted;
    ProposeInvisible(n, u, cmd);
    assert Agree(Full(u), Full(Propose(u, cmd)), n.commitIndex) by {
      assert Full(Propose(u, cmd))[..|Full(u)|] == Full(u);
    }
    StaysRooted(led, u, Propose(n, cmd), Propose(u, cmd), n.commitIndex);
  }

  /** The part of the twin's log that n has compacted away is part of the leaders' logs. */
  ghost predicate RootedBelow(led: map<nat, P.Reign>, n: Node, u: Node) {
    Twin(n, u) && Rooted(led, Full(u)[..Base(n.log)])
  }

  /** A step that neither touches what was committed nor moves the boundary beyond it. */
  lemma StaysRooted(led: map<nat, P.Reign>, u: Node, n': Node, u': Node, c: nat)
    requires |u.log| >= 1 && Twin(n', u') && Base(n'.log) <= c && Agree(Full(u), Full(u'), c)
    requires Rooted(led, Full(u)[..c])
    ensures RootedBelow(led, n', u')
  {
    hide Compacted;
    assert Full(u')[..c] == Full(u)[..c];
    RootedPrefix(led, Full(u)[..c], Full(u')[..Base(n'.log)]);
  }

  lemma LocalRooted(led: map<nat, P.Reign>, n: Node, u: Node, n': Node, u': Node)
    requires Twin(n, u) && Twin(n', u') && Full(u) == Full(u') && u'.commitIndex == u.commitIndex
    requires Rooted(led, Full(u)[..n.commitIndex])
    ensures RootedBelow(led, n', u')
  {
    hide Compacted, Rooted;
    StaysRooted(led, u, n', u', n.commitIndex);
  }

  lemma OthersUntouched(c: C.State, k: C.Packet, p: NodeId)
    requires k.to in c.hosts && Formed(c.At(k.to).node) && p in c.hosts && k.to != p
    ensures p in C.Delivered(c, k).hosts && C.Delivered(c, k).At(p) == c.At(p)
  {
    hide OnRequestVote, OnVoteReply, OnAppendEntries, OnAppendReply, OnInstallSnapshot, OnSnapshotReply, Formed;
  }

  // ---- Whole lifetimes -------------------------------------------------------------------------

  /** A log is pinned down by what is left after compaction and by where the rest comes from. */
  lemma Pinned(led: map<nat, P.Reign>, x: Log, y: Log, b: nat)
    requires b <= |x| && b <= |y| && Rooted(led, x[..b]) && Rooted(led, y[..b]) && Indexed(x) && Indexed(y)
    requires Compacted(x, b) == Compacted(y, b)
    ensures x == y
  {
    CompactedInjective(x, y, b);
    assert Compacted(x, b)[0] == Compacted(y, b)[0];
    assert TermAt(x[..b], b) == TermAt(y[..b], b);
    LogMatching(led, x[..b], y[..b], b);
    hide Rooted;
    assert x == x[..b] + x[b..] && y == y[..b] + y[b..];
  }

  /** Compaction is invisible: whatever a host that stays up does, its twin with the uncompacted log
      does too, with the same votes, the same AppendEntries success bits, the same commit index and
      the same log underneath; and the twin is still there for the next action. */
  lemma CompactionInvisible(c: C.State, s: P.State, act: C.Action, p: NodeId, u: Node)
    returns (s': P.State, u': Node, prefix: Log)
    requires Behind(c, s, p, u) && C.Can(c, act) && !Restarts(c, act, p)
    ensures TwinMoves(c.At(p).node, act, p, u, u', prefix) && Behind(C.Perform(c, act), s', p, u')
  {
    hide ClusterRel, Inv, NodeRel, ConfigRel, HostRel, RequestsRel, ApplierRel, Formed, Twin, Rooted, SameAnswer,
         StandsFor, Restarts, C.Perform, C.Can, TwinAfter, Reaches, PastExtends, LogOk, Tracks, TwinMoves;
    HostFacts(c, s, p);
    RelFormed(c.hosts[p].node, s.nodes[p], p, s.h.past.members);
    TwinFormed(c.hosts[p].node, u);
    prefix := ActionInvisible(c, s, act, p, u);
    s' := ActionFollowed(c, act, s);
    u' := TwinAfter(u, p, act, prefix);
    var n' := C.Perform(c, act).hosts[p].node;
    HostFacts(C.Perform(c, act), s', p);
    OwnCommitRooted(s', p);
    SameLogBehind(s.h.past, s'.h.past, n', u', s'.nodes[p]);
  }

  lemma SameLogBehind(x: P.Past, x': P.Past, n: Node, u: Node, o: P.Node)
    requires PastExtends(x, x') && RootedBelow(x.led, n, u) && NodeRel(n, o) && CommitRooted(x'.led, o)
    ensures o.log == Full(u)
  {
    hide DiskRel, LeaderRel, ElectionRel, Rooted, Compacted, LedExtends;
    RootedPrefix(x'.led, o.log[..o.commit], o.log[..Base(n.log)]);
    RootedForGood(x.led, x'.led, Full(u)[..Base(n.log)]);
    Pinned(x'.led, o.log, Full(u), Base(n.log));
  }

  /** Every host of every reachable state has a twin. */
  lemma TwinExists(c: C.State, p: NodeId) returns (s: P.State, u: Node)
    requires Reachable(c) && p in c.hosts
    ensures Behind(c, s, p, u) && u.lastApplied == c.At(p).node.lastApplied
  {
    hide Reachable, ClusterRel, Inv, DiskRel, LeaderRel, ElectionRel, ConfigRel, HostRel, RequestsRel, ApplierRel,
         Compacted;
    s := ReachableRel(c);
    HostFacts(c, s, p);
    u := c.hosts[p].node.(log := Compacted(s.nodes[p].log, 0));
    FullOf(s.nodes[p].log);
  }

  /** A stretch of a run in which host p does not restart. */
  ghost predicate Lifetime(b: seq<C.State>, acts: seq<C.Action>, p: NodeId) {
    && |b| == |acts| + 1 && Reachable(b[0]) && p in b[0].hosts
    && forall i | 0 <= i < |acts| ::
      C.Can(b[i], acts[i]) && !Restarts(b[i], acts[i], p) && b[i + 1] == C.Perform(b[i], acts[i])
  }

  /** A twin beside the host at every moment, which takes every action with it. */
  ghost predicate InStep(b: seq<C.State>, acts: seq<C.Action>, p: NodeId, us: seq<Node>, prefixes: seq<Log>,
                         s: P.State)
  {
    && |us| == |b| == |acts| + 1 && |prefixes| == |acts| && Behind(b[|acts|], s, p, us[|acts|])
    && (forall i | 0 <= i < |b| :: p in b[i].hosts && Twin(b[i].hosts[p].node, us[i]))
    && forall i | 0 <= i < |acts| :: TwinMoves(b[i].hosts[p].node, acts[i], p, us[i], us[i + 1], prefixes[i])
  }

  /** Over a whole lifetime, compactions and snapshot installs included, the host cannot be told from
      a node that keeps its log for ever. */
  lemma {:induction false} LifetimeInvisible(b: seq<C.State>, acts: seq<C.Action>, p: NodeId)
    returns (us: seq<Node>, prefixes: seq<Log>, s: P.State)
    requires Lifetime(b, acts, p)
    ensures InStep(b, acts, p, us, prefixes, s)
    decreases |acts|
  {
    hide Reachable, ClusterRel, Twin, TwinMoves, Restarts, C.Can, C.Perform, Formed;
    var k := |acts|;
    if k == 0 {
      var u: Node;
      s, u := TwinExists(b[0], p);
      us, prefixes := [u], [];
    } else {
      var prefix: Log, u: Node;
      us, prefixes, s := LifetimeInvisible(b[..k], acts[..k - 1], p);
      assert acts[..k - 1] + [acts[k - 1]] == acts;
      s, u, prefix := CompactionInvisible(b[k - 1], s, acts[k - 1], p, us[k - 1]);
      us, prefixes := us + [u], prefixes + [prefix];
    }
  }

  /** The state machine is the fold of the twin's log up to the applier's position, whether it got
      there by applying entries, by restoring a snapshot or by starting from one. */
  lemma StateIsFoldOfLog(c: C.State, s: P.State, p: NodeId, u: Node)
    requires Behind(c, s, p, u)
    ensures C.Position(c.At(p)) <= c.At(p).node.commitIndex <= |Full(u)| && KvIsFold(c.At(p), Full(u))
  {
    hide ClusterRel, Inv, NodeRel, ApplierRel, HostRel, RequestsRel, ConfigRel, Fold, C.Position, Compacted, Indexed;
    HostFacts(c, s, p);
    RelLog(c.hosts[p].node, s.nodes[p]);
    ApplierKv(c.hosts[p], s.nodes[p]);
  }

  // ---- Applied once ----------------------------------------------------------------------------

  lemma ReachableNext(c: C.State, act: C.Action)
    requires Reachable(c) && C.Can(c, act)
    ensures Reachable(C.Perform(c, act))
  {
    hide C.Can, C.Perform, C.Init;
    var b :| C.Run(b) && C.Last(b) == c;
    var b' := b + [C.Perform(c, act)];
    forall i | 0 <= i < |b'| - 1 ensures C.Next(b'[i], b'[i + 1]) {
      if i < |b| - 1 { assert C.Next(b[i], b[i + 1]); }
    }
    assert C.Run(b');
  }

  lemma {:induction false} PositionGrows(b: seq<C.State>, acts: seq<C.Action>, p: NodeId, i: nat, j: nat)
    requires Lifetime(b, acts, p) && i <= j < |b| && Reachable(Now(b, i)) && Hosted(b, i, p)
    ensures Reachable(Now(b, j)) && Hosted(b, j, p) && C.Position(HostAt(b, j, p)) >= C.Position(HostAt(b, i, p))
    decreases j - i
  {
    hide Reachable, C.Can, C.Perform, Restarts, C.Position;
    if i < j {
      PositionGrows(b, acts, p, i, j - 1);
      assert C.Can(b[j - 1], acts[j - 1]) && b[j - 1 + 1] == C.Perform(b[j - 1], acts[j - 1]);
      PositionNeverFalls(b[j - 1], acts[j - 1], p);
      ReachableNext(b[j - 1], acts[j - 1]);
    }
  }

  ghost predicate AppliesAt(acts: seq<C.Action>, i: nat, p: NodeId) { i < |acts| && acts[i] == C.ApplyOne(p) }

  /** Both hosts are about to apply an entry, the second one with a larger index. */
  ghost predicate AppliesLater(h: C.Host, h': C.Host) {
    var x, y := h.applier, h'.applier;
    && x.Applying? && x.done < |x.batch| && y.Applying? && y.done < |y.batch|
    && x.batch[x.done].index < y.batch[y.done].index
  }

  /** Each entry is applied exactly once per lifetime, in log order: of two Apply calls of one
      process the later is for a later index. */
  lemma AppliedOnce(b: seq<C.State>, acts: seq<C.Action>, p: NodeId, i: nat, j: nat)
    requires Lifetime(b, acts, p) && i < j && AppliesAt(acts, i, p) && AppliesAt(acts, j, p)
    ensures Hosted(b, i, p) && Hosted(b, j, p) && AppliesLater(HostAt(b, i, p), HostAt(b, j, p))
  {
    hide Reachable, C.Perform, Restarts, C.Position, C.Can;
    PositionGrows(b, acts, p, 0, i);
    assert C.Can(b[i], acts[i]) && b[i + 1] == C.Perform(b[i], acts[i]) && C.Can(b[j], acts[j]);
    AppliesInOrder(b[i], p);
    PositionGrows(b, acts, p, 0, i + 1);
    PositionGrows(b, acts, p, i + 1, j);
    AppliesInOrder(b[j], p);
  }
}
