/** Every action of the running system is followed by the uncompacted protocol. */
module ClusterSimulation {
  import opened Types
  import opened Logs
  import opened SentinelLog
  import opened NodeState
  import opened NodeRelation
  import opened NodeSimulation
  import opened AppendSimulation
  import opened ClusterRelation
  import P = Protocol
  import opened ProtocolInvariant
  import C = Cluster

  // ---- Handlers --------------------------------------------------------------------------------

  /** What a handler other than InstallSnapshot leaves alone. */
  predicate SameProcess(n: Node, n': Node) {
    && n'.id == n.id && n'.peers == n.peers && n'.threshold == n.threshold && n'.lastApplied == n.lastApplied
    && n'.pending == n.pending && |n.log| >= 1 && |n'.log| >= 1 && Base(n'.log) == Base(n.log)
  }

  lemma SnapshotKept(s: Snapshot, log: Log, log': Log, i: nat)
    requires i <= |log| && s == SnapshotOf(log, i) && Agree(log, log', i)
    ensures s == SnapshotOf(log', i)
  {
    assert log[..i] == log'[..i];
  }

  lemma PhaseKept(a: C.Applier, applied: nat, n: P.Node, n': P.Node)
    requires PhaseRel(a, applied, n) && KeepsCommitted(n, n') && n'.commit <= |n'.log| && applied <= n.commit
    ensures PhaseRel(a, applied, n')
  {
    match a
    case Idle =>
    case Restoring(s) => SnapshotKept(s, n.log, n'.log, s.lastIndex);
    case Applying(batch, done) => assert batch == n'.log[applied..applied + |batch|];
    case Capturing(i, t) =>
  }

  lemma KvKept(h: C.Host, h': C.Host, n: P.Node, n': P.Node)
    requires KvRel(h, n) && KeepsCommitted(n, n') && n'.commit <= |n'.log|
    requires h'.kv == h.kv && C.Position(h') == C.Position(h)
    ensures KvRel(h', n')
  {
    assert n.log[..C.Position(h)] == n'.log[..C.Position(h)];
  }

  lemma ApplierKept(h: C.Host, n': Node, a: P.Node, a': P.Node)
    requires ApplierRel(h, a) && NodeRel(h.node, a) && NodeRel(n', a') && SameProcess(h.node, n')
    requires KeepsCommitted(a, a')
    ensures ApplierRel(h.(node := n'), a')
  {
    hide DiskRel, LeaderRel, ElectionRel, Compacted;
    PhaseKept(h.applier, h.node.lastApplied, a, a');
    KvKept(h, h.(node := n'), a, a');
    if h.node.pending.Some? { SnapshotKept(h.node.pending.value, a.log, a'.log, Base(h.node.log)); }
  }

  /** One host handled something: its node changed, and it may have sent packets. */
  lemma NodeActed(c: C.State, c': C.State, s: P.State, s': P.State, p: NodeId, n': Node)
    requires ClusterRel(c, s) && p in c.hosts && Ahead(s, s', p) && p in s'.nodes && NodeRel(n', s'.At(p))
    requires SameProcess(c.At(p).node, n')
    requires c'.hosts == c.hosts[p := c.At(p).(node := n')] && c'.panicked == c.panicked
    requires c'.acked == c.acked && c'.applied == c.applied
    requires forall k | k in c'.net && k !in c.net :: PacketRel(k, s'.h)
    ensures Followed(c', s, s')
  {
    hide Inv, Reaches, NodeRel, ApplierRel, RequestsRel, RecordRel, PacketRel;
    assert HostRel(c.hosts[p], p, s.nodes[p], s.h.past);
    ApplierKept(c.hosts[p], n', s.nodes[p], s'.nodes[p]);
    RequestsForGood(c.hosts[p], s.h.past.led, s'.h.past.led);
    RequestsOfNode(c.hosts[p], n', s'.h.past.led);
    SameConfig(c.hosts[p].node, n', p, s.h.past.members);
    RecordForGood(c, s.h.past, s'.h.past);
    RecordSame(c, c', s'.h.past);
    Assembled(c, c', s, s', p);
  }

  lemma RequestsOfNode(h: C.Host, n: Node, led: map<nat, P.Reign>)
    requires RequestsRel(h, led) && n.id == h.node.id
    ensures RequestsRel(h.(node := n), led)
  {
  }

  lemma RecordSame(c: C.State, c': C.State, past: P.Past)
    requires RecordRel(c, past) && c'.acked == c.acked && c'.applied == c.applied
    ensures RecordRel(c', past)
  {
  }

  lemma HostFacts(c: C.State, s: P.State, p: NodeId)
    requires ClusterRel(c, s) && p in c.hosts
    ensures Inv(s) && p in s.nodes && s.nodes.Keys == s.h.past.members
    ensures HostRel(c.At(p), p, s.At(p), s.h.past)
    ensures NodeRel(c.At(p).node, s.At(p)) && ConfigRel(c.At(p).node, p, s.h.past.members)
    ensures ApplierRel(c.At(p), s.At(p)) && RequestsRel(c.At(p), s.h.past.led)
    ensures c.At(p).damage == s.At(p).damage
  {
    hide HistoryOk, NodeOk, NodeRel, ApplierRel, RequestsRel, PacketRel, RecordRel;
  }

  lemma SimElectionTimeout(c: C.State, s: P.State, p: NodeId) returns (s': P.State)
    requires ClusterRel(c, s) && C.Can(c, C.ElectionTimeout(p))
    ensures Followed(C.Perform(c, C.ElectionTimeout(p)), s, s')
  {
    hide ClusterRel, Followed, Inv, Ahead, NodeRel, ConfigRel, ApplierRel, RequestsRel, HostRel, Onward, C.Delivered;
    HostFacts(c, s, p);
    var n := c.hosts[p].node;
    s' := SimTimeout(s, p, n);
    AheadFacts(s, s', p);
    NodeActed(c, C.Perform(c, C.ElectionTimeout(p)), s, s', p, StartElection(n));
  }

  lemma SimDeliverVoteRequest(c: C.State, s: P.State, k: C.Packet) returns (s': P.State)
    requires ClusterRel(c, s) && C.Can(c, C.Deliver(k)) && k.VoteReqPacket?
    ensures Followed(C.Perform(c, C.Deliver(k)), s, s')
  {
    hide Followed, Inv, Ahead, NodeRel, ConfigRel, ApplierRel, RequestsRel, HostRel, RecordRel, Onward;
    HostFacts(c, s, k.to);
    assert PacketRel(k, s.h);
    var n := c.hosts[k.to].node;
    s' := SimRequestVote(s, k.to, n, k.vote);
    AheadFacts(s, s', k.to);
    NodeActed(c, C.Perform(c, C.Deliver(k)), s, s', k.to, OnRequestVote(n, k.vote).0);
  }

  lemma SimDeliverVoteReply(c: C.State, s: P.State, k: C.Packet) returns (s': P.State)
    requires ClusterRel(c, s) && C.Can(c, C.Deliver(k)) && k.VoteRepPacket?
    ensures Followed(C.Perform(c, C.Deliver(k)), s, s')
  {
    hide Followed, Inv, Ahead, NodeRel, ConfigRel, ApplierRel, RequestsRel, HostRel, RecordRel, Onward;
    HostFacts(c, s, k.to);
    assert PacketRel(k, s.h);
    var n := c.hosts[k.to].node;
    s' := SimVoteReply(s, k.to, n, k.from, k.term, k.voteReply);
    AheadFacts(s, s', k.to);
    NodeActed(c, C.Perform(c, C.Deliver(k)), s, s', k.to, OnVoteReply(n, k.from, k.term, k.voteReply));
  }

  lemma AppendSameProcess(n: Node, a: AppendArgs)
    requires Numbered(n.log) && OnAppendEntries(n, a).Replied?
    ensures SameProcess(n, OnAppendEntries(n, a).node)
  {
    hide FirstNew, FirstOfTerm, RecordsFor;
  }

  ghost predicate Answered(n: Node, k: C.Packet) {
    k.AppendReqPacket? && Numbered(n.log) && OnAppendEntries(n, k.append).Replied?
  }

  lemma SimDeliverAppend(c: C.State, s: P.State, k: C.Packet) returns (s': P.State)
    requires ClusterRel(c, s) && C.Can(c, C.Deliver(k)) && k.AppendReqPacket?
    ensures Followed(C.Perform(c, C.Deliver(k)), s, s')
    ensures Answered(c.At(k.to).node, k)
  {
    hide Followed, Inv, Ahead, NodeRel, ConfigRel, ApplierRel, RequestsRel, HostRel, RecordRel, OnAppendEntries, Merge,
         AppendMatch, Onward;
    HostFacts(c, s, k.to);
    assert PacketRel(k, s.h);
    var m :| m in s.h.appends && AppendMatch(k.append, m);
    var n := c.hosts[k.to].node;
    s' := SimAppendEntries(s, k.to, n, k.append, m);
    AheadFacts(s, s', k.to);
    AppendSameProcess(n, k.append);
    NodeActed(c, C.Perform(c, C.Deliver(k)), s, s', k.to, OnAppendEntries(n, k.append).node);
  }

  lemma ReplySameProcess(n: Node, peer: NodeId, a: AppendArgs, r: AppendReply)
    requires Formed(n)
    ensures SameProcess(n, OnAppendReply(n, peer, a, r))
  {
    hide CommitScan, NextIndexAfterRejection;
  }

  lemma SimDeliverAppendReply(c: C.State, s: P.State, k: C.Packet) returns (s': P.State)
    requires ClusterRel(c, s) && C.Can(c, C.Deliver(k)) && k.AppendRepPacket?
    ensures Followed(C.Perform(c, C.Deliver(k)), s, s')
  {
    hide Followed, Inv, Ahead, NodeRel, ConfigRel, ApplierRel, RequestsRel, HostRel, RecordRel, OnAppendReply, Onward;
    HostFacts(c, s, k.to);
    assert PacketRel(k, s.h);
    var n := c.hosts[k.to].node;
    s' := SimAppendReply(s, k.to, n, k.from, k.append, k.appendReply);
    AheadFacts(s, s', k.to);
    ReplySameProcess(n, k.from, k.append, k.appendReply);
    NodeActed(c, C.Perform(c, C.Deliver(k)), s, s', k.to, OnAppendReply(n, k.from, k.append, k.appendReply));
  }

  lemma SimDeliverSnapshotReply(c: C.State, s: P.State, k: C.Packet) returns (s': P.State)
    requires ClusterRel(c, s) && C.Can(c, C.Deliver(k)) && k.SnapRepPacket?
    ensures Followed(C.Perform(c, C.Deliver(k)), s, s')
  {
    hide Followed, Inv, Ahead, NodeRel, ConfigRel, ApplierRel, RequestsRel, HostRel, RecordRel, Onward;
    HostFacts(c, s, k.to);
    assert PacketRel(k, s.h);
    var n := c.hosts[k.to].node;
    s' := SimSnapshotReply(s, k.to, n, k.from, k.snapshot, k.snapReply);
    AheadFacts(s, s', k.to);
    NodeActed(c, C.Perform(c, C.Deliver(k)), s, s', k.to, OnSnapshotReply(n, k.from, k.snapshot, k.snapReply));
  }

  // InstallSnapshot moves the boundary and parks the snapshot for the applier.

  /** The installed snapshot waits for the applier, at the new boundary. */
  ghost predicate Parked(n: Node, n': Node, a: P.Node, a': P.Node) {
    && n'.lastApplied == n.lastApplied && |n'.log| >= 1 && a.commit < Base(n'.log) <= |a'.log|
    && n'.pending == Some(SnapshotOf(a'.log, Base(n'.log)))
  }

  lemma ApplierParked(h: C.Host, n': Node, a: P.Node, a': P.Node)
    requires ApplierRel(h, a) && NodeRel(h.node, a) && NodeRel(n', a') && KeepsCommitted(a, a')
    requires Parked(h.node, n', a, a')
    ensures ApplierRel(h.(node := n'), a')
  {
    hide DiskRel, LeaderRel, ElectionRel, Compacted;
    PhaseKept(h.applier, h.node.lastApplied, a, a');
    KvKept(h, h.(node := n'), a, a');
  }

  /** Either nothing about the process changed, or the installed snapshot is parked at the boundary. */
  lemma InstallProcess(n: Node, a: SnapshotArgs, m: Log, log: Log)
    requires Numbered(n.log) && a.snap == SnapshotOf(m, |m|) && |m| <= |log| && Includes(log, m)
    ensures var n' := OnInstallSnapshot(n, a).0;
      || SameProcess(n, n')
      || (n'.id == n.id && n'.peers == n.peers && n'.threshold == n.threshold && n'.lastApplied == n.lastApplied
          && |n'.log| >= 1 && n.commitIndex < Base(n'.log) == |m| && n'.pending == Some(SnapshotOf(log, |m|)))
  {
    hide SurvivingSuffix;
    assert m[..|m|] == log[..|m|];
  }

  ghost predicate Carries(k: C.Packet, a: SnapshotArgs) { k.SnapReqPacket? && k.snapshot == a }

  ghost predicate Folded(a: SnapshotArgs, m: P.Append) {
    a.term == m.term && a.snap == SnapshotOf(m.prefix, |m.prefix|) && |m.prefix| == a.snap.lastIndex
  }

  /** What a snapshot under way stands for. */
  lemma SnapshotMatchOf(c: C.State, s: P.State, k: C.Packet, a: SnapshotArgs) returns (m: P.Append)
    requires ClusterRel(c, s) && k in c.net && Carries(k, a)
    ensures m in s.h.appends && SnapshotMatch(a, m) && k.to != a.leader && Folded(a, m)
  {
    hide Inv, HostRel, RecordRel;
    assert PacketRel(k, s.h);
    m :| m in s.h.appends && SnapshotMatch(a, m);
  }

  lemma SimDeliverSnapshot(c: C.State, s: P.State, k: C.Packet) returns (s': P.State)
    requires ClusterRel(c, s) && C.Can(c, C.Deliver(k)) && k.SnapReqPacket?
    ensures Followed(C.Perform(c, C.Deliver(k)), s, s')
  {
    hide Followed, ClusterRel, Inv, Ahead, NodeRel, ConfigRel, ApplierRel, RequestsRel, HostRel, OnInstallSnapshot,
         SnapshotMatch, SnapshotOf, Merge, Onward;
    var p, n, a := k.to, c.hosts[k.to].node, k.snapshot;
    HostFacts(c, s, p);
    var m := SnapshotMatchOf(c, s, k, a);
    s' := SimInstallSnapshot(s, p, n, a, m);
    AheadFacts(s, s', p);
    var c', n' := C.Perform(c, C.Deliver(k)), OnInstallSnapshot(n, a).0;
    if SameProcess(n, n') {
      NodeActed(c, c', s, s', p, n');
    } else {
      StaleInstallSame(n, a);
      MergedHolds(s, p, n, a, m, s'.nodes[p].log);
      InstallProcess(n, a, m.prefix, s'.nodes[p].log);
      InstallActed(c, c', s, s', p, n');
    }
  }

  lemma StaleInstallSame(n: Node, a: SnapshotArgs)
    requires Numbered(n.log)
    ensures a.term < n.currentTerm ==> SameProcess(n, OnInstallSnapshot(n, a).0)
  {
  }

  lemma MergedHolds(s: P.State, p: NodeId, n: Node, a: SnapshotArgs, m: P.Append, log: Log)
    requires Inv(s) && p in s.nodes && NodeRel(n, s.At(p)) && a.term >= n.currentTerm && m.term == a.term
    requires log == if a.term >= s.At(p).term then Merge(s.At(p).log, m.prefix) else s.At(p).log
    ensures |m.prefix| <= |log| && Includes(log, m.prefix) && n.commitIndex == s.At(p).commit
  {
    hide Inv, DiskRel, LogRel;
  }

  lemma InstallActed(c: C.State, c': C.State, s: P.State, s': P.State, p: NodeId, n': Node)
    requires ClusterRel(c, s) && p in c.hosts && Ahead(s, s', p) && p in s'.nodes && NodeRel(n', s'.At(p))
    requires n'.id == c.At(p).node.id && n'.peers == c.At(p).node.peers && Parked(c.At(p).node, n', s.At(p), s'.At(p))
    requires c'.hosts == c.hosts[p := c.At(p).(node := n')] && c'.panicked == c.panicked
    requires c'.acked == c.acked && c'.applied == c.applied
    requires forall k | k in c'.net && k !in c.net :: PacketRel(k, s'.h)
    ensures Followed(c', s, s')
  {
    hide Inv, Reaches, NodeRel, ApplierRel, RequestsRel, RecordRel, PacketRel;
    assert HostRel(c.hosts[p], p, s.nodes[p], s.h.past);
    ApplierParked(c.hosts[p], n', s.nodes[p], s'.nodes[p]);
    RequestsForGood(c.hosts[p], s.h.past.led, s'.h.past.led);
    RequestsOfNode(c.hosts[p], n', s'.h.past.led);
    SameConfig(c.hosts[p].node, n', p, s.h.past.members);
    RecordForGood(c, s.h.past, s'.h.past);
    RecordSame(c, c', s'.h.past);
    Assembled(c, c', s, s', p);
  }
}
