/** Replication rounds, client requests, the applier and crashes keep the correspondence too. */
module ApplierSimulation {
  import opened Types
  import opened Logs
  import opened SentinelLog
  import opened KvState
  import opened NodeState
  import opened NodeRelation
  import opened NodeSimulation
  import opened AppendSimulation
  import opened Recovery
  import opened ClusterRelation
  import opened ClusterSimulation
  import P = Protocol
  import opened ProtocolInvariant
  import C = Cluster

  // ---- Sending ---------------------------------------------------------------------------------

  /** What the leader sends is the wire form of a request on record. */
  ghost predicate SentAs(n: Node, peer: NodeId, p: NodeId, h: P.History) {
    && Numbered(n.log) && peer in n.nextIndex && 1 <= n.nextIndex[peer] <= LastLogIndex(n.log) + 1
    && match Outbound(n, peer)
      case SendEntries(a) => a.leader == p && exists m :: m in h.appends && AppendMatch(a, m)
      case SendSnapshot(a) => a.leader == p && exists m :: m in h.appends && SnapshotMatch(a, m)
      case Nothing => true
  }

  /** What a replication round puts on the wire is a message of the protocol. */
  lemma SimOutbound(s: P.State, p: NodeId, n: Node, peer: NodeId) returns (s': P.State)
    requires Inv(s) && p in s.nodes && NodeRel(n, s.At(p)) && n.id == p && n.state == Leader && peer in n.peers
    ensures Ahead(s, s', p) && s'.nodes == s.nodes && SentAs(n, peer, p, s'.h)
  {
    hide Inv, Ahead, Onward, WalRel, SnapshotOf, ElectionRel, Compacted, AppendMatch, SnapshotMatch, Outbound;
    Here(s, p);
    var a, b, next := s.nodes[p], Base(n.log), n.nextIndex[peer];
    OutboundMatches(n, a, peer);
    s' := s;
    if next > b {
      s' := Go(s, s, p, P.SendAppend(p, next - 1, |a.log|, n.commitIndex));
      assert a.log[..|a.log|] == a.log;
    } else if n.disk.snap.Some? {
      s' := Go(s, s, p, P.SendAppend(p, 0, b, b));
    }
    assert s'.nodes == s.nodes;
  }

  /** What goes out, against the uncompacted log: a slice of it, or all of it up to the boundary. */
  lemma OutboundMatches(n: Node, a: P.Node, peer: NodeId)
    requires NodeRel(n, a) && n.state == Leader && peer in n.peers
    ensures peer in n.nextIndex && 1 <= n.nextIndex[peer] <= LastLogIndex(n.log) + 1
    ensures match Outbound(n, peer)
      case SendEntries(m) =>
        n.nextIndex[peer] > Base(n.log) && m.leader == n.id
        && AppendMatch(m, P.Append(n.currentTerm, n.id, n.nextIndex[peer] - 1, a.log, n.commitIndex))
      case SendSnapshot(m) =>
        n.nextIndex[peer] <= Base(n.log) <= |a.log| && n.disk.snap.Some? && m.leader == n.id
        && SnapshotMatch(m, P.Append(n.currentTerm, n.id, 0, a.log[..Base(n.log)], Base(n.log)))
      case Nothing => n.nextIndex[peer] <= Base(n.log) && n.disk.snap.None?
  {
    hide WalRel, ElectionRel, Compacted, Fold, TermOf;
    var b, next := Base(n.log), n.nextIndex[peer];
    if next > b {
      CompactedTerm(a.log, b, next - 1);
      CompactedFrom(a.log, b, next - 1);
    } else {
      SnapshotPrefix(a.log, b);
    }
  }

  lemma SnapshotPrefix(log: Log, b: nat)
    requires b <= |log|
    ensures SnapshotOf(log, b) == SnapshotOf(log[..b], |log[..b]|)
  {
    assert log[..b][..b] == log[..b];
  }

  lemma SimReplicate(c: C.State, s: P.State, p: NodeId, peer: NodeId) returns (s': P.State)
    requires ClusterRel(c, s) && C.Can(c, C.ReplicateTo(p, peer))
    ensures Followed(C.Perform(c, C.ReplicateTo(p, peer)), s, s')
  {
    hide Followed, Inv, Ahead, Onward, NodeRel, ApplierRel, RequestsRel, HostRel, RecordRel, Outbound, AppendMatch,
         SnapshotMatch, KeepsCommitted, SameProcess, Leads, Reaches, C.Delivered;
    HostFacts(c, s, p);
    var n := c.hosts[p].node;
    s' := SimOutbound(s, p, n, peer);
    AheadFacts(s, s', p);
    var c' := C.Perform(c, C.ReplicateTo(p, peer));
    assert c'.hosts == c.hosts[p := c.hosts[p].(node := n)];
    SameNode(n) by { RelFormed(n, s.nodes[p], p, s.h.past.members); }
    NodeActed(c, c', s, s', p, n);
  }

  lemma SameNode(n: Node)
    requires Formed(n)
    ensures SameProcess(n, n)
  {
  }

  // ---- Client requests -------------------------------------------------------------------------

  lemma SimClientPropose(c: C.State, s: P.State, p: NodeId, cmd: Command) returns (s': P.State)
    requires ClusterRel(c, s) && C.Can(c, C.ClientPropose(p, cmd))
    ensures Followed(C.Perform(c, C.ClientPropose(p, cmd)), s, s')
  {
    hide Inv, Reaches, NodeRel, ConfigRel, ApplierRel, RequestsRel, RecordRel, PacketRel, AdvanceCommit, Followed,
         C.Delivered;
    HostFacts(c, s, p);
    var h := c.hosts[p];
    s' := SimPropose(s, p, h.node, cmd);
    AheadFacts(s, s', p);
    var n' := Propose(h.node, cmd);
    ProposeSameProcess(h.node, cmd);
    ApplierKept(h, n', s.nodes[p], s'.nodes[p]);
    RequestsForGood(h, s.h.past.led, s'.h.past.led);
    SameConfig(h.node, n', p, s.h.past.members);
    RecordForGood(c, s.h.past, s'.h.past);
    var h' := h.(node := n', proposed := h.proposed + {C.RequestFor(h.node, cmd)});
    ApplierOf(h.(node := n'), h', s'.nodes[p]);
    RequestAdded(h, h', C.RequestFor(h.node, cmd), s'.h.past.led);
    var c' := C.Perform(c, C.ClientPropose(p, cmd));
    RecordSame(c, c', s'.h.past);
    Assembled(c, c', s, s', p);
  }

  lemma ProposeSameProcess(n: Node, cmd: Command)
    requires Formed(n)
    ensures SameProcess(n, Propose(n, cmd))
  {
    hide CommitScan;
  }

  lemma ApplierOf(h: C.Host, h': C.Host, n: P.Node)
    requires ApplierRel(h, n) && h'.node == h.node && h'.applier == h.applier && h'.kv == h.kv
    ensures ApplierRel(h', n)
  {
    hide PhaseRel, Fold;
  }

  lemma RequestAdded(h: C.Host, h': C.Host, r: C.Request, led: map<nat, P.Reign>)
    requires RequestsRel(h, led) && Created(led, EntryOf(r)) && r.host == h.node.id == h'.node.id
    requires h'.proposed <= h.proposed + {r} && h'.waiters == h.waiters
    ensures RequestsRel(h', led)
  {
  }

  /** Actions of the key-value server and the applier that the protocol does not see. */
  lemma LocalAction(c: C.State, c': C.State, s: P.State, p: NodeId)
    requires ClusterRel(c, s) && p in c.hosts && p in c'.hosts && c'.hosts == c.hosts[p := c'.At(p)]
    requires c'.net == c.net && c'.panicked == c.panicked && RecordRel(c', s.h.past)
    requires p in s.nodes && HostRel(c'.At(p), p, s.At(p), s.h.past)
    ensures Followed(c', s, s)
  {
    hide HostRel, RecordRel, PacketRel, HistoryOk, NodeOk, Leads;
    assert Inv(s);
    Here(s, p);
    AheadFacts(s, s, p);
    Assembled(c, c', s, s, p);
  }

  lemma SimAwait(c: C.State, s: P.State, p: NodeId, r: C.Request)
    requires ClusterRel(c, s) && C.Can(c, C.AwaitRequest(p, r))
    ensures Followed(C.Perform(c, C.AwaitRequest(p, r)), s, s)
  {
    hide Followed, Inv, NodeRel, ConfigRel, ApplierRel, RequestsRel, RecordRel, Leads, C.Delivered;
    HostFacts(c, s, p);
    var h, c' := c.hosts[p], C.Perform(c, C.AwaitRequest(p, r));
    ApplierOf(h, c'.hosts[p], s.nodes[p]);
    WaiterAdded(h, c'.hosts[p], r, s.h.past.led);
    RecordSame(c, c', s.h.past);
    LocalAction(c, c', s, p);
  }

  lemma WaiterAdded(h: C.Host, h': C.Host, r: C.Request, led: map<nat, P.Reign>)
    requires RequestsRel(h, led) && r in h.proposed && h'.node.id == h.node.id
    requires h'.proposed <= h.proposed && h'.waiters == h.waiters[r.index := r]
    ensures RequestsRel(h', led)
  {
  }

  lemma WaiterRemoved(h: C.Host, h': C.Host, i: nat, led: map<nat, P.Reign>)
    requires RequestsRel(h, led) && h'.node.id == h.node.id && h'.proposed == h.proposed
    requires h'.waiters == h.waiters - {i}
    ensures RequestsRel(h', led)
  {
  }

  lemma SimGiveUp(c: C.State, s: P.State, p: NodeId, i: nat)
    requires ClusterRel(c, s) && C.Can(c, C.GiveUp(p, i))
    ensures Followed(C.Perform(c, C.GiveUp(p, i)), s, s)
  {
    hide Followed, Inv, NodeRel, ConfigRel, ApplierRel, RequestsRel, RecordRel, C.Delivered;
    HostFacts(c, s, p);
    var h, c' := c.hosts[p], C.Perform(c, C.GiveUp(p, i));
    ApplierOf(h, c'.hosts[p], s.nodes[p]);
    WaiterRemoved(h, c'.hosts[p], i, s.h.past.led);
    RecordSame(c, c', s.h.past);
    LocalAction(c, c', s, p);
  }

  // ---- The applier -----------------------------------------------------------------------------

  /** Parts of a host the protocol's node does not depend on. */
  predicate SameNodeState(n: Node, n': Node) { n' == n.(lastApplied := n'.lastApplied, pending := n'.pending) }

  lemma NodeRelOf(n: Node, n': Node, a: P.Node)
    requires NodeRel(n, a) && SameNodeState(n, n')
    ensures NodeRel(n', a)
  {
    hide DiskRel, Compacted;
  }

  /** An applier action that leaves client requests and the record alone. */
  lemma ApplierActed(c: C.State, c': C.State, s: P.State, p: NodeId, h': C.Host)
    requires ClusterRel(c, s) && p in c.hosts && c' == c.(hosts := c.hosts[p := h'])
    requires p in s.nodes && NodeRel(h'.node, s.At(p)) && ApplierRel(h', s.At(p))
    requires h'.node.id == c.At(p).node.id && h'.node.peers == c.At(p).node.peers
    requires h'.proposed == c.At(p).proposed && h'.waiters == c.At(p).waiters
    requires h'.damage == c.At(p).damage && (h'.up || !h'.damage.Intact?)
    ensures Followed(c', s, s)
  {
    hide Followed, Inv, NodeRel, ConfigRel, ApplierRel, RequestsRel, RecordRel;
    HostFacts(c, s, p);
    SameConfig(c.hosts[p].node, h'.node, p, s.h.past.members);
    RequestsSame(c.hosts[p], h', s.h.past.led);
    RecordSame(c, c', s.h.past);
    LocalAction(c, c', s, p);
  }

  lemma RequestsSame(h: C.Host, h': C.Host, led: map<nat, P.Reign>)
    requires RequestsRel(h, led) && h'.node.id == h.node.id && h'.proposed == h.proposed && h'.waiters == h.waiters
    ensures RequestsRel(h', led)
  {
  }

  lemma TakenRel(h: C.Host, n: P.Node)
    requires ApplierRel(h, n) && NodeRel(h.node, n) && h.node.pending.Some? && h.applier.Idle?
    ensures ApplierRel(C.SnapshotTaken(h), n)
  {
    hide DiskRel, LeaderRel, ElectionRel, Compacted;
  }

  lemma SimTakeSnapshot(c: C.State, s: P.State, p: NodeId)
    requires ClusterRel(c, s) && C.Can(c, C.TakeSnapshot(p))
    ensures Followed(C.Perform(c, C.TakeSnapshot(p)), s, s)
  {
    hide Followed, Inv, NodeRel, ConfigRel, ApplierRel, RequestsRel, RecordRel, Leads, ClusterRel, C.Delivered;
    HostFacts(c, s, p);
    TakenRel(c.hosts[p], s.nodes[p]);
    NodeRelOf(c.hosts[p].node, C.SnapshotTaken(c.hosts[p]).node, s.nodes[p]);
    ApplierActed(c, C.Perform(c, C.TakeSnapshot(p)), s, p, C.SnapshotTaken(c.hosts[p]));
  }

  lemma RestoredRel(h: C.Host, n: P.Node)
    requires ApplierRel(h, n) && h.applier.Restoring?
    ensures ApplierRel(C.Restored(h), n)
  {
    hide Fold;
  }

  lemma SimFinishRestore(c: C.State, s: P.State, p: NodeId)
    requires ClusterRel(c, s) && C.Can(c, C.FinishRestore(p))
    ensures Followed(C.Perform(c, C.FinishRestore(p)), s, s)
  {
    hide Followed, Inv, NodeRel, ConfigRel, ApplierRel, RequestsRel, RecordRel, Leads, Reaches, ClusterRel, C.Delivered;
    HostFacts(c, s, p);
    RestoredRel(c.hosts[p], s.nodes[p]);
    NodeRelOf(c.hosts[p].node, C.Restored(c.hosts[p]).node, s.nodes[p]);
    ApplierActed(c, C.Perform(c, C.FinishRestore(p)), s, p, C.Restored(c.hosts[p]));
  }

  lemma BatchIs(n: Node, a: P.Node)
    requires LogRel(n, a) && n.commitIndex == a.commit && Base(n.log) <= n.lastApplied <= n.commitIndex
    ensures C.Batch(n) == a.log[n.lastApplied..a.commit]
  {
    hide EntriesFrom, LastTerm;
    CompactedFrom(a.log, Base(n.log), n.lastApplied);
    hide Compacted;
    assert a.log[n.lastApplied..][..a.commit - n.lastApplied] == a.log[n.lastApplied..a.commit];
  }

  lemma BatchRel(h: C.Host, n: P.Node)
    requires ApplierRel(h, n) && NodeRel(h.node, n) && Formed(h.node) && h.applier.Idle? && h.node.pending.None?
    requires Base(h.node.log) <= h.node.lastApplied <= h.node.commitIndex
    ensures ApplierRel(h.(applier := C.Applying(C.Batch(h.node), 0)), n)
  {
    hide DiskRel, LeaderRel, ElectionRel, Compacted, Numbered, C.Batch, LogRel, Formed;
    BatchIs(h.node, n);
  }

  lemma SimTakeBatch(c: C.State, s: P.State, p: NodeId)
    requires ClusterRel(c, s) && C.Can(c, C.TakeBatch(p))
    ensures Followed(C.Perform(c, C.TakeBatch(p)), s, s)
  {
    hide Followed, Inv, NodeRel, ConfigRel, ApplierRel, RequestsRel, RecordRel, ClusterRel, C.Delivered;
    HostFacts(c, s, p);
    BatchRel(c.hosts[p], s.nodes[p]);
    ApplierActed(c, C.Perform(c, C.TakeBatch(p)), s, p,
                 c.hosts[p].(applier := C.Applying(C.Batch(c.hosts[p].node), 0)));
  }

  /** The entry about to be applied is the next one of the uncompacted log, and it is committed. */
  lemma NextApplied(h: C.Host, n: P.Node)
    requires ApplierRel(h, n) && h.applier.Applying? && h.applier.done < |h.applier.batch|
    ensures C.Position(h) < n.commit && n.commit <= |n.log|
    ensures h.applier.batch[h.applier.done] == n.log[C.Position(h)]
  {
  }

  lemma AppliedRel(h: C.Host, n: P.Node)
    requires ApplierRel(h, n) && h.applier.Applying? && h.applier.done < |h.applier.batch|
    ensures ApplierRel(C.AppliedHost(h), n)
  {
    hide SnapshotOf;
    NextApplied(h, n);
    FoldStep(n.log, C.Position(h));
  }

  lemma CommittedSettled(s: P.State, p: NodeId, i: nat)
    requires Inv(s) && p in s.nodes && i < s.At(p).commit
    ensures i < |s.At(p).log| && Settled(s.h.past, s.At(p).log[i]) && s.At(p).log[i].index == i + 1
    ensures Created(s.h.past.led, s.At(p).log[i])
  {
    hide HistoryOk, PastOk, NodeOk, Chosen, Leads;
    NodeFacts(s, p);
    LogIndexed(s, p);
    NodeCovered(s.h, p, s.nodes[p]);
    var n, x := s.nodes[p], s.h.past;
    var t: nat, k: nat :| t <= n.term && CoveredBy(x, n.log, n.commit, t, k);
    assert Agree(n.log, x.led[n.log[i].term].log, i + 1);
  }

  /** A waiter of the applied entry's own term was waiting for exactly that command. */
  lemma FiredSettled(h: C.Host, e: LogEntry, x: P.Past)
    requires RequestsRel(h, x.led) && Created(x.led, e) && Settled(x, e)
    ensures forall r | r in C.Fired(h, e) :: r.host == h.node.id && EntryOf(r) == e && Settled(x, EntryOf(r))
  {
    hide Settled;
  }

  lemma RecordAt(c: C.State, s: P.State)
    requires ClusterRel(c, s)
    ensures RecordRel(c, s.h.past)
  {
    hide Inv, HostRel, RecordRel;
  }

  lemma RecordGrows(c: C.State, c': C.State, x: P.Past, p: NodeId, fired: set<C.Request>, e: LogEntry)
    requires RecordRel(c, x) && Settled(x, e)
    requires c'.acked == c.acked + fired && c'.applied == c.applied + {C.Applied(p, e)}
    requires forall r | r in fired :: r.host == p && EntryOf(r) == e
    ensures RecordRel(c', x)
  {
    hide Settled;
  }

  lemma SimApplyOne(c: C.State, s: P.State, p: NodeId)
    requires ClusterRel(c, s) && C.Can(c, C.ApplyOne(p))
    ensures Followed(C.Perform(c, C.ApplyOne(p)), s, s)
  {
    hide Followed, ClusterRel, Inv, NodeRel, ApplierRel, RequestsRel, RecordRel, Settled, Created, Leads, C.Delivered;
    HostFacts(c, s, p);
    var h, c' := c.hosts[p], C.Perform(c, C.ApplyOne(p));
    var e := h.applier.batch[h.applier.done];
    NextApplied(h, s.nodes[p]);
    AppliedRel(h, s.nodes[p]);
    CommittedSettled(s, p, C.Position(h));
    FiredSettled(h, e, s.h.past);
    WaiterRemoved(h, C.AppliedHost(h), e.index, s.h.past.led);
    RecordAt(c, s);
    RecordGrows(c, c', s.h.past, p, C.Fired(h, e), e);
    LocalAction(c, c', s, p);
  }

  // ---- Compaction ------------------------------------------------------------------------------

  lemma CompactedNodeRel(c: Node, n: P.Node, i: nat)
    requires NodeRel(c, n) && Base(c.log) < i <= n.commit
    ensures NodeRel(SaveAndCompact(c, SnapshotOf(n.log, i)), n)
  {
    hide WalRel, SnapRel, DiskRel, Compacted, EntriesFrom, SnapshotOf;
    SnapshotThenCompact(c, n, i);
  }

  lemma CompactRel(h: C.Host, n: P.Node)
    requires ApplierRel(h, n) && NodeRel(h.node, n) && h.applier.Capturing? && Base(h.node.log) < h.applier.index
    ensures Snapshot(h.applier.index, h.applier.term, h.kv) == SnapshotOf(n.log, h.applier.index)
    ensures h.applier.index <= n.commit && ApplierRel(C.CaptureFinished(h), n)
  {
    hide DiskRel, LeaderRel, ElectionRel, Compacted;
  }

  lemma CaptureFinishedRel(h: C.Host, n: P.Node)
    requires ApplierRel(h, n) && NodeRel(h.node, n) && h.applier.Capturing?
    ensures NodeRel(C.CaptureFinished(h).node, n) && ApplierRel(C.CaptureFinished(h), n)
  {
    hide DiskRel, LeaderRel, ElectionRel, Compacted;
    if Base(h.node.log) < h.applier.index {
      CompactRel(h, n);
      CompactedNodeRel(h.node, n, h.applier.index);
    }
  }

  lemma SimFinishCapture(c: C.State, s: P.State, p: NodeId)
    requires ClusterRel(c, s) && C.Can(c, C.FinishCapture(p))
    ensures Followed(C.Perform(c, C.FinishCapture(p)), s, s)
  {
    hide Followed, Inv, NodeRel, ConfigRel, ApplierRel, RequestsRel, RecordRel, ClusterRel, C.Delivered;
    HostFacts(c, s, p);
    CaptureFinishedRel(c.hosts[p], s.nodes[p]);
    ApplierActed(c, C.Perform(c, C.FinishCapture(p)), s, p, C.CaptureFinished(c.hosts[p]));
  }
}
