/** Crashes, at rest or in the middle of a handler, and the restarts that follow. */
module CrashSimulation {
  import opened Types
  import opened SentinelLog
  import opened WalRecords
  import opened KvState
  import opened NodeState
  import opened NodeRelation
  import opened NodeSimulation
  import opened AppendSimulation
  import opened Recovery
  import opened ClusterRelation
  import opened ClusterSimulation
  import opened ApplierSimulation
  import P = Protocol
  import opened ProtocolInvariant
  import C = Cluster

  lemma RecoveredFields(h: C.Host, d: Disk)
    requires C.RecoverFrom(h, d).Some?
    ensures var n := C.RecoverFrom(h, d).value;
      && n.id == h.node.id && n.peers == h.node.peers && n.disk == d && n.pending == None
      && |n.log| >= 1 && n.lastApplied == n.commitIndex == Base(n.log)
  {
    hide Replay, Beyond;
  }

  /** NewNode refuses a disk whose write-ahead log cannot be replayed. */
  lemma Unstartable(h: C.Host, d: Disk)
    requires Replay(d.wal).None?
    ensures C.RecoverFrom(h, d).None?
  {
  }

  /** The rebooted state machine is what the recovered snapshot says: the fold up to the boundary. */
  lemma RebootRel(h: C.Host, d: Disk, n: P.Node)
    requires RecoversAs(h.node, d, n)
    ensures ApplierRel(C.Reboot(h, d), n)
  {
    hide Recover, WalRel, Compacted, LogRel;
    RecoveredFields(h, d);
  }

  lemma SimReboot(c: C.State, c': C.State, s: P.State, s': P.State, p: NodeId, h: C.Host, d: Disk)
    requires ClusterRel(c, s) && p in c.hosts && Onward(s, s', p) && p in s'.nodes
    requires h == c.At(p).(damage := s'.At(p).damage)
    requires RecoversAs(h.node, d, s'.At(p))
    requires c' == c.(hosts := c.hosts[p := C.Reboot(h, d)])
    ensures Followed(c', s, s')
  {
    hide Inv, Reaches, NodeRel, ConfigRel, ApplierRel, RecordRel, PacketRel, Recover, PastExtends;
    HostFacts(c, s, p);
    var h' := C.Reboot(h, d);
    RecoveredFields(h, d);
    RebootRel(h, d, s'.nodes[p]);
    MembersKept(s.h.past, s'.h.past);
    SameConfig(c.hosts[p].node, h'.node, p, s'.h.past.members);
    RecordForGood(c, s.h.past, s'.h.past);
    RecordSame(c, c', s'.h.past);
    Assembled(c, c', s, s', p);
  }

  lemma MembersKept(x: P.Past, x': P.Past)
    requires PastExtends(x, x')
    ensures x'.members == x.members
  {
  }

  /** A host that NewNode refuses to start takes no further part; for the protocol it is merely silent. */
  lemma SimRefused(c: C.State, c': C.State, s: P.State, p: NodeId, h: C.Host, d: Disk)
    requires ClusterRel(c, s) && p in c.hosts && Replay(d.wal).None? && h == c.At(p) && !h.damage.Intact?
    requires c' == c.(hosts := c.hosts[p := C.Reboot(h, d)])
    ensures Followed(c', s, s)
  {
    hide Followed, ClusterRel, Inv, NodeRel, ConfigRel, ApplierRel, RequestsRel, HostRel, Recover, Leads;
    HostFacts(c, s, p);
    Unstartable(h, d);
    ApplierOf(c.hosts[p], C.Reboot(h, d), s.nodes[p]);
    ApplierActed(c, c', s, p, C.Reboot(h, d));
  }

  lemma MustBeTorn(c: C.State, s: P.State, p: NodeId)
    requires ClusterRel(c, s) && p in c.hosts && Replay(c.At(p).node.disk.wal).None?
    ensures !c.At(p).damage.Intact?
  {
    hide ClusterRel, Inv, ApplierRel, RequestsRel, ConfigRel, DiskRel, Replay, HostRel;
    HostFacts(c, s, p);
    OnlyTornRefused(c.hosts[p].node.disk, s.nodes[p], Base(c.hosts[p].node.log));
  }

  lemma SimCrashAtRest(c: C.State, s: P.State, p: NodeId, c': C.State) returns (s': P.State)
    requires ClusterRel(c, s) && p in c.hosts
    requires c' == C.WithHost(c, p, C.Reboot(c.At(p), c.At(p).node.disk))
    ensures Followed(c', s, s')
  {
    hide Followed, ClusterRel, Inv, Onward, NodeRel, ConfigRel, ApplierRel, RequestsRel, HostRel, Recover, Replay,
         C.Reboot;
    HostFacts(c, s, p);
    var h := c.hosts[p];
    if Replay(h.node.disk.wal).Some? {
      s' := SimCrash(s, p, h.node);
      SimReboot(c, c', s, s', p, h, h.node.disk);
    } else {
      s' := s;
      MustBeTorn(c, s, p);
      SimRefused(c, c', s, p, h, h.node.disk);
    }
  }

  lemma SimTornTermStep(c: C.State, s: P.State, p: NodeId, t: nat) returns (s': P.State)
    requires ClusterRel(c, s) && C.Can(c, C.TornTerm(p, t))
    ensures Followed(C.Perform(c, C.TornTerm(p, t)), s, s')
  {
    hide Followed, ClusterRel, Inv, Onward, NodeRel, ConfigRel, ApplierRel, RequestsRel, HostRel, Recover, Replay,
         C.Reboot, C.Delivered;
    HostFacts(c, s, p);
    var h, c' := c.hosts[p], C.Perform(c, C.TornTerm(p, t));
    var d := h.node.disk.(hard := HardState(t, None));
    if Replay(d.wal).Some? {
      s' := SimTornTerm(s, p, h.node, t);
      SimReboot(c, c', s, s', p, h, d);
    } else {
      s' := s;
      MustBeTorn(c, s, p);
      SimRefused(c, c', s, p, h, d);
    }
  }

  lemma SimTornAppendStep(c: C.State, s: P.State, k: C.Packet, j: nat) returns (s': P.State)
    requires ClusterRel(c, s) && C.Can(c, C.TornAppend(k, j))
    ensures Followed(C.Perform(c, C.TornAppend(k, j)), s, s')
  {
    hide Followed, Inv, Ahead, Onward, ApplierRel, RequestsRel, HostRel, ConfigRel, RecordRel, AppendMatch, Recover,
         Replay, C.Reboot, NodeRel, RecordsFor, Check;
    var p, a, n := k.to, k.append, c.hosts[k.to].node;
    HostFacts(c, s, p);
    assert PacketRel(k, s.h);
    var m :| m in s.h.appends && AppendMatch(a, m);
    var c', d := C.Perform(c, C.TornAppend(k, j)), C.TornDisk(n, a, j);
    s' := TornRun(s, p, n, a, m, j);
    if Replay(d.wal).Some? {
      SimReboot(c, c', s, s', p, c.hosts[p], d);
    } else {
      s' := s;
      SimRefused(c, c', s, p, c.hosts[p], d);
    }
  }

  ghost predicate Passes(n: Node, a: AppendArgs) {
    Numbered(n.log) && Check(n.log, Observe(n, a.term).currentTerm, a).None?
  }

  lemma TornRun(s: P.State, p: NodeId, n: Node, a: AppendArgs, m: P.Append, j: nat) returns (s': P.State)
    requires Inv(s) && p in s.nodes && NodeRel(n, s.At(p)) && m in s.h.appends && AppendMatch(a, m) && p != a.leader
    requires TornAt(n, a.entries, j) && a.term >= n.currentTerm && Passes(n, a)
    ensures Onward(s, s', p) && p in s'.nodes && s'.At(p).damage == s.At(p).damage
    ensures TornAppendAs(Observe(n, a.term), a.entries, j, s.At(p), s'.At(p))
  {
    hide Inv, Reaches, Extends, Recover, Replay, RecordsFor, Check, DiskRel, Leads;
    var o := Observe(n, a.term);
    s' := SimObserve(s, p, n, a.term);
    var f := o.(state := Follower, leaderID := Some(a.leader));
    s' := SimFollow(s, s', p, o, a.leader);
    CheckIsAgreement(s', p, f, a, m);
    s' := SimTornAppend(s, s', p, f, a, m, j);
  }

  lemma SimTornCompactStep(c: C.State, s: P.State, p: NodeId) returns (s': P.State)
    requires ClusterRel(c, s) && C.Can(c, C.TornCompact(p))
    ensures Followed(C.Perform(c, C.TornCompact(p)), s, s')
  {
    hide Followed, ClusterRel, Inv, Onward, NodeRel, ConfigRel, ApplierRel, RequestsRel, HostRel, Recover, Replay,
         C.Reboot, SaveAndCompact, C.Delivered;
    HostFacts(c, s, p);
    var h, c' := c.hosts[p], C.Perform(c, C.TornCompact(p));
    var d := h.node.disk.(snap := Some(Snapshot(h.applier.index, h.applier.term, h.kv)));
    if Replay(d.wal).Some? {
      CompactRel(h, s.nodes[p]);
      s' := SimTornCompact(s, p, h.node, h.applier.index);
      SimReboot(c, c', s, s', p, h, d);
    } else {
      s' := s;
      MustBeTorn(c, s, p);
      SimRefused(c, c', s, p, h, d);
    }
  }

  lemma TornInstallRun(s: P.State, p: NodeId, n: Node, a: SnapshotArgs, m: P.Append) returns (s': P.State)
    requires Inv(s) && p in s.nodes && NodeRel(n, s.At(p)) && m in s.h.appends && SnapshotMatch(a, m)
    requires p != a.leader
    requires a.term >= n.currentTerm && a.snap.lastIndex > n.commitIndex && Replay(n.disk.wal).Some?
    ensures Onward(s, s', p) && p in s'.nodes && DamagedBy(n, a.snap, s.At(p), s'.At(p))
    ensures s'.At(p).log == P.Torn(s.At(p), m.prefix).log && RecoversAs(n, C.TornSave(n, a), s'.At(p))
  {
    hide Inv, Reaches, Extends, Recover, Replay, DiskRel, Compacted, LeaderRel, ElectionRel, Overrules, Fold, Leads;
    var o := Observe(n, a.term);
    s' := SimObserve(s, p, n, a.term);
    s' := SimFollow(s, s', p, o, a.leader);
    s' := SimTornInstall(s, s', p, o.(state := Follower, leaderID := Some(a.leader)), a, m);
  }

  /** A crash between the two writes of an install is followed by the protocol's torn install. */
  lemma SimTornInstallStep(c: C.State, s: P.State, k: C.Packet) returns (s': P.State)
    requires ClusterRel(c, s) && C.Can(c, C.TornInstall(k))
    ensures Followed(C.Perform(c, C.TornInstall(k)), s, s')
  {
    hide Followed, Inv, Ahead, Onward, ApplierRel, RequestsRel, HostRel, ConfigRel, RecordRel, SnapshotMatch, Recover,
         Replay, C.Reboot, NodeRel, ClusterRel, C.Delivered;
    var p, a, n := k.to, k.snapshot, c.hosts[k.to].node;
    HostFacts(c, s, p);
    var m := SnapshotMatchOf(c, s, k, a);
    var c', d := C.Perform(c, C.TornInstall(k)), C.TornSave(n, a);
    if Replay(d.wal).Some? {
      s' := TornInstallRun(s, p, n, a, m);
      TornHostUp(c.hosts[p], a);
      SimReboot(c, c', s, s', p, c.hosts[p].(damage := s'.nodes[p].damage), d);
    } else {
      s' := s;
      MustBeTorn(c, s, p);
      TornHostDown(c.hosts[p], a);
      SimRefused(c, c', s, p, c.hosts[p], d);
    }
  }

  lemma TornHostUp(h: C.Host, a: SnapshotArgs)
    requires Numbered(h.node.log) && C.RecoverFrom(h, C.TornSave(h.node, a)).Some?
    ensures var o := h.(damage := Damaged(h.damage, Overrules(a.snap, h.node.log)));
      C.TornHost(h, a) == C.Reboot(o, C.TornSave(h.node, a)) && C.RecoverFrom(o, C.TornSave(h.node, a)).Some?
  {
    hide Recover;
  }

  lemma TornHostDown(h: C.Host, a: SnapshotArgs)
    requires Numbered(h.node.log) && Replay(C.TornSave(h.node, a).wal).None?
    ensures C.TornHost(h, a) == C.Reboot(h, C.TornSave(h.node, a))
  {
    hide Replay;
  }

  // ---- The end of a batch ----------------------------------------------------------------------

  /** The exact condition for the index panic of maybeSnapshotLocked: a snapshot was installed past
      the batch while it was being applied, and the wrapped difference reaches the threshold. */
  lemma TriggerPanics(n: Node)
    requires Numbered(n.log) && n.lastApplied <= LastLogIndex(n.log) && LastLogIndex(n.log) < UINT64
    ensures SnapshotTrigger(n).OutOfRange? <==>
      n.threshold > 0 && n.lastApplied < Base(n.log) && UINT64 - (Base(n.log) - n.lastApplied) >= n.threshold
    ensures n.lastApplied >= Base(n.log) ==>
      (SnapshotTrigger(n).Capture? <==> n.threshold > 0 && n.lastApplied - Base(n.log) >= n.threshold)
  {
    var d := n.lastApplied - Base(n.log);
    if d < 0 {
      assert (d + UINT64) % UINT64 == d + UINT64;
      assert d % UINT64 == d + UINT64;
    } else {
      assert d % UINT64 == d;
    }
  }

  lemma BatchFinishedRel(h: C.Host, n: P.Node)
    requires ApplierRel(h, n) && NodeRel(h.node, n) && h.applier.Applying? && h.applier.done == |h.applier.batch|
    requires !SnapshotTrigger(h.node.(lastApplied := h.node.lastApplied + |h.applier.batch|)).OutOfRange?
    ensures ApplierRel(C.BatchFinished(h), n) && NodeRel(C.BatchFinished(h).node, n)
  {
    hide NodeRel, ApplierRel, SnapshotTrigger, DiskRel, C.Reboot;
    var n' := h.node.(lastApplied := h.node.lastApplied + |h.applier.batch|);
    NodeRelOf(h.node, n', n);
    BatchDone(h, n, n');
  }

  /** The applier's position after the batch, idle or about to capture the state machine there. */
  lemma BatchDone(h: C.Host, n: P.Node, n': Node)
    requires ApplierRel(h, n) && NodeRel(h.node, n) && h.applier.Applying? && h.applier.done == |h.applier.batch|
    requires n' == h.node.(lastApplied := h.node.lastApplied + |h.applier.batch|)
    ensures ApplierRel(h.(node := n', applier := C.Idle), n) && Numbered(n'.log)
    ensures SnapshotTrigger(n').Capture? ==>
      var t := SnapshotTrigger(n'); ApplierRel(h.(node := n', applier := C.Capturing(t.index, t.term)), n)
  {
    hide DiskRel, LeaderRel, ElectionRel, Compacted, SnapshotTrigger, Fold;
    if SnapshotTrigger(n').Capture? {
      TriggerCaptures(n');
      CompactedTerm(n.log, Base(n'.log), n'.lastApplied);
    }
  }

  lemma TriggerCaptures(n: Node)
    requires Numbered(n.log) && SnapshotTrigger(n).Capture?
    ensures Base(n.log) <= n.lastApplied <= LastLogIndex(n.log)
    ensures SnapshotTrigger(n) == Capture(n.lastApplied, TermOf(n.log, n.lastApplied))
  {
  }

  lemma SimFinishBatch(c: C.State, s: P.State, p: NodeId) returns (s': P.State)
    requires ClusterRel(c, s) && C.Can(c, C.FinishBatch(p))
    ensures Followed(C.Perform(c, C.FinishBatch(p)), s, s')
  {
    hide Followed, ClusterRel, Inv, NodeRel, ConfigRel, ApplierRel, RequestsRel, HostRel, SnapshotTrigger, C.Reboot,
         C.Delivered;
    HostFacts(c, s, p);
    var h := c.hosts[p];
    if SnapshotTrigger(h.node.(lastApplied := h.node.lastApplied + |h.applier.batch|)).OutOfRange? {
      s' := SimCrashAtRest(c, s, p, C.Perform(c, C.FinishBatch(p)));
    } else {
      s' := s;
      BatchFinishedRel(h, s.nodes[p]);
      ApplierActed(c, C.Perform(c, C.FinishBatch(p)), s, p, C.BatchFinished(h));
    }
  }
}
