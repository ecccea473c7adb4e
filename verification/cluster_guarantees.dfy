/** Consequences across several handlers: commit indices, the applier, client acks, compaction and
    re-ordered requests. */
module ClusterGuarantees {
  import opened Types
  import opened Logs
  import opened SentinelLog
  import opened WalRecords
  import opened KvState
  import opened NodeState
  import opened NodeRelation
  import opened NodeSimulation
  import opened AppendSimulation
  import opened ClusterRelation
  import opened ClusterSimulation
  import opened ApplierSimulation
  import opened ClusterSafety
  import opened ClusterProperties
  import P = Protocol
  import opened ProtocolInvariant
  import opened ProtocolSteps
  import PS = ProtocolSafety
  import C = Cluster

  // ---- Leader Completeness ---------------------------------------------------------------------

  /** What a node has committed is in the log of every leader of a later term, compacted or not,
      whenever the two are looked at. */
  lemma LeaderCompletenessOnHosts(b: seq<C.State>, logs: seq<map<NodeId, Whole>>, i: nat, j: nat, p: NodeId, q: NodeId)
    requires LogsBehind(b, logs) && Hosted(b, i, p) && Hosted(b, j, q) && HostAt(b, j, q).node.state == Leader
    requires HostAt(b, j, q).node.currentTerm > HostAt(b, i, p).node.currentTerm
    ensures Agree(LogAt(logs, i, p).log, LogAt(logs, j, q).log, HostAt(b, i, p).node.commitIndex)
  {
    hide LogsBehind, Tracks, ClusterRel, Inv, NodeRel, NodeOk, HistoryOk, PastOk, Ordered, LogOk, Covered, Leads;
    var ss := Tracking(b, logs);
    HostTracked(b, ss, i, p);
    HostTracked(b, ss, j, q);
    var m, n, last := ss[i].nodes[p], ss[j].nodes[q], Max(i, j);
    RelLog(b[i].hosts[p].node, m);
    RelLog(b[j].hosts[q].node, n);
    TrackExtends(b, ss, i, last);
    TrackExtends(b, ss, j, last);
    NodeFacts(ss[i], p);
    NodeCovered(ss[i].h, p, m);
    PS.LeaderAt(ss[j], q);
    PastAt(b, ss, last);
    CoveredAcross(ss[i].h.past, ss[j].h.past, ss[last].h.past, m.log, m.commit, m.term, n.term);
  }

  lemma PastAt(b: seq<C.State>, ss: seq<P.State>, i: nat)
    requires Tracks(b, ss) && i < |b|
    ensures PastOk(PS.Then(ss, i).h.past)
  {
    hide HistoryOk, NodeOk, HostRel, PacketRel, RecordRel, Leads, Reaches;
    assert ClusterRel(b[i], ss[i]);
    InvPast(ss[i]);
  }

  lemma CoveredAcross(x: P.Past, y: P.Past, z: P.Past, log: Log, c: nat, hi: nat, later: nat)
    requires PastExtends(x, z) && PastExtends(y, z) && PastOk(z) && Covered(x, log, c, hi) && later in y.led
    requires hi < later
    ensures Agree(log, y.Led(later), c)
  {
    if c > 0 {
      var t: nat, k: nat :| t <= hi && CoveredBy(x, log, c, t, k);
      PS.LeaderCompletenessAcross(x, y, z, t, k, later);
    }
  }

  // ---- One process lifetime --------------------------------------------------------------------

  /** The action restarts host p. */
  ghost predicate Restarts(c: C.State, act: C.Action, p: NodeId) {
    match act
    case Crash(q) => q == p
    case TornTerm(q, _) => q == p
    case TornAppend(k, _) => k.to == p
    case TornCompact(q) => q == p
    case TornInstall(k) => k.to == p
    case FinishBatch(q) => q == p && p in c.hosts && C.Overruns(c.hosts[p])
    case _ => false
  }

  lemma ScanNeverFalls(n: Node, i: nat)
    requires Numbered(n.log) && Base(n.log) <= n.commitIndex && i <= LastLogIndex(n.log)
    ensures CommitScan(n, i) >= n.commitIndex
  {
    CommitScanFacts(n, i);
  }

  lemma AppendKeepsCommit(n: Node, a: AppendArgs)
    requires Formed(n)
    ensures OnAppendEntries(n, a).Replied? ==> OnAppendEntries(n, a).node.commitIndex >= n.commitIndex
  {
    hide FirstNew, FirstOfTerm, RecordsFor, Written, WouldPanic, Check;
  }

  lemma ReplyKeepsCommit(n: Node, peer: NodeId, a: AppendArgs, r: AppendReply)
    requires Formed(n)
    ensures OnAppendReply(n, peer, a, r).commitIndex >= n.commitIndex
  {
    hide CommitScan, NextIndexAfterRejection;
    if n.state == Leader && peer in n.peers {
      var i := a.prevLogIndex + |a.entries|;
      ScanNeverFalls(n.(matchIndex := n.matchIndex[peer := i], nextIndex := n.nextIndex[peer := i + 1]),
                     LastLogIndex(n.log));
    }
  }

  lemma InstallKeepsCommit(n: Node, a: SnapshotArgs)
    requires Formed(n)
    ensures OnInstallSnapshot(n, a).0.commitIndex >= n.commitIndex
  {
    hide SurvivingSuffix, Formed;
  }

  lemma OthersKeepCommit(n: Node, k: C.Packet)
    requires Formed(n)
    ensures k.VoteReqPacket? ==> OnRequestVote(n, k.vote).0.commitIndex == n.commitIndex
    ensures k.VoteRepPacket? ==> OnVoteReply(n, k.from, k.term, k.voteReply).commitIndex == n.commitIndex
    ensures k.SnapRepPacket? ==> OnSnapshotReply(n, k.from, k.snapshot, k.snapReply).commitIndex == n.commitIndex
  {
    hide Formed;
  }

  /** The commit index never goes down while the process lives. */
  lemma CommitNeverFalls(c: C.State, act: C.Action, p: NodeId)
    requires C.Can(c, act) && p in c.hosts && !Restarts(c, act, p)
    ensures p in C.Perform(c, act).hosts
    ensures C.Perform(c, act).At(p).node.commitIndex >= c.At(p).node.commitIndex
  {
    hide C.Can, C.Perform, Restarts;
    if act.Deliver? || act.ClientPropose? || act.FinishBatch? {
      BusyKeepsCommit(c, act, p);
    } else {
      QuietKeepsCommit(c, act, p);
    }
  }

  lemma BusyKeepsCommit(c: C.State, act: C.Action, p: NodeId)
    requires C.Can(c, act) && p in c.hosts && !Restarts(c, act, p)
    requires act.Deliver? || act.ClientPropose? || act.FinishBatch?
    ensures p in C.Perform(c, act).hosts
    ensures C.Perform(c, act).At(p).node.commitIndex >= c.At(p).node.commitIndex
  {
    hide Formed, C.Overruns, C.BatchFinished, C.Delivered, Propose;
    match act
    case Deliver(k) => DeliveryKeepsCommit(c, k, p);
    case ClientPropose(q, cmd) => ProposeKeepsCommit(c.hosts[q].node, cmd);
    case FinishBatch(q) => if q == p { FinishKeepsCommit(c.hosts[p]); }
  }

  lemma QuietKeepsCommit(c: C.State, act: C.Action, p: NodeId)
    requires C.Can(c, act) && p in c.hosts && !Restarts(c, act, p)
    requires !act.Deliver? && !act.ClientPropose? && !act.FinishBatch?
    ensures p in C.Perform(c, act).hosts
    ensures C.Perform(c, act).At(p).node.commitIndex == c.At(p).node.commitIndex
  {
    hide Formed, Outbound, C.Batch, C.Reboot, C.TornDisk, C.TornSave, C.Can;
  }

  lemma DeliveryKeepsCommit(c: C.State, k: C.Packet, p: NodeId)
    requires k.to in c.hosts && Formed(c.At(k.to).node) && p in c.hosts
    ensures p in C.Delivered(c, k).hosts
    ensures C.Delivered(c, k).At(p).node.commitIndex >= c.At(p).node.commitIndex
  {
    hide OnRequestVote, OnVoteReply, OnAppendEntries, OnAppendReply, OnInstallSnapshot, OnSnapshotReply, Formed;
    var n := c.hosts[k.to].node;
    match k
    case AppendReqPacket(_, a) => AppendKeepsCommit(n, a);
    case AppendRepPacket(_, from, a, r) => ReplyKeepsCommit(n, from, a, r);
    case SnapReqPacket(_, a) => InstallKeepsCommit(n, a);
    case _ => OthersKeepCommit(n, k);
  }

  lemma FinishKeepsCommit(h: C.Host)
    requires h.applier.Applying? && Formed(h.node) && !C.Overruns(h)
    ensures C.BatchFinished(h).node.commitIndex == h.node.commitIndex
  {
    hide SnapshotTrigger;
  }

  lemma ProposeKeepsCommit(n: Node, cmd: Command)
    requires Formed(n)
    ensures Propose(n, cmd).commitIndex >= n.commitIndex
  {
    hide CommitScan;
    var e := LogEntry(n.currentTerm, LastLogIndex(n.log) + 1, cmd);
    var m := n.(log := n.log + [e], disk := n.disk.(wal := n.disk.wal + [AppendRecord(e)]));
    ScanNeverFalls(m, LastLogIndex(m.log));
  }

  // ---- The boundary ----------------------------------------------------------------------------

  function SnapIndex(d: Disk): nat { match d.snap case None => 0 case Some(s) => s.lastIndex }

  /** The boundary of the log in memory is that of the snapshot on disk. */
  ghost predicate AtSnapshot(n: Node) { Formed(n) && SnapIndex(n.disk) == Base(n.log) }

  lemma HandlersKeepSnapshot(n: Node, k: C.Packet)
    requires Formed(n)
    ensures k.VoteReqPacket? ==> OnRequestVote(n, k.vote).0.disk.snap == n.disk.snap
    ensures k.VoteRepPacket? ==> OnVoteReply(n, k.from, k.term, k.voteReply).disk.snap == n.disk.snap
    ensures k.AppendReqPacket? && OnAppendEntries(n, k.append).Replied? ==>
      OnAppendEntries(n, k.append).node.disk.snap == n.disk.snap
    ensures k.AppendRepPacket? ==> OnAppendReply(n, k.from, k.append, k.appendReply).disk.snap == n.disk.snap
    ensures k.SnapReqPacket? ==>
      OnInstallSnapshot(n, k.snapshot).0.disk.snap == n.disk.snap
      || (OnInstallSnapshot(n, k.snapshot).0.disk.snap.Some?
          && OnInstallSnapshot(n, k.snapshot).0.disk.snap.value.lastIndex > n.commitIndex)
    ensures k.SnapRepPacket? ==> OnSnapshotReply(n, k.from, k.snapshot, k.snapReply).disk.snap == n.disk.snap
  {
    hide CommitScan, FirstNew, FirstOfTerm, SurvivingSuffix, RecordsFor, Written, WouldPanic, Check,
         NextIndexAfterRejection, Formed;
  }

  lemma DeliveryKeepsSnapshot(c: C.State, k: C.Packet, p: NodeId)
    requires k.to in c.hosts && Formed(c.At(k.to).node) && p in c.hosts
    requires SnapIndex(c.At(p).node.disk) <= c.At(p).node.commitIndex
    ensures p in C.Delivered(c, k).hosts
    ensures SnapIndex(C.Delivered(c, k).At(p).node.disk) >= SnapIndex(c.At(p).node.disk)
  {
    hide OnRequestVote, OnVoteReply, OnAppendEntries, OnAppendReply, OnInstallSnapshot, OnSnapshotReply, Formed;
    HandlersKeepSnapshot(c.hosts[k.to].node, k);
  }

  lemma RebootKeepsSnapshot(h: C.Host, d: Disk)
    ensures C.Reboot(h, d).node == h.node || C.Reboot(h, d).node.disk == d
  {
    hide Replay, Beyond;
  }

  lemma TornKeepsSnapshot(h: C.Host, a: AppendArgs, j: nat)
    requires Numbered(h.node.log) && j <= |RecordsFor(h.node.log, a.entries)|
    ensures SnapIndex(C.Reboot(h, C.TornDisk(h.node, a, j)).node.disk) == SnapIndex(h.node.disk)
  {
    hide C.Reboot, RecordsFor;
    RebootKeepsSnapshot(h, C.TornDisk(h.node, a, j));
  }

  lemma CaptureKeepsSnapshot(h: C.Host)
    requires h.applier.Capturing? && Numbered(h.node.log) && SnapIndex(h.node.disk) <= Base(h.node.log)
    ensures SnapIndex(C.CaptureFinished(h).node.disk) >= SnapIndex(h.node.disk)
  {
  }

  lemma LocalKeepSnapshot(n: Node, cmd: Command)
    requires Formed(n)
    ensures Propose(n, cmd).disk.snap == n.disk.snap && StartElection(n).disk.snap == n.disk.snap
  {
    hide CommitScan;
  }

  ghost predicate IsCrash(act: C.Action) {
    act.Crash? || act.TornTerm? || act.TornAppend? || act.TornCompact? || act.TornInstall?
  }

  lemma TornTermKeepsSnapshot(h: C.Host, t: nat)
    ensures SnapIndex(C.Reboot(h, h.node.disk.(hard := HardState(t, None))).node.disk) == SnapIndex(h.node.disk)
  {
    hide C.Reboot;
    RebootKeepsSnapshot(h, h.node.disk.(hard := HardState(t, None)));
  }

  lemma TornCompactKeepsSnapshot(h: C.Host)
    requires h.applier.Capturing? && |h.node.log| >= 1 && SnapIndex(h.node.disk) == Base(h.node.log) < h.applier.index
    ensures var d := h.node.disk.(snap := Some(Snapshot(h.applier.index, h.applier.term, h.kv)));
      SnapIndex(C.Reboot(h, d).node.disk) >= SnapIndex(h.node.disk)
  {
    hide C.Reboot;
    RebootKeepsSnapshot(h, h.node.disk.(snap := Some(Snapshot(h.applier.index, h.applier.term, h.kv))));
  }

  lemma TornInstallKeepsSnapshot(h: C.Host, a: SnapshotArgs)
    requires Formed(h.node) && a.snap.lastIndex > h.node.commitIndex && SnapIndex(h.node.disk) == Base(h.node.log)
    ensures SnapIndex(C.TornHost(h, a).node.disk) >= SnapIndex(h.node.disk)
  {
    hide C.Reboot;
    RebootKeepsSnapshot(h, C.TornSave(h.node, a));
  }

  lemma CrashKeepsSnapshot(c: C.State, act: C.Action, p: NodeId)
    requires C.Can(c, act) && p in c.hosts && AtSnapshot(c.At(p).node) && IsCrash(act)
    ensures p in C.Perform(c, act).hosts
    ensures SnapIndex(C.Perform(c, act).At(p).node.disk) >= SnapIndex(c.At(p).node.disk)
  {
    hide C.Can, C.Perform, SnapIndex, AtSnapshot;
    match act
    case TornAppend(_, _) => HandlerCrashKeepsSnapshot(c, act, p);
    case TornInstall(_) => HandlerCrashKeepsSnapshot(c, act, p);
    case _ => PlainCrashKeepsSnapshot(c, act, p);
  }

  lemma PlainCrashKeepsSnapshot(c: C.State, act: C.Action, p: NodeId)
    requires C.Can(c, act) && p in c.hosts && AtSnapshot(c.At(p).node)
    requires act.Crash? || act.TornTerm? || act.TornCompact?
    ensures p in C.Perform(c, act).hosts
    ensures SnapIndex(C.Perform(c, act).At(p).node.disk) >= SnapIndex(c.At(p).node.disk)
  {
    hide C.Reboot, C.TornDisk, C.TornHost, Check, RecordsFor, SnapIndex, C.Delivered, C.Send, StartElection;
    match act
    case Crash(q) => RebootKeepsSnapshot(c.hosts[q], c.hosts[q].node.disk);
    case TornTerm(q, t) => TornTermKeepsSnapshot(c.hosts[q], t);
    case TornCompact(q) => if q == p { TornCompactKeepsSnapshot(c.hosts[p]); }
  }

  lemma HandlerCrashKeepsSnapshot(c: C.State, act: C.Action, p: NodeId)
    requires C.Can(c, act) && p in c.hosts && AtSnapshot(c.At(p).node) && (act.TornAppend? || act.TornInstall?)
    ensures p in C.Perform(c, act).hosts
    ensures SnapIndex(C.Perform(c, act).At(p).node.disk) >= SnapIndex(c.At(p).node.disk)
  {
    hide C.Reboot, C.TornDisk, C.TornHost, Check, RecordsFor, SnapIndex, C.Delivered, C.Send, StartElection;
    match act
    case TornAppend(k, j) => TornKeepsSnapshot(c.hosts[k.to], k.append, j);
    case TornInstall(k) => if k.to == p { TornInstallKeepsSnapshot(c.hosts[p], k.snapshot); }
  }

  lemma WorkKeepsSnapshot(c: C.State, act: C.Action, p: NodeId)
    requires C.Can(c, act) && p in c.hosts && AtSnapshot(c.At(p).node) && !IsCrash(act)
    ensures p in C.Perform(c, act).hosts
    ensures SnapIndex(C.Perform(c, act).At(p).node.disk) >= SnapIndex(c.At(p).node.disk)
  {
    hide C.Can, C.Perform, SnapIndex, AtSnapshot;
    match act
    case FinishBatch(_) => ApplierKeepsSnapshot(c, act, p);
    case FinishCapture(_) => ApplierKeepsSnapshot(c, act, p);
    case _ => HandlerKeepsSnapshot(c, act, p);
  }

  lemma ApplierKeepsSnapshot(c: C.State, act: C.Action, p: NodeId)
    requires C.Can(c, act) && p in c.hosts && AtSnapshot(c.At(p).node) && (act.FinishBatch? || act.FinishCapture?)
    ensures p in C.Perform(c, act).hosts
    ensures SnapIndex(C.Perform(c, act).At(p).node.disk) >= SnapIndex(c.At(p).node.disk)
  {
    hide C.Delivered, C.Reboot, C.Send, Propose, StartElection, SnapshotTrigger, Outbound, C.Batch, C.CaptureFinished;
    match act
    case FinishBatch(q) => RebootKeepsSnapshot(c.hosts[q], c.hosts[q].node.disk);
    case FinishCapture(q) => if q == p { CaptureKeepsSnapshot(c.hosts[q]); }
  }

  lemma HandlerKeepsSnapshot(c: C.State, act: C.Action, p: NodeId)
    requires C.Can(c, act) && p in c.hosts && AtSnapshot(c.At(p).node) && !IsCrash(act)
    requires !act.FinishBatch? && !act.FinishCapture?
    ensures p in C.Perform(c, act).hosts
    ensures SnapIndex(C.Perform(c, act).At(p).node.disk) >= SnapIndex(c.At(p).node.disk)
  {
    hide C.Delivered, C.Reboot, Propose, StartElection, SnapshotTrigger, Outbound, C.Batch, C.CaptureFinished;
    match act
    case Deliver(k) => DeliveryKeepsSnapshot(c, k, p);
    case ClientPropose(q, cmd) => LocalKeepSnapshot(c.hosts[q].node, cmd);
    case ElectionTimeout(q) => LocalKeepSnapshot(c.hosts[q].node, Undecodable(""));
    case _ =>
  }

  /** Both logs are well-formed, and the boundary of n' is not below that of n. */
  ghost predicate NotBelow(n': Node, n: Node) { Numbered(n.log) && Numbered(n'.log) && Base(n.log) <= Base(n'.log) }

  lemma SnapshotsInOrder(n: Node, n': Node)
    requires AtSnapshot(n) && AtSnapshot(n') && SnapIndex(n.disk) <= SnapIndex(n'.disk)
    ensures NotBelow(n', n)
  {
    hide SnapIndex;
  }

  lemma BoundaryStays(n: Node, n': Node, n'': Node)
    requires NotBelow(n', n) && NotBelow(n'', n')
    ensures NotBelow(n'', n)
  {
  }

  /** Compaction only ever moves the boundary forward, and a restart does not move it back. */
  lemma {:induction false} BoundaryNeverFalls(b: seq<C.State>, i: nat, j: nat, p: NodeId)
    requires C.Run(b) && i <= j < |b| && Hosted(b, i, p)
    ensures Hosted(b, j, p) && NotBelow(HostAt(b, j, p).node, HostAt(b, i, p).node)
    decreases j
  {
    hide C.Run, C.Can, C.Perform, SnapIndex, Formed;
    if i == j {
      BoundaryIsSnapshot(b, i, p);
      SnapshotsInOrder(b[i].hosts[p].node, b[i].hosts[p].node);
    } else {
      BoundaryNeverFalls(b, i, j - 1, p);
      BoundaryIsSnapshot(b, j - 1, p);
      var act := ActionAt(b, j - 1);
      if IsCrash(act) { CrashKeepsSnapshot(b[j - 1], act, p); } else { WorkKeepsSnapshot(b[j - 1], act, p); }
      BoundaryIsSnapshot(b, j, p);
      SnapshotsInOrder(b[j - 1].hosts[p].node, b[j].hosts[p].node);
      BoundaryStays(b[i].hosts[p].node, b[j - 1].hosts[p].node, b[j].hosts[p].node);
    }
  }

  /** The action that takes the run from moment i to the next. */
  ghost predicate Takes(b: seq<C.State>, i: nat, act: C.Action) {
    i + 1 < |b| && C.Can(b[i], act) && C.Perform(b[i], act) == b[i + 1]
  }

  lemma ActionAt(b: seq<C.State>, i: nat) returns (act: C.Action)
    requires C.Run(b) && i + 1 < |b|
    ensures Takes(b, i, act)
  {
    hide C.Init, C.Can, C.Perform;
    assert C.Next(b[i], b[i + 1]);
    act :| C.Can(b[i], act) && C.Perform(b[i], act) == b[i + 1];
  }

  lemma BoundaryIsSnapshot(b: seq<C.State>, i: nat, p: NodeId)
    requires C.Run(b) && Hosted(b, i, p)
    ensures AtSnapshot(HostAt(b, i, p).node)
  {
    hide C.Run, Tracks, ClusterRel, Inv, WalRel, ElectionRel, LeaderRel, Compacted, ApplierRel, RequestsRel, Leads,
         Reaches;
    var ss := RunTracked(b);
    TracksLength(b, ss);
    HostTracked(b, ss, i, p);
    HostFacts(b[i], ss[i], p);
    RelFormed(b[i].hosts[p].node, ss[i].nodes[p], p, ss[i].h.past.members);
  }

  // ---- The applier -----------------------------------------------------------------------------

  /** The next entry to apply is the one after the position, which then moves there. */
  ghost predicate AppliesNextEntry(h: C.Host, h': C.Host) {
    && h.applier.Applying? && h.applier.done < |h.applier.batch|
    && h.applier.batch[h.applier.done].index == C.Position(h) + 1 == C.Position(h')
  }

  /** Entries are applied in log order, each exactly once per lifetime: an Apply call is always for
      the index right after the state machine's position, and moves the position by one. */
  lemma AppliesInOrder(c: C.State, p: NodeId)
    requires Reachable(c) && C.Can(c, C.ApplyOne(p))
    ensures AppliesNextEntry(c.At(p), C.Perform(c, C.ApplyOne(p)).At(p))
  {
    hide ClusterRel, Inv, NodeRel, NodeOk, HistoryOk, PastOk, LogOk, Ordered, Reachable, C.Delivered;
    var s := ReachableRel(c);
    HostFacts(c, s, p);
    LogIndexed(s, p);
    NextApplied(c.hosts[p], s.nodes[p]);
  }

  /** The state machine never goes back while the process lives: a restored snapshot is always ahead
      of what was applied. */
  lemma PositionNeverFalls(c: C.State, act: C.Action, p: NodeId)
    requires Reachable(c) && C.Can(c, act) && p in c.hosts && !Restarts(c, act, p)
    ensures p in C.Perform(c, act).hosts
    ensures C.Position(C.Perform(c, act).At(p)) >= C.Position(c.At(p))
  {
    hide ClusterRel, Inv, NodeRel, ConfigRel, HostRel, RequestsRel, Formed, ApplierRel, C.Position, C.Can, C.Perform,
         Restarts, Reachable, Tracks;
    var s := ReachableRel(c);
    HostFacts(c, s, p);
    RelFormed(c.hosts[p].node, s.nodes[p], p, s.h.past.members);
    if act.Deliver? || act.ClientPropose? || act.ElectionTimeout? {
      NodeKeepsPosition(c, act, p);
    } else {
      ApplierKeepsPosition(c, act, p, s.nodes[p]);
    }
  }

  lemma NodeKeepsPosition(c: C.State, act: C.Action, p: NodeId)
    requires C.Can(c, act) && p in c.hosts && (act.Deliver? || act.ClientPropose? || act.ElectionTimeout?)
    ensures p in C.Perform(c, act).hosts && C.Position(C.Perform(c, act).At(p)) >= C.Position(c.At(p))
  {
    hide Formed, C.Position, C.Delivered, StartElection, Propose;
    match act
    case Deliver(k) => DeliveryKeepsPosition(c, k, p);
    case ClientPropose(q, cmd) => LocalKeepPosition(c.hosts[q], cmd);
    case ElectionTimeout(q) => LocalKeepPosition(c.hosts[q], Undecodable(""));
  }

  lemma ApplierKeepsPosition(c: C.State, act: C.Action, p: NodeId, n: P.Node)
    requires C.Can(c, act) && p in c.hosts && !Restarts(c, act, p) && Formed(c.At(p).node)
    requires ApplierRel(c.At(p), n)
    requires !act.Deliver? && !act.ClientPropose? && !act.ElectionTimeout?
    ensures p in C.Perform(c, act).hosts && C.Position(C.Perform(c, act).At(p)) >= C.Position(c.At(p))
  {
    hide Formed, ApplierRel, C.Position, C.SnapshotTaken, C.Restored, C.BatchFinished, C.CaptureFinished, C.AppliedHost,
         C.Reboot, C.Overruns, Outbound, C.Batch, C.TornDisk, C.TornSave;
    PhaseKeepsPosition(c.hosts[p], n);
    RequestsKeepPosition(c.hosts[p]);
  }

  lemma RequestsKeepPosition(h: C.Host)
    ensures forall h': C.Host | h'.node == h.node && h'.applier == h.applier :: C.Position(h') == C.Position(h)
  {
  }

  lemma PhaseKeepsPosition(h: C.Host, n: P.Node)
    requires ApplierRel(h, n) && Formed(h.node)
    ensures h.applier.Idle? && h.node.pending.Some? ==> C.Position(C.SnapshotTaken(h)) == C.Position(h)
    ensures h.applier.Restoring? ==> C.Position(C.Restored(h)) > C.Position(h)
    ensures h.applier.Idle? ==> forall batch :: C.Position(h.(applier := C.Applying(batch, 0))) == C.Position(h)
    ensures h.applier.Applying? && h.applier.done < |h.applier.batch| ==>
      C.Position(C.AppliedHost(h)) == C.Position(h) + 1
    ensures h.applier.Applying? && h.applier.done == |h.applier.batch| && !C.Overruns(h) ==>
      C.Position(C.BatchFinished(h)) == C.Position(h)
    ensures h.applier.Capturing? ==> C.Position(C.CaptureFinished(h)) == C.Position(h)
  {
    hide SnapshotTrigger, KvRel, PendingRel;
  }

  lemma LocalKeepPosition(h: C.Host, cmd: Command)
    requires Formed(h.node)
    ensures forall requests :: C.Position(h.(node := Propose(h.node, cmd), proposed := requests)) == C.Position(h)
    ensures C.Position(h.(node := StartElection(h.node))) == C.Position(h)
  {
    hide Propose, StartElection;
    LocalKeepApplied(h.node, cmd);
  }

  lemma DeliveryKeepsPosition(c: C.State, k: C.Packet, p: NodeId)
    requires k.to in c.hosts && Formed(c.At(k.to).node) && p in c.hosts
    ensures p in C.Delivered(c, k).hosts && C.Position(C.Delivered(c, k).At(p)) == C.Position(c.At(p))
  {
    hide OnRequestVote, OnVoteReply, OnAppendEntries, OnAppendReply, OnInstallSnapshot, OnSnapshotReply, Formed;
    HandlersKeepApplied(c.hosts[k.to].node, k);
  }

  lemma LocalKeepApplied(n: Node, cmd: Command)
    requires Formed(n)
    ensures Propose(n, cmd).lastApplied == n.lastApplied && StartElection(n).lastApplied == n.lastApplied
  {
    hide CommitScan;
  }

  lemma HandlersKeepApplied(n: Node, k: C.Packet)
    requires Formed(n)
    ensures k.VoteReqPacket? ==> OnRequestVote(n, k.vote).0.lastApplied == n.lastApplied
    ensures k.VoteRepPacket? ==> OnVoteReply(n, k.from, k.term, k.voteReply).lastApplied == n.lastApplied
    ensures k.AppendReqPacket? && OnAppendEntries(n, k.append).Replied? ==>
      OnAppendEntries(n, k.append).node.lastApplied == n.lastApplied
    ensures k.AppendRepPacket? ==> OnAppendReply(n, k.from, k.append, k.appendReply).lastApplied == n.lastApplied
    ensures k.SnapReqPacket? ==> OnInstallSnapshot(n, k.snapshot).0.lastApplied == n.lastApplied
    ensures k.SnapRepPacket? ==> OnSnapshotReply(n, k.from, k.snapshot, k.snapReply).lastApplied == n.lastApplied
  {
    hide CommitScan, FirstNew, FirstOfTerm, SurvivingSuffix, RecordsFor, Written, WouldPanic, Check,
         NextIndexAfterRejection, Formed;
  }

  // ---- Client acks -----------------------------------------------------------------------------

  /** A success ack is honest: the very command was applied at the (index, term) it was proposed at,
      on the host that answered, and nothing else is ever applied at that index anywhere. */
  lemma HonestAck(b: seq<C.State>, i: nat, j: nat, r: C.Request)
    requires C.Run(b) && i <= j < |b| && r in Now(b, i).acked
    ensures C.Applied(r.host, EntryOf(r)) in Now(b, i).applied
    ensures forall a | a in Now(b, j).applied && a.entry.index == r.index :: a.entry == EntryOf(r)
  {
    hide C.Run, Inv, HostRel, PacketRel, Settled, Reaches, Extends, Fold, Leads;
    var hs := OneHistory(b);
    var ss := RunTracked(b);
    assert ClusterRel(b[i], ss[i]);
    assert Explains(b[i], hs[i]) && Explains(b[j], hs[j]) && hs[i] <= hs[j];
  }

  ghost predicate HasEntry(history: Log, e: LogEntry) { 1 <= e.index <= |history| && history[e.index - 1] == e }

  /** An acknowledged write is in every state machine that has reached its index, for ever: at any later
      moment, one history that has the write at its index explains all of them. */
  lemma AckedWritesSurvive(b: seq<C.State>, i: nat, j: nat, r: C.Request) returns (history: Log)
    requires C.Run(b) && i <= j < |b| && r in Now(b, i).acked
    ensures Explains(Now(b, j), history) && HasEntry(history, EntryOf(r))
  {
    hide C.Run, Fold;
    var hs := OneHistory(b);
    history := hs[j];
    assert Explains(b[i], hs[i]) && Explains(b[j], hs[j]) && hs[i] <= hs[j];
  }

  /** State Machine Safety: whoever applies an entry at an index, whenever, in whatever lifetime,
      applies the same term and command. */
  lemma AppliedEntriesAgree(b: seq<C.State>, i: nat, j: nat, x: C.Applied, y: C.Applied)
    requires C.Run(b) && i <= j < |b| && x in Now(b, i).applied && y in Now(b, j).applied
    requires x.entry.index == y.entry.index
    ensures x.entry == y.entry
  {
    hide C.Run, Fold;
    var hs := OneHistory(b);
    assert Explains(b[i], hs[i]) && Explains(b[j], hs[j]) && hs[i] <= hs[j];
  }

  // ---- Terms -----------------------------------------------------------------------------------

  /** Terms do not decrease up to index k. */
  ghost predicate TermsRise(log: seq<LogEntry>, k: nat) {
    && Numbered(log)
    && forall i, j | Base(log) <= i <= j <= k && j <= LastLogIndex(log) :: TermOf(log, i) <= TermOf(log, j)
  }

  ghost predicate TermsWithin(log: seq<LogEntry>, t: nat) {
    Numbered(log) && forall i | Base(log) <= i <= LastLogIndex(log) :: TermOf(log, i) <= t
  }

  /** Terms never exceed the node's own, and never decrease along what is committed; nor along the rest,
      except possibly on a host that does not lead and has overruled entries back. */
  lemma TermsOrdered(c: C.State, p: NodeId, k: nat)
    requires Reachable(c) && p in c.hosts
    requires k <= c.At(p).node.commitIndex || !c.At(p).damage.Tainted? || c.At(p).node.state == Leader
    ensures TermsWithin(c.At(p).node.log, c.At(p).node.currentTerm) && TermsRise(c.At(p).node.log, k)
  {
    hide Reachable, ClusterRel, Inv, HistoryOk, NodeOk, PastOk, DiskRel, ElectionRel, LeaderRel, Compacted, Rooted,
         HostRel;
    var s := ReachableRel(c);
    HostFacts(c, s, p);
    NodeFacts(s, p);
    var n, a := c.hosts[p].node, s.nodes[p];
    LogOrdered(s.h.past, a.log[..a.sound], a.term);
    if !a.damage.Tainted? || a.role == Leader { WholeFacts(s, p); }
    forall i | Base(n.log) <= i <= LastLogIndex(n.log) ensures TermOf(n.log, i) == TermAt(a.log, i) <= a.term {
      CompactedTerm(a.log, Base(n.log), i);
    }
    forall i: nat, j: nat | i <= j <= k && j <= |a.log| ensures TermAt(a.log, i) <= TermAt(a.log, j) {
      if a.damage.Tainted? && a.role != Leader && i > 0 { assert a.log[..a.sound][i - 1] == a.log[i - 1]; }
    }
  }

  /** Beyond the sentinel, terms never decrease in the memory of any host. */
  lemma RetainedTermsOrdered(c: C.State, p: NodeId)
    requires Reachable(c) && p in c.hosts
    ensures RisesAfterSentinel(c.At(p).node.log)
  {
    hide Reachable, ClusterRel, Inv, DiskRel, ElectionRel, LeaderRel, Compacted;
    var s := ReachableRel(c);
    HostFacts(c, s, p);
    var n, a := c.hosts[p].node, s.nodes[p];
    forall i | Base(n.log) <= i <= LastLogIndex(n.log) ensures TermOf(n.log, i) == TermAt(a.log, i) {
      CompactedTerm(a.log, Base(n.log), i);
    }
  }

  ghost predicate RisesAfterSentinel(log: seq<LogEntry>) {
    Numbered(log) && forall i, j | Base(log) < i <= j <= LastLogIndex(log) :: TermOf(log, i) <= TermOf(log, j)
  }

  // ---- Replication bookkeeping -----------------------------------------------------------------

  /** The moment of an acknowledgement: its sender was in that term and held what it acknowledged. */
  lemma {:induction false} AckMoment(b: seq<C.State>, ss: seq<P.State>, j: nat, a: P.Ack) returns (i: nat)
    requires Tracks(b, ss) && j < |b| && a in AllAcks(PS.Then(ss, j).h)
    ensures i <= j && a.from in PS.Then(ss, i).nodes && PS.Then(ss, i).At(a.from).term == a.term
    ensures a.term in PS.Then(ss, i).h.past.led
    ensures Agree(PS.Then(ss, i).h.past.Led(a.term), PS.Then(ss, i).At(a.from).log, a.len)
    decreases j
  {
    hide ClusterRel, Reaches, Extends, FreshVotes;
    i := j;
    if j > 0 {
      assert Leads(ss[j - 1], ss[j - 1 + 1]);
      if a in AllAcks(ss[j - 1].h) { i := AckMoment(b, ss, j - 1, a); }
    }
  }

  /** The leader's matchIndex for its peer q is k. */
  ghost predicate Matched(n: Node, q: NodeId, k: nat) {
    q in n.peers && q in n.matchIndex && n.matchIndex[q] == k && k > 0
  }

  /** A leader's matchIndex is never a guess: at some moment not later, the peer was in the leader's
      term and stored, in memory and on disk, the leader's log up to that index. */
  lemma MatchWitnessed(b: seq<C.State>, logs: seq<map<NodeId, Whole>>, j: nat, p: NodeId, q: NodeId, k: nat)
    returns (i: nat)
    requires LogsBehind(b, logs) && Hosted(b, j, p) && HostAt(b, j, p).node.state == Leader
    requires Matched(HostAt(b, j, p).node, q, k)
    ensures i <= j && Hosted(b, i, q) && HostAt(b, i, q).node.disk.hard.term == HostAt(b, j, p).node.currentTerm
    ensures Stores(HostAt(b, i, q), LogAt(logs, i, q).log)
    ensures Agree(LogAt(logs, j, p).log, LogAt(logs, i, q).log, k)
  {
    hide LogsBehind, Tracks, ClusterRel, Inv, Stores, HistoryOk, PastOk, DiskRel, ElectionRel, Compacted, PastExtends,
         Leads, NodeOk;
    var ss := Tracking(b, logs);
    HostTracked(b, ss, j, p);
    NodeFacts(ss[j], p);
    PS.LeaderAt(ss[j], p);
    var o := ss[j].nodes[p];
    var a := P.Ack(o.term, q, k);
    LeaderAcks(ss[j].h, p, o, q);
    i := AckMoment(b, ss, j, a);
    TrackedHost(b, ss, i, q);
    TrackExtends(b, ss, i, j);
    PS.WitnessStays(ss[i].h, ss[j].h, a, ss[i].nodes[q].log);
    RelLog(b[i].hosts[q].node, ss[i].nodes[q]);
    HostStores(b, logs, i, q);
  }

  lemma LeaderAcks(h: P.History, p: NodeId, o: P.Node, q: NodeId)
    requires NodeOk(h, p, o) && o.role == Leader && q in o.matched
    ensures P.Ack(o.term, q, o.matched[q]) in AllAcks(h)
  {
  }

  lemma TrackedHost(b: seq<C.State>, ss: seq<P.State>, i: nat, q: NodeId)
    requires Tracks(b, ss) && i < |b| && q in PS.Then(ss, i).nodes
    ensures Hosted(b, i, q) && Inv(PS.Then(ss, i)) && PastOk(PS.Then(ss, i).h.past)
    ensures NodeRel(HostAt(b, i, q).node, PS.Then(ss, i).At(q))
  {
    hide Inv, HostRel, NodeRel, PacketRel, RecordRel, Leads, PastOk, Reaches, HistoryOk, NodeOk;
    assert ClusterRel(b[i], ss[i]);
    HostTracked(b, ss, i, q);
    NodeFacts(ss[i], q);
  }
}
