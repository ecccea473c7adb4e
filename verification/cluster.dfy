/**
 The running system: one host per member (node, disk, applier, key-value server) and a network that
 may lose, delay, reorder and duplicate packets. One action is one locked region of the Go code, one
 unlocked stretch of the applier, or a crash, possibly in the middle of a handler's disk writes.
 */
module Cluster {
  import opened Types
  import opened SentinelLog
  import opened KvState
  import opened NodeState

  /** Where the applier goroutine is. Everything but Idle is a stretch without the lock. */
  datatype Applier =
    | Idle
    | Restoring(snap: Snapshot)
    | Applying(batch: seq<LogEntry>, done: nat)
    | Capturing(index: nat, term: nat)

  /** A client's write on one host, identified by the (index, term) that Propose returned. */
  datatype Request = Request(host: NodeId, index: nat, term: nat, command: Command)

  datatype Host = Host(
    node: Node,
    kv: Kv,
    applier: Applier,
    proposed: set<Request>,
    waiters: map<nat, Request>,
    damage: Damage,          // by crashes between the two writes of an install
    up: bool)                // false once NewNode has refused to start from what is on disk

  datatype Packet =
    | VoteReqPacket(to: NodeId, vote: VoteArgs)
    | VoteRepPacket(to: NodeId, from: NodeId, term: nat, voteReply: VoteReply)
    | AppendReqPacket(to: NodeId, append: AppendArgs)
    | AppendRepPacket(to: NodeId, from: NodeId, append: AppendArgs, appendReply: AppendReply)
    | SnapReqPacket(to: NodeId, snapshot: SnapshotArgs)
    | SnapRepPacket(to: NodeId, from: NodeId, snapshot: SnapshotArgs, snapReply: SnapshotReply)

  datatype Applied = Applied(host: NodeId, entry: LogEntry)

  datatype State = State(
    hosts: map<NodeId, Host>,
    net: set<Packet>,
    acked: set<Request>,     // writes a client was told succeeded
    applied: set<Applied>,   // every Apply call ever made, on any host, in any lifetime
    panicked: bool)          // some node hit the "Leader Completeness violated" panic
  {
    /** Host p; a blank one if there is none. */
    function At(p: NodeId): Host { if p in hosts then hosts[p] else Blank(p) }
  }

  /** A host before its first start. */
  function Blank(p: NodeId): Host {
    Host(Node(p, [], 0, 0, None, [Sentinel(0, 0)], 0, 0, map[], map[], Follower, None, 0, {}, None,
              Disk(HardState(0, None), [], None)), map[], Idle, {}, map[], Intact, true)
  }

  datatype Action =
    | ElectionTimeout(p: NodeId)
    | Deliver(packet: Packet)
    | ReplicateTo(p: NodeId, peer: NodeId)
    | ClientPropose(p: NodeId, command: Command)
    | AwaitRequest(p: NodeId, request: Request)
    | GiveUp(p: NodeId, index: nat)
    | TakeSnapshot(p: NodeId)
    | FinishRestore(p: NodeId)
    | TakeBatch(p: NodeId)
    | ApplyOne(p: NodeId)
    | FinishBatch(p: NodeId)
    | FinishCapture(p: NodeId)
    | Crash(p: NodeId)
    | TornTerm(p: NodeId, term: nat)
    | TornAppend(packet: Packet, records: nat)
    | TornCompact(p: NodeId)
    | TornInstall(packet: Packet)

  /** The host an action happens on. */
  function Actor(act: Action): NodeId {
    if act.Deliver? || act.TornAppend? || act.TornInstall? then act.packet.to else act.p
  }

  /** How far the state machine of this host has got. */
  function Position(h: Host): nat {
    h.node.lastApplied + if h.applier.Applying? then h.applier.done else 0
  }

  // ---- Restarting ------------------------------------------------------------------------------

  function RecoverFrom(h: Host, d: Disk): Option<Node> {
    Recover(h.node.id, h.node.peers, h.node.threshold, d)
  }

  /** A new process on the given disk: volatile state gone, state machine restored from the snapshot. If
      NewNode refuses the disk, the host never comes back, and what it last had in memory stays as it was. */
  function Reboot(h: Host, d: Disk): Host {
    match RecoverFrom(h, d)
    case None => h.(up := false)
    case Some(n) => Host(n, match d.snap case None => map[] case Some(s) => s.data, Idle, {}, map[], h.damage, true)
  }

  // ---- The key-value server --------------------------------------------------------------------

  /** fireWaiter: success only for a waiter of the applied entry's own term. */
  function Fired(h: Host, e: LogEntry): set<Request> {
    if e.index in h.waiters && h.waiters[e.index].term == e.term then {h.waiters[e.index]} else {}
  }

  function AppliedHost(h: Host): Host
    requires h.applier.Applying? && h.applier.done < |h.applier.batch|
  {
    var e := h.applier.batch[h.applier.done];
    h.(kv := ApplyCommand(h.kv, e.command), applier := h.applier.(done := h.applier.done + 1),
       waiters := h.waiters - {e.index})
  }

  // ---- The applier -----------------------------------------------------------------------------

  function Batch(n: Node): seq<LogEntry>
    requires Numbered(n.log) && Base(n.log) <= n.lastApplied <= n.commitIndex <= LastLogIndex(n.log)
  {
    EntriesFrom(n.log, n.lastApplied + 1)[..n.commitIndex - n.lastApplied]
  }

  /** Finishing the batch hits the index panic of the snapshot trigger. */
  predicate Overruns(h: Host) {
    h.applier.Applying? && Numbered(h.node.log)
    && SnapshotTrigger(h.node.(lastApplied := h.node.lastApplied + |h.applier.batch|)).OutOfRange?
  }

  function BatchFinished(h: Host): Host
    requires h.applier.Applying? && Numbered(h.node.log)
  {
    var n := h.node.(lastApplied := h.node.lastApplied + |h.applier.batch|);
    match SnapshotTrigger(n)
    case Skip => h.(node := n, applier := Idle)
    case Capture(i, t) => h.(node := n, applier := Capturing(i, t))
    case OutOfRange => Reboot(h, h.node.disk)
  }

  function CaptureFinished(h: Host): Host
    requires h.applier.Capturing? && Numbered(h.node.log)
  {
    var i := h.applier.index;
    if i <= Base(h.node.log) then h.(applier := Idle)
    else h.(node := SaveAndCompact(h.node, Snapshot(i, h.applier.term, h.kv)), applier := Idle)
  }

  function SnapshotTaken(h: Host): Host
    requires h.node.pending.Some?
  {
    var s := h.node.pending.value;
    h.(node := h.node.(pending := None), applier := if s.lastIndex > h.node.lastApplied then Restoring(s) else Idle)
  }

  function Restored(h: Host): Host
    requires h.applier.Restoring?
  {
    h.(node := h.node.(lastApplied := h.applier.snap.lastIndex), kv := h.applier.snap.data, applier := Idle)
  }

  // ---- Actions ---------------------------------------------------------------------------------

  ghost predicate Init(c: State) {
    && c.hosts.Keys != {} && c.net == {} && c.acked == {} && c.applied == {} && !c.panicked
    && forall p | p in c.hosts ::
      var n := c.hosts[p].node;
      && c.hosts[p] == Host(n, map[], Idle, {}, map[], Intact, true)
      && n == Node(p, n.peers, n.threshold, 0, None, [Sentinel(0, 0)], 0, 0, map[], map[], Follower, None, 0, {}, None,
                   Disk(HardState(0, None), [], None))
      && p !in n.peers && (forall i, j | 0 <= i < j < |n.peers| :: n.peers[i] != n.peers[j])
      && c.hosts.Keys == {p} + (set q | q in n.peers)
  }

  /** The disk in the middle of HandleAppendEntries, after the term and the first j log records. */
  function TornDisk(n: Node, a: AppendArgs, j: nat): Disk
    requires Numbered(n.log) && j <= |RecordsFor(n.log, a.entries)|
  {
    var d := Observe(n, a.term).disk;
    d.(wal := d.wal + RecordsFor(n.log, a.entries)[..j])
  }

  /** The disk in the middle of HandleInstallSnapshot: the snapshot is saved, the log not yet rewritten. */
  function TornSave(n: Node, a: SnapshotArgs): Disk {
    Observe(n, a.term).disk.(snap := Some(a.snap))
  }

  function TornHost(h: Host, a: SnapshotArgs): Host
    requires Numbered(h.node.log)
  {
    var h' := Reboot(h, TornSave(h.node, a));
    if h'.up then h'.(damage := Damaged(h.damage, Overrules(a.snap, h.node.log))) else h'
  }

  ghost predicate Can(c: State, act: Action) {
    Actor(act) in c.hosts && c.hosts[Actor(act)].up &&
    match act
    case ElectionTimeout(p) => p in c.hosts && Formed(c.hosts[p].node) && c.hosts[p].node.state != Leader
    case Deliver(k) => k in c.net && k.to in c.hosts && Formed(c.hosts[k.to].node)
    case ReplicateTo(p, peer) =>
      p in c.hosts && Formed(c.hosts[p].node) && c.hosts[p].node.state == Leader && peer in c.hosts[p].node.peers
      && 1 <= c.hosts[p].node.nextIndex[peer] <= LastLogIndex(c.hosts[p].node.log) + 1
    case ClientPropose(p, _) => p in c.hosts && Formed(c.hosts[p].node) && c.hosts[p].node.state == Leader
    case AwaitRequest(p, r) => p in c.hosts && r in c.hosts[p].proposed
    case GiveUp(p, i) => p in c.hosts && i in c.hosts[p].waiters
    case TakeSnapshot(p) => p in c.hosts && c.hosts[p].applier.Idle? && c.hosts[p].node.pending.Some?
    case FinishRestore(p) => p in c.hosts && c.hosts[p].applier.Restoring?
    case TakeBatch(p) =>
      p in c.hosts && Formed(c.hosts[p].node) && c.hosts[p].applier.Idle? && c.hosts[p].node.pending.None?
      && Base(c.hosts[p].node.log) <= c.hosts[p].node.lastApplied < c.hosts[p].node.commitIndex
    case ApplyOne(p) =>
      p in c.hosts && c.hosts[p].applier.Applying? && c.hosts[p].applier.done < |c.hosts[p].applier.batch|
    case FinishBatch(p) =>
      p in c.hosts && Formed(c.hosts[p].node) && c.hosts[p].applier.Applying?
      && c.hosts[p].applier.done == |c.hosts[p].applier.batch|
    case FinishCapture(p) => p in c.hosts && Formed(c.hosts[p].node) && c.hosts[p].applier.Capturing?
    case Crash(p) => p in c.hosts
    case TornTerm(p, t) => p in c.hosts && t > c.hosts[p].node.currentTerm
    case TornAppend(k, j) =>
      && k in c.net && k.AppendReqPacket? && k.to in c.hosts && Formed(c.hosts[k.to].node)
      && var n := Observe(c.hosts[k.to].node, k.append.term);
      && k.append.term >= n.currentTerm && Check(n.log, n.currentTerm, k.append).None?
      && 0 < j <= |RecordsFor(n.log, k.append.entries)|
    case TornCompact(p) =>
      p in c.hosts && Formed(c.hosts[p].node) && c.hosts[p].applier.Capturing?
      && Base(c.hosts[p].node.log) < c.hosts[p].applier.index
    case TornInstall(k) =>
      && k in c.net && k.SnapReqPacket? && k.to in c.hosts && Formed(c.hosts[k.to].node)
      && k.snapshot.term >= c.hosts[k.to].node.currentTerm && k.snapshot.snap.lastIndex > c.hosts[k.to].node.commitIndex
  }

  function WithHost(c: State, p: NodeId, h: Host): State { c.(hosts := c.hosts[p := h]) }

  function Send(c: State, p: NodeId, n: Node, ks: set<Packet>): State
    requires p in c.hosts
  {
    WithHost(c, p, c.hosts[p].(node := n)).(net := c.net + ks)
  }

  function Delivered(c: State, k: Packet): State
    requires k.to in c.hosts && Formed(c.hosts[k.to].node)
  {
    var p, n := k.to, c.hosts[k.to].node;
    match k
    case VoteReqPacket(_, a) =>
      Send(c, p, OnRequestVote(n, a).0, {VoteRepPacket(a.candidate, p, a.term, OnRequestVote(n, a).1)})
    case VoteRepPacket(_, from, t, r) => Send(c, p, OnVoteReply(n, from, t, r), {})
    case AppendReqPacket(_, a) =>
      (match OnAppendEntries(n, a)
       case Panicked => c.(panicked := true)
       case Replied(m, r) => Send(c, p, m, {AppendRepPacket(a.leader, p, a, r)}))
    case AppendRepPacket(_, from, a, r) => Send(c, p, OnAppendReply(n, from, a, r), {})
    case SnapReqPacket(_, a) =>
      Send(c, p, OnInstallSnapshot(n, a).0, {SnapRepPacket(a.leader, p, a, OnInstallSnapshot(n, a).1)})
    case SnapRepPacket(_, from, a, r) => Send(c, p, OnSnapshotReply(n, from, a, r), {})
  }

  function Replicated(c: State, p: NodeId, peer: NodeId): State
    requires p in c.hosts && Formed(c.hosts[p].node) && peer in c.hosts[p].node.nextIndex
    requires 1 <= c.hosts[p].node.nextIndex[peer] <= LastLogIndex(c.hosts[p].node.log) + 1
  {
    match Outbound(c.hosts[p].node, peer)
    case SendEntries(a) => c.(net := c.net + {AppendReqPacket(peer, a)})
    case SendSnapshot(a) => c.(net := c.net + {SnapReqPacket(peer, a)})
    case Nothing => c
  }

  /** The log index and term that Propose hands back to the key-value server. */
  function RequestFor(n: Node, cmd: Command): Request
    requires |n.log| >= 1
  {
    Request(n.id, LastLogIndex(n.log) + 1, n.currentTerm, cmd)
  }

  /** The system after the action; what cannot happen changes nothing. */
  ghost function Perform(c: State, act: Action): State {
    if !Can(c, act) then c else
    match act
    case ElectionTimeout(p) =>
      var n := StartElection(c.hosts[p].node);
      Send(c, p, n, set q | q in n.peers :: VoteReqPacket(q, VoteRequestOf(n)))
    case Deliver(k) => Delivered(c, k)
    case ReplicateTo(p, peer) => Replicated(c, p, peer)
    case ClientPropose(p, cmd) =>
      var h := c.hosts[p];
      WithHost(c, p, h.(node := Propose(h.node, cmd), proposed := h.proposed + {RequestFor(h.node, cmd)}))
    case AwaitRequest(p, r) =>
      var h := c.hosts[p];
      WithHost(c, p, h.(proposed := h.proposed - {r}, waiters := h.waiters[r.index := r]))
    case GiveUp(p, i) => WithHost(c, p, c.hosts[p].(waiters := c.hosts[p].waiters - {i}))
    case TakeSnapshot(p) => WithHost(c, p, SnapshotTaken(c.hosts[p]))
    case FinishRestore(p) => WithHost(c, p, Restored(c.hosts[p]))
    case TakeBatch(p) => WithHost(c, p, c.hosts[p].(applier := Applying(Batch(c.hosts[p].node), 0)))
    case ApplyOne(p) =>
      var h := c.hosts[p];
      var e := h.applier.batch[h.applier.done];
      WithHost(c, p, AppliedHost(h)).(acked := c.acked + Fired(h, e), applied := c.applied + {Applied(p, e)})
    case FinishBatch(p) => WithHost(c, p, BatchFinished(c.hosts[p]))
    case FinishCapture(p) => WithHost(c, p, CaptureFinished(c.hosts[p]))
    case Crash(p) => WithHost(c, p, Reboot(c.hosts[p], c.hosts[p].node.disk))
    case TornTerm(p, t) =>
      var h := c.hosts[p];
      WithHost(c, p, Reboot(h, h.node.disk.(hard := HardState(t, None))))
    case TornAppend(k, j) =>
      var h := c.hosts[k.to];
      WithHost(c, k.to, Reboot(h, TornDisk(h.node, k.append, j)))
    case TornCompact(p) =>
      var h := c.hosts[p];
      WithHost(c, p, Reboot(h, h.node.disk.(snap := Some(Snapshot(h.applier.index, h.applier.term, h.kv)))))
    case TornInstall(k) =>
      var h := c.hosts[k.to];
      WithHost(c, k.to, TornHost(h, k.snapshot))
  }

  ghost predicate Next(c: State, c': State) {
    exists act :: Can(c, act) && Perform(c, act) == c'
  }

  ghost predicate Run(b: seq<State>) {
    |b| > 0 && Init(b[0]) && forall i | 0 <= i < |b| - 1 :: Next(b[i], b[i + 1])
  }

  ghost function Last(b: seq<State>): State { if b == [] then State(map[], {}, {}, {}, false) else b[|b| - 1] }
}
