/**
 One member of the cluster as a value: the fields of RaftNode, its durable store, and what every
 locked region of the Go code does to them.
 */
module NodeState {
  import opened Types
  import opened SentinelLog
  import opened WalRecords
  import opened KvState

  datatype Snapshot = Snapshot(lastIndex: nat, lastTerm: nat, data: Kv)

  datatype HardState = HardState(term: nat, vote: Option<NodeId>)

  /** What survives a crash. */
  datatype Disk = Disk(hard: HardState, wal: seq<WalRecord>, snap: Option<Snapshot>)

  datatype Node = Node(
    id: NodeId,
    peers: seq<NodeId>,
    threshold: nat,
    currentTerm: nat,
    votedFor: Option<NodeId>,
    log: seq<LogEntry>,
    commitIndex: nat,
    lastApplied: nat,
    nextIndex: map<NodeId, nat>,
    matchIndex: map<NodeId, nat>,
    state: Role,
    leaderID: Option<NodeId>,
    // The running election: votes counted so far, and the peers whose reply has not been handled.
    votes: nat,
    unanswered: set<NodeId>,
    pending: Option<Snapshot>,
    disk: Disk)

  datatype VoteArgs = VoteArgs(term: nat, candidate: NodeId, lastLogIndex: nat, lastLogTerm: nat)
  datatype VoteReply = VoteReply(term: nat, granted: bool)
  datatype AppendArgs = AppendArgs(
    term: nat, leader: NodeId, prevLogIndex: nat, prevLogTerm: nat, entries: seq<LogEntry>, leaderCommit: nat)
  datatype AppendReply = AppendReply(term: nat, success: bool, conflictIndex: nat, conflictTerm: nat)
  datatype SnapshotArgs = SnapshotArgs(term: nat, leader: NodeId, snap: Snapshot)
  datatype SnapshotReply = SnapshotReply(term: nat)

  /** The last index that a request covers. */
  function End(a: AppendArgs): nat { a.prevLogIndex + |a.entries| }

  /** Well-formedness every handler relies on and keeps. */
  predicate Formed(n: Node) {
    && Numbered(n.log) && Base(n.log) <= n.commitIndex <= LastLogIndex(n.log)
    && (forall i, j | 0 <= i < j < |n.peers| :: n.peers[i] != n.peers[j]) && n.id !in n.peers
    && (n.state == Leader ==> forall q | q in n.peers :: q in n.nextIndex && q in n.matchIndex)
  }

  function QuorumSize(peers: seq<NodeId>): nat { (|peers| + 1) / 2 + 1 }

  function Persist(n: Node): Node { n.(disk := n.disk.(hard := HardState(n.currentTerm, n.votedFor))) }

  // ---- Elections -------------------------------------------------------------------------------

  function BecomeFollower(n: Node, term: nat): Node {
    if term > n.currentTerm
    then Persist(n.(currentTerm := term, votedFor := None, leaderID := None, state := Follower))
    else n.(state := Follower)
  }

  /** Every RPC with a higher term makes the receiver a follower of that term. */
  function Observe(n: Node, term: nat): Node { if term > n.currentTerm then BecomeFollower(n, term) else n }

  /** becomeLeaderLocked: optimistic nextIndex, pessimistic matchIndex. */
  function BecomeLeader(n: Node): Node
    requires |n.log| >= 1
  {
    n.(state := Leader, leaderID := Some(n.id),
       nextIndex := map q | q in n.peers :: LastLogIndex(n.log) + 1,
       matchIndex := map q | q in n.peers :: 0)
  }

  /** startElectionLocked. */
  function StartElection(n: Node): Node
    requires |n.log| >= 1
  {
    var c := Persist(n.(state := Candidate, currentTerm := n.currentTerm + 1, votedFor := Some(n.id),
                        leaderID := None, votes := 1, unanswered := set q | q in n.peers));
    if 1 >= QuorumSize(n.peers) then BecomeLeader(c) else c
  }

  function VoteRequestOf(n: Node): VoteArgs
    requires |n.log| >= 1
  {
    VoteArgs(n.currentTerm, n.id, LastLogIndex(n.log), LastLogTerm(n.log))
  }

  /** The election restriction on the receiver's side. */
  predicate LogUpToDate(n: Node, a: VoteArgs)
    requires |n.log| >= 1
  {
    a.lastLogTerm > LastLogTerm(n.log)
    || (a.lastLogTerm == LastLogTerm(n.log) && a.lastLogIndex >= LastLogIndex(n.log))
  }

  /** HandleRequestVote. */
  function OnRequestVote(n: Node, a: VoteArgs): (Node, VoteReply)
    requires |n.log| >= 1
  {
    var m := Observe(n, a.term);
    if a.term < m.currentTerm || !LogUpToDate(m, a) then (m, VoteReply(m.currentTerm, false))
    else if m.votedFor == None || m.votedFor == Some(a.candidate)
    then (Persist(m.(votedFor := Some(a.candidate))), VoteReply(m.currentTerm, true))
    else (m, VoteReply(m.currentTerm, false))
  }

  /** One peer's answer to the RequestVote of election `term`; each is handled at most once. */
  function OnVoteReply(n: Node, from: NodeId, term: nat, r: VoteReply): Node
    requires |n.log| >= 1
  {
    if r.term > n.currentTerm then BecomeFollower(n, r.term)
    else if n.state != Candidate || n.currentTerm != term || from !in n.unanswered then n
    else
      var m := n.(unanswered := n.unanswered - {from});
      if !r.granted then m
      else
        var v := m.(votes := m.votes + 1);
        if v.votes == QuorumSize(v.peers) then BecomeLeader(v) else v
  }

  // ---- AppendEntries, receiver -----------------------------------------------------------------

  /** The first index of the run of equal terms that ends at i, not going below the boundary. */
  function FirstOfTerm(log: seq<LogEntry>, i: nat): (first: nat)
    requires Numbered(log) && Base(log) <= i <= LastLogIndex(log)
    ensures Base(log) <= first <= i && (i > Base(log) ==> first > Base(log))
    ensures forall j | first <= j <= i :: TermOf(log, j) == TermOf(log, i)
    ensures first > Base(log) + 1 ==> TermOf(log, first - 1) != TermOf(log, i)
  {
    if i > Base(log) + 1 && TermOf(log, i - 1) == TermOf(log, i) then FirstOfTerm(log, i - 1) else i
  }

  /** The consistency check: None accepts, Some is the rejection with its hints. */
  function Check(log: seq<LogEntry>, term: nat, a: AppendArgs): Option<AppendReply>
    requires Numbered(log)
  {
    if a.prevLogIndex > LastLogIndex(log) then Some(AppendReply(term, false, LastLogIndex(log) + 1, 0))
    else if a.prevLogIndex >= Base(log) && TermOf(log, a.prevLogIndex) != a.prevLogTerm
    then Some(AppendReply(term, false, FirstOfTerm(log, a.prevLogIndex), TermOf(log, a.prevLogIndex)))
    else None
  }

  /** The durable records of the walk: a truncation if there is a conflict, then the new entries. */
  function RecordsFor(log: seq<LogEntry>, entries: seq<LogEntry>): seq<WalRecord>
    requires Numbered(log)
  {
    var i := FirstNew(log, entries);
    if i == |entries| then []
    else (if Conflicts(log, entries) then [TruncateRecord(entries[i].index)] else []) + AppendRecords(entries[i..])
  }

  /** The walk would drop a committed entry: the "Leader Completeness violated" panic. */
  predicate WouldPanic(n: Node, entries: seq<LogEntry>)
    requires Numbered(n.log)
  {
    Conflicts(n.log, entries) && entries[FirstNew(n.log, entries)].index <= n.commitIndex
  }

  function Accept(n: Node, a: AppendArgs): Node
    requires Numbered(n.log)
  {
    n.(log := Written(n.log, a.entries),
       disk := n.disk.(wal := n.disk.wal + RecordsFor(n.log, a.entries)),
       commitIndex := Max(n.commitIndex, Min(a.leaderCommit, a.prevLogIndex + |a.entries|)))
  }

  datatype AppendOutcome = Replied(node: Node, reply: AppendReply) | Panicked

  /** HandleAppendEntries. */
  function OnAppendEntries(n: Node, a: AppendArgs): AppendOutcome
    requires Numbered(n.log)
  {
    var m := Observe(n, a.term);
    if a.term < m.currentTerm then Replied(m, AppendReply(m.currentTerm, false, 0, 0))
    else
      var f := m.(state := Follower, leaderID := Some(a.leader));
      match Check(f.log, f.currentTerm, a)
      case Some(reply) => Replied(f, reply)
      case None =>
        if WouldPanic(f, a.entries) then Panicked
        else Replied(Accept(f, a), AppendReply(f.currentTerm, true, 0, 0))
  }

  // ---- InstallSnapshot, receiver ---------------------------------------------------------------

  /** The log goes on beyond the snapshot and differs from it at its last index. */
  predicate Overrules(s: Snapshot, log: seq<LogEntry>)
    requires Numbered(log)
  {
    Base(log) <= s.lastIndex < LastLogIndex(log) && TermOf(log, s.lastIndex) != s.lastTerm
  }

  /** The entries beyond the snapshot that survive: all of them if the log matches it at the boundary. */
  function SurvivingSuffix(log: seq<LogEntry>, s: Snapshot): seq<LogEntry>
    requires Numbered(log)
  {
    if Base(log) <= s.lastIndex <= LastLogIndex(log) && TermOf(log, s.lastIndex) == s.lastTerm
    then EntriesFrom(log, s.lastIndex + 1)
    else []
  }

  function Install(n: Node, s: Snapshot): Node
    requires Numbered(n.log)
  {
    var suffix := SurvivingSuffix(n.log, s);
    n.(log := [Sentinel(s.lastIndex, s.lastTerm)] + suffix,
       disk := n.disk.(snap := Some(s), wal := AppendRecords(suffix)),
       commitIndex := s.lastIndex, pending := Some(s))
  }

  /** HandleInstallSnapshot. */
  function OnInstallSnapshot(n: Node, a: SnapshotArgs): (Node, SnapshotReply)
    requires Numbered(n.log)
  {
    var m := Observe(n, a.term);
    if a.term < m.currentTerm then (m, SnapshotReply(m.currentTerm))
    else
      var f := m.(state := Follower, leaderID := Some(a.leader));
      (if a.snap.lastIndex <= f.commitIndex then f else Install(f, a.snap), SnapshotReply(f.currentTerm))
  }

  // ---- The leader ------------------------------------------------------------------------------

  /** How many of the peers are known to hold index i. */
  function CountMatching(peers: seq<NodeId>, matched: map<NodeId, nat>, i: nat): nat {
    if peers == [] then 0
    else
      var last := peers[|peers| - 1];
      CountMatching(peers[..|peers| - 1], matched, i) + (if last in matched && matched[last] >= i then 1 else 0)
  }

  /** The descending scan of advanceCommitIndexLocked, from index i down to the commit index. */
  function CommitScan(n: Node, i: nat): (c: nat)
    requires Numbered(n.log) && Base(n.log) <= n.commitIndex && i <= LastLogIndex(n.log)
  {
    if i <= n.commitIndex || TermOf(n.log, i) != n.currentTerm then n.commitIndex
    else if 1 + CountMatching(n.peers, n.matchIndex, i) >= QuorumSize(n.peers) then i
    else CommitScan(n, i - 1)
  }

  function AdvanceCommit(n: Node): Node
    requires Numbered(n.log) && Base(n.log) <= n.commitIndex
  {
    if n.state != Leader then n else n.(commitIndex := CommitScan(n, LastLogIndex(n.log)))
  }

  /** Propose, on the leader: append durably, then let a lone node commit at once. */
  function Propose(n: Node, c: Command): Node
    requires Numbered(n.log) && Base(n.log) <= n.commitIndex
  {
    var e := LogEntry(n.currentTerm, LastLogIndex(n.log) + 1, c);
    AdvanceCommit(n.(log := n.log + [e], disk := n.disk.(wal := n.disk.wal + [AppendRecord(e)])))
  }

  datatype Outgoing = SendEntries(args: AppendArgs) | SendSnapshot(snap: SnapshotArgs) | Nothing

  /** What one replication round sends to one peer. */
  function Outbound(n: Node, peer: NodeId): Outgoing
    requires Numbered(n.log) && peer in n.nextIndex && 1 <= n.nextIndex[peer] <= LastLogIndex(n.log) + 1
  {
    var next := n.nextIndex[peer];
    if next <= Base(n.log) then
      match n.disk.snap
      case None => Nothing
      case Some(s) => SendSnapshot(SnapshotArgs(n.currentTerm, n.id, s))
    else
      SendEntries(AppendArgs(n.currentTerm, n.id, next - 1, TermOf(n.log, next - 1), EntriesFrom(n.log, next),
                             n.commitIndex))
  }

  /** The leader's last real entry of the given term, scanning down from slot i; 0 when the scan
      meets a smaller term or the sentinel first. */
  function LastOfTerm(log: seq<LogEntry>, term: nat, i: nat): (slot: nat)
    requires i < |log|
    ensures slot <= i && (slot > 0 ==> log[slot].term == term)
  {
    if i == 0 || log[i].term < term then 0
    else if log[i].term == term then i
    else LastOfTerm(log, term, i - 1)
  }

  /** nextIndexAfterRejection. */
  function NextIndexAfterRejection(log: seq<LogEntry>, prevLogIndex: nat, r: AppendReply): nat
    requires |log| >= 1
  {
    if r.conflictTerm == 0 then
      if r.conflictIndex >= 1 then r.conflictIndex else if prevLogIndex >= 1 then prevLogIndex else 1
    else
      var slot := LastOfTerm(log, r.conflictTerm, |log| - 1);
      if slot > 0 then log[slot].index + 1 else r.conflictIndex
  }

  /** handleAppendEntriesReply, for a request sent as leader of `a.term`. */
  function OnAppendReply(n: Node, peer: NodeId, a: AppendArgs, r: AppendReply): Node
    requires Formed(n)
  {
    if r.term > n.currentTerm then BecomeFollower(n, r.term)
    else if n.state != Leader || n.currentTerm != a.term || peer !in n.peers then n
    else if r.success then
      var matched := a.prevLogIndex + |a.entries|;
      if matched > n.matchIndex[peer]
      then AdvanceCommit(n.(matchIndex := n.matchIndex[peer := matched], nextIndex := n.nextIndex[peer := matched + 1]))
      else n
    else
      var next := NextIndexAfterRejection(n.log, a.prevLogIndex, r);
      if next < n.nextIndex[peer] then n.(nextIndex := n.nextIndex[peer := next]) else n
  }

  /** The reply half of sendSnapshot. */
  function OnSnapshotReply(n: Node, peer: NodeId, a: SnapshotArgs, r: SnapshotReply): Node
    requires Formed(n)
  {
    if r.term > n.currentTerm then BecomeFollower(n, r.term)
    else if n.state != Leader || n.currentTerm != a.term || peer !in n.peers then n
    else if a.snap.lastIndex > n.matchIndex[peer] then
      n.(matchIndex := n.matchIndex[peer := a.snap.lastIndex],
         nextIndex := n.nextIndex[peer := a.snap.lastIndex + 1])
    else n
  }

  // ---- Compaction and recovery -----------------------------------------------------------------

  const UINT64 := 0x1_0000_0000_0000_0000

  /** uint64 subtraction, as Go computes it. */
  function WrappingSub(a: nat, b: nat): nat { (a - b) % UINT64 }

  datatype Trigger = Skip | Capture(index: nat, term: nat) | OutOfRange

  /** maybeSnapshotLocked up to the point where the lock is released; OutOfRange is the index panic
      of termAt when the subtraction wrapped around. */
  function SnapshotTrigger(n: Node): Trigger
    requires Numbered(n.log)
  {
    if n.threshold == 0 || WrappingSub(n.lastApplied, Base(n.log)) < n.threshold then Skip
    else if Base(n.log) <= n.lastApplied <= LastLogIndex(n.log)
    then Capture(n.lastApplied, TermOf(n.log, n.lastApplied))
    else OutOfRange
  }

  /** SaveSnapshot followed by compactLogLocked. */
  function SaveAndCompact(n: Node, s: Snapshot): Node
    requires Numbered(n.log) && Base(n.log) < s.lastIndex
  {
    var suffix := if s.lastIndex < LastLogIndex(n.log) then EntriesFrom(n.log, s.lastIndex + 1) else [];
    n.(log := [Sentinel(s.lastIndex, s.lastTerm)] + suffix,
       disk := n.disk.(snap := Some(s), wal := AppendRecords(suffix)))
  }

  /** The recovered entries beyond the snapshot boundary; None when they leave a gap. */
  function Beyond(entries: seq<LogEntry>, base: nat): Option<seq<LogEntry>> {
    if entries == [] then Some([])
    else
      var last := entries[|entries| - 1];
      match Beyond(entries[..|entries| - 1], base)
      case None => None
      case Some(kept) =>
        if last.index <= base then Some(kept)
        else if last.index == base + 1 + |kept| then Some(kept + [last]) else None
  }

  /** NewNode: None is the refusal to start from a log with gaps. */
  function Recover(id: NodeId, peers: seq<NodeId>, threshold: nat, d: Disk): Option<Node> {
    var b := match d.snap case None => 0 case Some(s) => s.lastIndex;
    var t := match d.snap case None => 0 case Some(s) => s.lastTerm;
    match Replay(d.wal)
    case None => None
    case Some(entries) =>
      match Beyond(entries, b)
      case None => None
      case Some(kept) =>
        Some(Node(id, peers, threshold, d.hard.term, d.hard.vote, [Sentinel(b, t)] + kept, b, b,
                  map[], map[], Follower, None, 0, {}, None, d))
  }
}
