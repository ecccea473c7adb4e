/**
 What each handler leaves behind, field by field: who decides what, what is told to the sender, and
 what stays as it was. Nothing here mentions how the handlers are composed.
 */
module Handlers {
  import opened Types
  import opened Logs
  import opened SentinelLog
  import opened WalRecords
  import opened NodeState

  // ---- Parts of a node that stay as they were --------------------------------------------------

  predicate SameMember(n: Node, m: Node) {
    m.id == n.id && m.peers == n.peers && m.threshold == n.threshold && m.lastApplied == n.lastApplied
  }

  /** Log, commit index, parked snapshot, write-ahead log and durable snapshot. */
  predicate SameStores(n: Node, m: Node) {
    && m.log == n.log && m.commitIndex == n.commitIndex && m.pending == n.pending
    && m.disk.wal == n.disk.wal && m.disk.snap == n.disk.snap
  }

  predicate SameCursors(n: Node, m: Node) { m.nextIndex == n.nextIndex && m.matchIndex == n.matchIndex }

  predicate SameCount(n: Node, m: Node) { m.votes == n.votes && m.unanswered == n.unanswered }

  predicate SameHardState(n: Node, m: Node) {
    m.currentTerm == n.currentTerm && m.votedFor == n.votedFor && m.disk.hard == n.disk.hard
  }

  // ---- Terms -----------------------------------------------------------------------------------

  /** m is n after it learned of the later term t: a follower without a vote, durably, and no more. */
  predicate StepsDown(n: Node, t: nat, m: Node) {
    && m.currentTerm == t && m.votedFor == None && m.state == Follower && m.leaderID == None
    && m.disk.hard == HardState(t, None)
    && SameMember(n, m) && SameStores(n, m) && SameCursors(n, m) && SameCount(n, m)
  }

  /** Within its term, a node that steps down only changes its role. */
  lemma FollowerExactly(n: Node, t: nat)
    ensures t > n.currentTerm ==> StepsDown(n, t, BecomeFollower(n, t)) && StepsDown(n, t, Observe(n, t))
    ensures t <= n.currentTerm ==> BecomeFollower(n, t) == n.(state := Follower) && Observe(n, t) == n
  {
  }

  /** m follows the leader of term t; a vote cast in this term is kept. */
  predicate Follows(n: Node, t: nat, leader: NodeId, m: Node) {
    && m.currentTerm == t && m.state == Follower && m.leaderID == Some(leader)
    && m.votedFor == (if t > n.currentTerm then None else n.votedFor)
    && m.disk.hard == (if t > n.currentTerm then HardState(t, None) else n.disk.hard)
    && SameMember(n, m) && SameCursors(n, m) && SameCount(n, m)
  }

  // ---- Elections -------------------------------------------------------------------------------

  /** More than half of the cluster that has these peers besides the node itself. */
  predicate Majority(votes: nat, peers: seq<NodeId>) { 2 * votes > |peers| + 1 }

  /** m has just become leader: it expects every peer to have everything, and knows of nothing. */
  predicate TakesOffice(m: Node) {
    && |m.log| >= 1 && m.state == Leader && m.leaderID == Some(m.id)
    && m.nextIndex.Keys == m.matchIndex.Keys == (set q | q in m.peers)
    && forall q | q in m.peers :: m.nextIndex[q] == LastLogIndex(m.log) + 1 && m.matchIndex[q] == 0
  }

  /** m has started an election: the next term, its own vote, durably; alone in its cluster it has won. */
  predicate Stands(n: Node, m: Node) {
    && m.currentTerm == n.currentTerm + 1 && m.votedFor == Some(n.id)
    && m.disk.hard == HardState(n.currentTerm + 1, Some(n.id))
    && SameMember(n, m) && SameStores(n, m)
    && m.votes == 1 && m.unanswered == (set q | q in n.peers)
    && if n.peers == [] then TakesOffice(m) else m.state == Candidate && m.leaderID == None && SameCursors(n, m)
  }

  lemma ElectionStarts(n: Node)
    requires |n.log| >= 1
    ensures Stands(n, StartElection(n))
  {
    assert |n.peers| == 0 <==> n.peers == [];
  }

  /** The answer (m, r) to a vote request by a node behind which is the whole log `full`. */
  predicate Decides(n: Node, full: Log, a: VoteArgs, m: Node, r: VoteReply) {
    && (r.granted <==>
      && a.term >= n.currentTerm && UpToDate(a.lastLogTerm, a.lastLogIndex, full)
      && (a.term > n.currentTerm || n.votedFor == None || n.votedFor == Some(a.candidate)))
    && r.term == m.currentTerm == Max(n.currentTerm, a.term)
    && SameMember(n, m) && SameStores(n, m) && SameCursors(n, m) && SameCount(n, m)
    && (if a.term > n.currentTerm then m.state == Follower && m.leaderID == None
        else m.state == n.state && m.leaderID == n.leaderID)
    && (if r.granted then m.votedFor == Some(a.candidate) && m.disk.hard == HardState(a.term, Some(a.candidate))
        else if a.term > n.currentTerm then m.votedFor == None && m.disk.hard == HardState(a.term, None)
        else m == n)
  }

  lemma VoteDecided(n: Node, full: Log, a: VoteArgs)
    requires |n.log| >= 1 && LastLogIndex(n.log) == |full| && LastLogTerm(n.log) == LastTerm(full)
    ensures Decides(n, full, a, OnRequestVote(n, a).0, OnRequestVote(n, a).1)
  {
  }

  /** m is n after the answer r to the request it sent to `from` in election `term`: each peer's first answer
      in the running election counts, and the vote that makes a majority makes a leader. */
  predicate Counts(n: Node, from: NodeId, term: nat, r: VoteReply, m: Node) {
    if r.term > n.currentTerm then StepsDown(n, r.term, m)
    else if n.state == Candidate && n.currentTerm == term && from in n.unanswered then
      && SameMember(n, m) && SameStores(n, m) && SameHardState(n, m)
      && m.unanswered == n.unanswered - {from} && m.votes == n.votes + (if r.granted then 1 else 0)
      && if r.granted && Majority(m.votes, n.peers) && !Majority(n.votes, n.peers) then TakesOffice(m)
         else m.state == Candidate && m.leaderID == n.leaderID && SameCursors(n, m)
    else m == n
  }

  lemma VoteReplyCounted(n: Node, from: NodeId, term: nat, r: VoteReply)
    requires |n.log| >= 1
    ensures Counts(n, from, term, r, OnVoteReply(n, from, term, r))
  {
  }

  // ---- AppendEntries and InstallSnapshot, receiver ---------------------------------------------

  /** The log has the entry before the request, or a snapshot covers that. */
  predicate HasPrevious(log: seq<LogEntry>, a: AppendArgs)
    requires Numbered(log)
  {
    a.prevLogIndex <= LastLogIndex(log)
    && (a.prevLogIndex >= Base(log) ==> TermOf(log, a.prevLogIndex) == a.prevLogTerm)
  }

  /** What a rejection tells the leader: how long the log is, if it ends before the request; else the term
      that is in the way and where its run begins, not looking below the boundary. */
  predicate Hints(log: seq<LogEntry>, a: AppendArgs, r: AppendReply)
    requires Numbered(log)
  {
    if a.prevLogIndex > LastLogIndex(log) then r.conflictTerm == 0 && r.conflictIndex == LastLogIndex(log) + 1
    else
      && a.prevLogIndex >= Base(log) && r.conflictTerm == TermOf(log, a.prevLogIndex)
      && Base(log) <= r.conflictIndex <= a.prevLogIndex
      && (a.prevLogIndex > Base(log) ==> r.conflictIndex > Base(log))
      && (forall i | r.conflictIndex <= i <= a.prevLogIndex :: TermOf(log, i) == r.conflictTerm)
      && (r.conflictIndex > Base(log) + 1 ==> TermOf(log, r.conflictIndex - 1) != r.conflictTerm)
  }

  /** The answer (m, r) to an AppendEntries request, if there is one. */
  predicate Answers(n: Node, a: AppendArgs, m: Node, r: AppendReply)
    requires Numbered(n.log)
  {
    && r.term == Max(n.currentTerm, a.term)
    && (r.success <==> a.term >= n.currentTerm && HasPrevious(n.log, a))
    && (if a.term >= n.currentTerm && !r.success then Hints(n.log, a, r) else r.conflictIndex == r.conflictTerm == 0)
    && if a.term < n.currentTerm then m == n
       else
         && Follows(n, a.term, a.leader, m) && m.pending == n.pending && m.disk.snap == n.disk.snap
         && if r.success then m.commitIndex == Max(n.commitIndex, Min(a.leaderCommit, End(a)))
            else SameStores(n, m)
  }

  lemma AppendAnswers(n: Node, a: AppendArgs)
    requires Numbered(n.log)
    ensures OnAppendEntries(n, a).Replied? ==> Answers(n, a, OnAppendEntries(n, a).node, OnAppendEntries(n, a).reply)
  {
    hide FirstOfTerm, Written, RecordsFor, WouldPanic, Conflicts, FirstNew, LastLogIndex, TermOf;
  }

  /** e disagrees with a committed entry that the log still has. */
  predicate Contradicts(n: Node, e: LogEntry)
    requires Numbered(n.log)
  {
    Base(n.log) < e.index <= Min(n.commitIndex, LastLogIndex(n.log)) && TermOf(n.log, e.index) != e.term
  }

  /** The handler panics if and only if an entry of a request it would accept contradicts a committed one. */
  lemma PanicsExactly(n: Node, a: AppendArgs)
    requires Numbered(n.log) && forall i | 0 <= i < |a.entries| :: a.entries[i].index == a.prevLogIndex + 1 + i
    ensures OnAppendEntries(n, a).Panicked? <==>
      && a.term >= n.currentTerm && HasPrevious(n.log, a)
      && exists i :: 0 <= i < |a.entries| && Contradicts(n, a.entries[i])
  {
    hide FirstOfTerm, FirstNew, Written, RecordsFor, LastLogIndex, Accept;
    var i := FirstNew(n.log, a.entries);
    if WouldPanic(n, a.entries) {
      assert Contradicts(n, a.entries[i]);
    } else {
      forall j | 0 <= j < |a.entries|
        ensures !Contradicts(n, a.entries[j])
      {
        assert j < i ==> !IsNew(n.log, a.entries[j]);
      }
    }
  }

  /** The answer (m, r) to an InstallSnapshot request. */
  predicate Installs(n: Node, a: SnapshotArgs, m: Node, r: SnapshotReply)
    requires Numbered(n.log)
  {
    && r.term == Max(n.currentTerm, a.term)
    && if a.term < n.currentTerm then m == n
       else
         && Follows(n, a.term, a.leader, m)
         && if a.snap.lastIndex <= n.commitIndex then SameStores(n, m)
            else
              && m.commitIndex == a.snap.lastIndex && m.pending == m.disk.snap == Some(a.snap)
              && |m.log| >= 1 && m.log[0] == Sentinel(a.snap.lastIndex, a.snap.lastTerm)
              && (if HoldsLast(n.log, a.snap) then m.log[1..] == n.log[a.snap.lastIndex - Base(n.log) + 1..]
                  else |m.log| == 1)
              && m.disk.wal == AppendRecords(m.log[1..])
  }

  /** The log has the last entry that the snapshot stands for. */
  predicate HoldsLast(log: seq<LogEntry>, s: Snapshot)
    requires Numbered(log)
  {
    Base(log) <= s.lastIndex <= LastLogIndex(log) && TermOf(log, s.lastIndex) == s.lastTerm
  }

  lemma SnapshotInstalls(n: Node, a: SnapshotArgs)
    requires Numbered(n.log)
    ensures Installs(n, a, OnInstallSnapshot(n, a).0, OnInstallSnapshot(n, a).1)
  {
    hide TermOf, AppendRecords, Sentinel, LastLogIndex;
    var suffix := SurvivingSuffix(n.log, a.snap);
    assert ([Sentinel(a.snap.lastIndex, a.snap.lastTerm)] + suffix)[1..] == suffix;
  }

  // ---- The leader ------------------------------------------------------------------------------

  /** m has one more entry, of its own term, in memory and on disk. */
  predicate Appends(n: Node, c: Command, m: Node)
    requires |n.log| >= 1
  {
    && SameMember(n, m) && SameHardState(n, m) && SameCount(n, m) && SameCursors(n, m)
    && m.state == n.state && m.leaderID == n.leaderID && m.pending == n.pending && m.disk.snap == n.disk.snap
    && var e := LogEntry(n.currentTerm, LastLogIndex(n.log) + 1, c);
    && m.log == n.log + [e] && m.disk.wal == n.disk.wal + [AppendRecord(e)]
    && n.commitIndex <= m.commitIndex && (n.state != Leader ==> m.commitIndex == n.commitIndex)
  }

  lemma ProposalAppends(n: Node, c: Command)
    requires Formed(n)
    ensures Appends(n, c, Propose(n, c))
  {
    hide CommitScan;
    var e := LogEntry(n.currentTerm, LastLogIndex(n.log) + 1, c);
    var k := n.(log := n.log + [e], disk := n.disk.(wal := n.disk.wal + [AppendRecord(e)]));
    ScanNeverLowers(k, LastLogIndex(k.log));
  }

  /** Two cursor maps that differ at most in the entry of one peer. */
  predicate OnlyAt(x: map<NodeId, nat>, y: map<NodeId, nat>, peer: NodeId) {
    peer in x && y.Keys == x.Keys && forall q | q in x && q != peer :: y[q] == x[q]
  }

  /** A leader's node after a reply of its own term: cursors for that peer and the commit index may differ. */
  predicate Moves(n: Node, peer: NodeId, m: Node) {
    && SameMember(n, m) && SameHardState(n, m) && SameCount(n, m) && m.state == n.state && m.leaderID == n.leaderID
    && m.log == n.log && m.pending == n.pending && m.disk == n.disk && n.commitIndex <= m.commitIndex
    && OnlyAt(n.matchIndex, m.matchIndex, peer) && OnlyAt(n.nextIndex, m.nextIndex, peer)
  }

  /** m is n after the reply r to its request a: matchIndex only rises, a rejection only lowers nextIndex. */
  predicate Tallies(n: Node, peer: NodeId, a: AppendArgs, r: AppendReply, m: Node)
    requires |n.log| >= 1
  {
    if r.term > n.currentTerm then StepsDown(n, r.term, m)
    else if n.state == Leader && n.currentTerm == a.term && peer in n.peers then
      && Moves(n, peer, m)
      && if r.success then
           && m.matchIndex[peer] == Max(n.matchIndex[peer], End(a))
           && (if End(a) > n.matchIndex[peer] then m.nextIndex[peer] == End(a) + 1 else m == n)
         else
           && m.matchIndex[peer] == n.matchIndex[peer] && m.commitIndex == n.commitIndex
           && m.nextIndex[peer] == Min(n.nextIndex[peer], NextIndexAfterRejection(n.log, a.prevLogIndex, r))
    else m == n
  }

  lemma AppendReplyTallied(n: Node, peer: NodeId, a: AppendArgs, r: AppendReply)
    requires Formed(n)
    ensures Tallies(n, peer, a, r, OnAppendReply(n, peer, a, r))
  {
    hide CommitScan, NextIndexAfterRejection;
    forall k: Node | k.log == n.log && k.commitIndex == n.commitIndex
      ensures CommitScan(k, LastLogIndex(k.log)) >= n.commitIndex
    {
      ScanNeverLowers(k, LastLogIndex(k.log));
    }
  }

  lemma {:induction false} ScanNeverLowers(n: Node, i: nat)
    requires Numbered(n.log) && Base(n.log) <= n.commitIndex && i <= LastLogIndex(n.log)
    ensures n.commitIndex <= CommitScan(n, i)
    decreases i
  {
    if i > n.commitIndex && TermOf(n.log, i) == n.currentTerm { ScanNeverLowers(n, i - 1); }
  }

  /** m is n after the reply r to the snapshot it sent. */
  predicate TalliesSnapshot(n: Node, peer: NodeId, a: SnapshotArgs, r: SnapshotReply, m: Node) {
    if r.term > n.currentTerm then StepsDown(n, r.term, m)
    else if n.state == Leader && n.currentTerm == a.term && peer in n.peers then
      && Moves(n, peer, m) && m.commitIndex == n.commitIndex
      && m.matchIndex[peer] == Max(n.matchIndex[peer], a.snap.lastIndex)
      && m.nextIndex[peer] ==
         if a.snap.lastIndex > n.matchIndex[peer] then a.snap.lastIndex + 1 else n.nextIndex[peer]
    else m == n
  }

  lemma SnapshotReplyTallied(n: Node, peer: NodeId, a: SnapshotArgs, r: SnapshotReply)
    requires Formed(n)
    ensures TalliesSnapshot(n, peer, a, r, OnSnapshotReply(n, peer, a, r))
  {
  }
}
