/** Every locked region of a node is matched by events of its uncompacted counterpart. */
module NodeSimulation {
  import opened Types
  import opened Logs
  import opened SentinelLog
  import opened WalRecords
  import opened NodeState
  import opened NodeRelation
  import H = Handlers
  import P = Protocol
  import opened ProtocolInvariant

  // ---- Terms and elections ---------------------------------------------------------------------

  /** Seeing a higher term; anything else leaves the node as it is. */
  lemma SimObserve(s0: P.State, p: NodeId, c: Node, t: nat) returns (s: P.State)
    requires Inv(s0) && p in s0.nodes && NodeRel(c, s0.At(p))
    ensures Ahead(s0, s, p) && p in s.nodes && NodeRel(Observe(c, t), s.At(p)) && s.h == s0.h
    ensures s.At(p).log == s0.At(p).log && s.At(p).commit == s0.At(p).commit
  {
    hide Inv, Ahead;
    Here(s0, p);
    s := s0;
    if t > c.currentTerm { s := Go(s0, s0, p, P.ObserveTerm(p, t)); }
  }

  /** Contact from the leader of the node's own term. */
  lemma SimFollow(s0: P.State, s1: P.State, p: NodeId, c: Node, leader: NodeId) returns (s: P.State)
    requires Ahead(s0, s1, p) && NodeRel(c, s1.At(p))
    ensures Ahead(s0, s, p) && NodeRel(c.(state := Follower, leaderID := Some(leader)), s.At(p)) && s.h == s1.h
    ensures s.At(p) == s1.At(p).(role := Follower)
  {
    hide Inv, Reaches, Extends, Leads;
    s := Go(s0, s1, p, P.StepDown(p));
  }

  /** The handler takes the node from n to where s has it, and decides by the log of n; a granted vote is on
      record. */
  ghost predicate VoteAnswered(c: Node, a: VoteArgs, p: NodeId, n: P.Node, s: P.State) {
    && Numbered(c.log) && NodeRel(OnRequestVote(c, a).0, s.At(p))
    && (OnRequestVote(c, a).1.granted ==> P.Vote(a.term, p, a.candidate) in s.h.votes)
    && H.Decides(c, n.log, a, OnRequestVote(c, a).0, OnRequestVote(c, a).1)
  }

  lemma SimRequestVote(s0: P.State, p: NodeId, c: Node, a: VoteArgs) returns (s: P.State)
    requires Inv(s0) && p in s0.nodes && NodeRel(c, s0.At(p))
    requires P.VoteRequest(a.term, a.candidate, a.lastLogTerm, a.lastLogIndex) in s0.h.requests
    ensures Ahead(s0, s, p) && VoteAnswered(c, a, p, s0.At(p), s)
  {
    hide Inv, Reaches, Extends, Ahead, Compacted, SortedFrom;
    s := SimObserve(s0, p, c, a.term);
    H.VoteDecided(c, s0.nodes[p].log, a);
    if OnRequestVote(c, a).1.granted {
      var r := P.VoteRequest(a.term, a.candidate, a.lastLogTerm, a.lastLogIndex);
      s := Go(s0, s, p, P.GrantVote(p, r));
    }
  }

  lemma PeerCount(peers: seq<NodeId>)
    requires forall i, j | 0 <= i < j < |peers| :: peers[i] != peers[j]
    ensures |PeerSet(peers)| == |peers|
  {
    if peers != [] {
      var rest, last := peers[..|peers| - 1], peers[|peers| - 1];
      PeerCount(rest);
      assert PeerSet(peers) == PeerSet(rest) + {last};
    }
  }

  /** The quorum size of the code is the least size of a majority. */
  lemma MajoritySize(c: Node, p: NodeId, members: set<NodeId>, q: set<NodeId>)
    requires ConfigRel(c, p, members) && q <= members
    ensures |q| >= QuorumSize(c.peers) <==> Quorum(members, q)
  {
    PeerCount(c.peers);
    assert |members| == |c.peers| + 1;
  }

  ghost predicate LeadsAs(c: Node, n: P.Node) { Numbered(c.log) && NodeRel(BecomeLeader(c), n) }

  lemma SimLead(s0: P.State, s1: P.State, p: NodeId, c: Node) returns (s: P.State)
    requires Ahead(s0, s1, p) && NodeRel(c, s1.At(p)) && ConfigRel(c, p, s1.h.past.members)
    requires c.state == Candidate && c.votes == QuorumSize(c.peers)
    ensures Ahead(s0, s, p) && LeadsAs(c, s.At(p)) && s1.h.requests <= s.h.requests
  {
    hide Inv, Reaches, Extends, Ahead;
    MajoritySize(c, p, s1.h.past.members, s1.nodes[p].granted);
    s := Go(s0, s1, p, P.BecomeLeader(p));
  }

  function Started(c: Node): Node {
    Persist(c.(state := Candidate, currentTerm := c.currentTerm + 1, votedFor := Some(c.id), leaderID := None,
               votes := 1, unanswered := set q | q in c.peers))
  }

  lemma StartedRel(c: Node, n: P.Node)
    requires NodeRel(c, n) && c.id !in c.peers
    ensures NodeRel(Started(c), n.(term := n.term + 1, vote := Some(c.id), role := Candidate, granted := {c.id}))
  {
    hide WalRel, SnapRel, LeaderRel, Compacted;
  }

  /** The election that a timeout starts, with its vote request on record. */
  ghost predicate StandsAs(c: Node, p: NodeId, s: P.State) {
    && Numbered(c.log) && NodeRel(StartElection(c), s.At(p)) && H.Stands(c, StartElection(c))
    && var a := VoteRequestOf(StartElection(c));
    P.VoteRequest(a.term, a.candidate, a.lastLogTerm, a.lastLogIndex) in s.h.requests
  }

  lemma SimTimeout(s0: P.State, p: NodeId, c: Node) returns (s: P.State)
    requires Inv(s0) && p in s0.nodes && NodeRel(c, s0.At(p)) && c.state != Leader
    requires ConfigRel(c, p, s0.h.past.members)
    ensures Ahead(s0, s, p) && StandsAs(c, p, s)
  {
    hide Inv, Reaches, Extends, DiskRel, LeaderRel, ElectionRel, Compacted, BecomeLeader, QuorumSize, Onward;
    Here(s0, p);
    H.ElectionStarts(c);
    s := Go(s0, s0, p, P.Timeout(p));
    StartedRel(c, s0.nodes[p]);
    LeadKeepsLog(Started(c));
    if 1 >= QuorumSize(c.peers) { s := SimLead(s0, s, p, Started(c)); }
  }

  lemma LeadKeepsLog(c: Node)
    requires |c.log| >= 1
    ensures BecomeLeader(c).log == c.log && BecomeLeader(c).currentTerm == c.currentTerm && BecomeLeader(c).id == c.id
    ensures QuorumSize(c.peers) >= 1
  {
  }

  lemma CountedRel(c: Node, n: P.Node, from: NodeId)
    requires NodeRel(c, n) && c.state == Candidate && from in c.unanswered
    ensures NodeRel(c.(unanswered := c.unanswered - {from}), n)
    ensures NodeRel(c.(unanswered := c.unanswered - {from}, votes := c.votes + 1), n.(granted := n.granted + {from}))
  {
    hide WalRel, SnapRel, LeaderRel, Compacted;
    assert ElectionRel(c, n) && from !in n.granted;
    assert |n.granted + {from}| == |n.granted| + 1;
  }

  ghost predicate VoteCounted(c: Node, from: NodeId, term: nat, r: VoteReply, n: P.Node) {
    && Numbered(c.log) && NodeRel(OnVoteReply(c, from, term, r), n)
    && H.Counts(c, from, term, r, OnVoteReply(c, from, term, r))
  }

  lemma SimVoteReply(s0: P.State, p: NodeId, c: Node, from: NodeId, term: nat, r: VoteReply) returns (s: P.State)
    requires Inv(s0) && p in s0.nodes && NodeRel(c, s0.At(p)) && ConfigRel(c, p, s0.h.past.members)
    requires r.granted ==> P.Vote(term, from, p) in s0.h.votes
    ensures Ahead(s0, s, p) && VoteCounted(c, from, term, r, s.At(p))
  {
    hide Inv, Reaches, Extends, DiskRel, LeaderRel, ElectionRel, Compacted, QuorumSize, BecomeLeader, Ahead;
    Here(s0, p);
    H.VoteReplyCounted(c, from, term, r);
    s := s0;
    if r.term > c.currentTerm {
      s := SimObserve(s0, p, c, r.term);
    } else if c.state == Candidate && c.currentTerm == term && from in c.unanswered {
      CountedRel(c, s0.nodes[p], from);
      if r.granted {
        s := Go(s0, s0, p, P.CountVote(p, from));
        var v := c.(unanswered := c.unanswered - {from}, votes := c.votes + 1);
        if v.votes == QuorumSize(v.peers) { s := SimLead(s0, s, p, v); }
      }
    }
  }

  // ---- The leader ------------------------------------------------------------------------------

  ghost function Matching(peers: seq<NodeId>, matched: map<NodeId, nat>, i: nat): set<NodeId> {
    set q | q in peers && q in matched && matched[q] >= i
  }

  lemma {:induction false} CountIsCardinality(peers: seq<NodeId>, matched: map<NodeId, nat>, i: nat)
    requires forall i, j | 0 <= i < j < |peers| :: peers[i] != peers[j]
    ensures |Matching(peers, matched, i)| == CountMatching(peers, matched, i)
  {
    hide Matching;
    if peers == [] {
      assert Matching(peers, matched, i) == {} by { NobodyMatches(matched, i); }
    } else {
      var rest, last := peers[..|peers| - 1], peers[|peers| - 1];
      CountIsCardinality(rest, matched, i);
      MatchingOneMore(rest, last, matched, i);
      assert peers == rest + [last] && last !in rest;
    }
  }

  lemma NobodyMatches(matched: map<NodeId, nat>, i: nat)
    ensures Matching([], matched, i) == {}
  {
  }

  lemma MatchingOneMore(rest: seq<NodeId>, last: NodeId, matched: map<NodeId, nat>, i: nat)
    requires last !in rest
    ensures last !in Matching(rest, matched, i)
    ensures Matching(rest + [last], matched, i) ==
      Matching(rest, matched, i) + (if last in matched && matched[last] >= i then {last} else {})
  {
  }

  lemma {:induction false} CommitScanFacts(n: Node, i: nat)
    requires Numbered(n.log) && Base(n.log) <= n.commitIndex && i <= LastLogIndex(n.log)
    ensures var k := CommitScan(n, i);
      k == n.commitIndex || (n.commitIndex < k <= i && TermOf(n.log, k) == n.currentTerm
                             && 1 + CountMatching(n.peers, n.matchIndex, k) >= QuorumSize(n.peers))
    decreases i
  {
    if i > n.commitIndex && TermOf(n.log, i) == n.currentTerm
      && 1 + CountMatching(n.peers, n.matchIndex, i) < QuorumSize(n.peers)
    {
      CommitScanFacts(n, i - 1);
    }
  }

  /** What the scan finds satisfies the protocol's commit rule. */
  lemma ScanMeetsRule(c: Node, n: P.Node, p: NodeId, members: set<NodeId>, k: nat) returns (backers: set<NodeId>)
    requires LogRel(c, n) && LeaderRel(c, n) && ConfigRel(c, p, members)
    requires c.commitIndex == n.commit && c.currentTerm == n.term
    requires k == CommitScan(c, LastLogIndex(c.log)) && k > n.commit
    ensures k <= |n.log| && TermAt(n.log, k) == n.term && Quorum(members, backers)
    ensures forall v | v in backers && v != p :: v in n.matched && n.matched[v] >= k
  {
    hide CommitScan;
    CommitScanFacts(c, LastLogIndex(c.log));
    CompactedTerm(n.log, Base(c.log), k);
    backers := {p} + Matching(c.peers, c.matchIndex, k);
    CountIsCardinality(c.peers, c.matchIndex, k);
    MajoritySize(c, p, members, backers);
  }

  ghost predicate AdvancedAs(c: Node, n: P.Node) {
    Numbered(c.log) && Base(c.log) <= c.commitIndex && NodeRel(AdvanceCommit(c), n)
  }

  lemma SimAdvance(s0: P.State, s1: P.State, p: NodeId, c: Node) returns (s: P.State)
    requires Ahead(s0, s1, p) && NodeRel(c, s1.At(p)) && ConfigRel(c, p, s1.h.past.members) && c.state == Leader
    ensures Ahead(s0, s, p) && p in s.nodes && AdvancedAs(c, s.At(p)) && s.h == s1.h
    ensures s.At(p) == s1.At(p).(commit := s.At(p).commit)
  {
    hide Inv, Ahead, Onward, WalRel, SnapRel, CommitScan, ConfigRel, Compacted, Leads;
    AheadFacts(s0, s1, p);
    CommitScanFacts(c, LastLogIndex(c.log));
    s := s1;
    var k := CommitScan(c, LastLogIndex(c.log));
    if k > c.commitIndex {
      var backers := ScanMeetsRule(c, s1.nodes[p], p, s1.h.past.members, k);
      s := Go(s0, s1, p, P.AdvanceCommit(p, k, backers));
    }
  }

  /** Appending one entry, in memory and durably. */
  lemma AppendedRel(c: Node, a: P.Node, e: LogEntry, c': Node, a': P.Node)
    requires LogRel(c, a) && DiskRel(c.disk, a, Base(c.log)) && e.index == |a.log| + 1
    requires c' == c.(log := c.log + [e], disk := c.disk.(wal := c.disk.wal + [AppendRecord(e)]))
    requires a' == a.(log := a.log + [e], sound := |a.log| + 1)
    ensures LogRel(c', a') && DiskRel(c'.disk, a', Base(c'.log))
  {
    hide WalRel, Compacted, SnapRel;
    var b := Base(c.log);
    assert Indexed(a.log + [e]);
    CompactedAppend(a.log, b, [e]);
    WalAppended(c.disk.wal, a.log, b, [e], !a.damage.Intact?);
    assert AppendRecords([e]) == [AppendRecord(e)];
    SnapKept(c.disk.snap, a.log, a'.log, b);
  }

  lemma ProposedRel(c: Node, n: P.Node, e: LogEntry, c': Node, n': P.Node)
    requires NodeRel(c, n) && c.state == Leader && e.index == |n.log| + 1 && Ordered(e.term, n.log)
    requires c' == c.(log := c.log + [e], disk := c.disk.(wal := c.disk.wal + [AppendRecord(e)]))
    requires n' == n.(log := n.log + [e], sound := |n.log| + 1)
    ensures NodeRel(c', n')
  {
    hide DiskRel, LogRel;
    AppendedRel(c, n, e, c', n');
  }

  /** The handler takes the node where s has it, and the new entry is in the leader's log. */
  ghost predicate ProposedAs(c: Node, cmd: Command, p: NodeId, s: P.State) {
    && Numbered(c.log) && Base(c.log) <= c.commitIndex && NodeRel(Propose(c, cmd), s.At(p))
    && c.currentTerm in s.h.past.led && LastLogIndex(c.log) < |s.h.past.Led(c.currentTerm)|
    && s.h.past.Led(c.currentTerm)[LastLogIndex(c.log)] == LogEntry(c.currentTerm, LastLogIndex(c.log) + 1, cmd)
  }

  lemma SimPropose(s0: P.State, p: NodeId, c: Node, cmd: Command) returns (s: P.State)
    requires Inv(s0) && p in s0.nodes && NodeRel(c, s0.At(p)) && ConfigRel(c, p, s0.h.past.members)
    requires c.state == Leader
    ensures Ahead(s0, s, p) && p in s.nodes && ProposedAs(c, cmd, p, s)
  {
    hide Inv, Ahead, Onward, DiskRel, LeaderRel, ConfigRel, AdvanceCommit, Leads, Reaches;
    Here(s0, p);
    LeaderTerm(s0, p);
    WholeFacts(s0, p);
    s := Go(s0, s0, p, P.Propose(p, cmd));
    var e := LogEntry(c.currentTerm, LastLogIndex(c.log) + 1, cmd);
    var c' := c.(log := c.log + [e], disk := c.disk.(wal := c.disk.wal + [AppendRecord(e)]));
    ProposedRel(c, s0.nodes[p], e, c', s.nodes[p]);
    SameConfig(c, c', p, s.h.past.members);
    s := SimAdvance(s0, s, p, c');
  }

  lemma SameConfig(c: Node, c': Node, p: NodeId, members: set<NodeId>)
    requires ConfigRel(c, p, members) && c'.id == c.id && c'.peers == c.peers
    ensures ConfigRel(c', p, members)
  {
  }

  lemma LeaderTerm(s: P.State, p: NodeId)
    requires Inv(s) && p in s.nodes && s.At(p).role == Leader
    ensures s.At(p).term in s.h.past.led && s.h.past.Led(s.At(p).term) == s.At(p).log
  {
    hide HistoryOk;
    assert NodeOk(s.h, p, s.nodes[p]);
  }

  lemma AckInLog(s: P.State, p: NodeId, a: P.Ack)
    requires Inv(s) && p in s.nodes && s.At(p).role == Leader && a in AllAcks(s.h) && a.term == s.At(p).term
    ensures a.len <= |s.At(p).log|
  {
    hide NodeOk;
    LeaderTerm(s, p);
    assert AckOk(s.h.past, a);
  }

  /** The leader has counted peer's report that it matches up to i. */
  ghost function Reported(c: Node, peer: NodeId, i: nat): Node {
    c.(matchIndex := c.matchIndex[peer := i], nextIndex := c.nextIndex[peer := i + 1])
  }

  lemma MatchedRel(c: Node, n: P.Node, peer: NodeId, i: nat, c': Node, n': P.Node)
    requires NodeRel(c, n) && c.state == Leader && i <= |n.log|
    requires c' == Reported(c, peer, i)
    requires n' == n.(matched := n.matched[peer := i])
    ensures NodeRel(c', n')
  {
    hide WalRel, Compacted, SnapRel;
  }

  lemma SimMatched(s0: P.State, p: NodeId, c: Node, peer: NodeId, i: nat, c': Node) returns (s: P.State)
    requires Inv(s0) && p in s0.nodes && NodeRel(c, s0.At(p)) && c.state == Leader
    requires P.Ack(c.currentTerm, peer, i) in AllAcks(s0.h)
    requires c' == Reported(c, peer, i)
    ensures Ahead(s0, s, p) && p in s.nodes && NodeRel(c', s.At(p)) && s.h == s0.h
  {
    hide Inv, Ahead, Onward, DiskRel, LeaderRel, LogRel, Leads, Reaches;
    Here(s0, p);
    var ack := P.Ack(c.currentTerm, peer, i);
    AckInLog(s0, p, ack);
    s := Go(s0, s0, p, P.CountAck(p, ack));
    MatchedRel(c, s0.nodes[p], peer, i, c', s.nodes[p]);
  }

  lemma RelFormed(c: Node, n: P.Node, p: NodeId, members: set<NodeId>)
    requires NodeRel(c, n) && ConfigRel(c, p, members)
    ensures Formed(c)
  {
    hide DiskRel, Compacted;
  }

  /** A hint only ever lowers nextIndex, and never below 1. */
  lemma LoweredRel(c: Node, n: P.Node, peer: NodeId, i: nat)
    requires NodeRel(c, n) && c.state == Leader && peer in c.peers && 1 <= i <= c.nextIndex[peer]
    ensures NodeRel(c.(nextIndex := c.nextIndex[peer := i]), n)
  {
    hide DiskRel;
  }

  ghost predicate ReplyCounted(c: Node, peer: NodeId, a: AppendArgs, r: AppendReply, n: P.Node) {
    && Formed(c) && NodeRel(OnAppendReply(c, peer, a, r), n)
    && H.Tallies(c, peer, a, r, OnAppendReply(c, peer, a, r))
  }

  lemma SimAppendReply(s0: P.State, p: NodeId, c: Node, peer: NodeId, a: AppendArgs, r: AppendReply)
    returns (s: P.State)
    requires Inv(s0) && p in s0.nodes && NodeRel(c, s0.At(p)) && ConfigRel(c, p, s0.h.past.members)
    requires r.success ==> AckFor(a, peer) in AllAcks(s0.h)
    requires r.conflictTerm > 0 ==> r.conflictIndex >= 1
    ensures Ahead(s0, s, p) && p in s.nodes && ReplyCounted(c, peer, a, r, s.At(p))
  {
    hide Inv, Ahead, Onward, DiskRel, AdvanceCommit, LastOfTerm, ConfigRel, Leads;
    Here(s0, p);
    RelFormed(c, s0.nodes[p], p, s0.h.past.members);
    H.AppendReplyTallied(c, peer, a, r);
    s := s0;
    if r.term > c.currentTerm {
      s := SimObserve(s0, p, c, r.term);
    } else if c.state == Leader && c.currentTerm == a.term && peer in c.peers {
      var matched := a.prevLogIndex + |a.entries|;
      if r.success && matched > c.matchIndex[peer] {
        var c' := Reported(c, peer, matched);
        s := SimMatched(s0, p, c, peer, matched, c');
        SameConfig(c, c', p, s.h.past.members);
        s := SimAdvance(s0, s, p, c');
      } else if !r.success {
        var next := NextIndexAfterRejection(c.log, a.prevLogIndex, r);
        if next < c.nextIndex[peer] { LoweredRel(c, s0.nodes[p], peer, next); }
      }
    }
  }

  ghost predicate SnapshotCounted(c: Node, peer: NodeId, a: SnapshotArgs, r: SnapshotReply, n: P.Node) {
    && Formed(c) && NodeRel(OnSnapshotReply(c, peer, a, r), n)
    && H.TalliesSnapshot(c, peer, a, r, OnSnapshotReply(c, peer, a, r))
  }

  lemma SimSnapshotReply(s0: P.State, p: NodeId, c: Node, peer: NodeId, a: SnapshotArgs, r: SnapshotReply)
    returns (s: P.State)
    requires Inv(s0) && p in s0.nodes && NodeRel(c, s0.At(p)) && ConfigRel(c, p, s0.h.past.members)
    requires r.term == a.term ==> P.Ack(a.term, peer, a.snap.lastIndex) in AllAcks(s0.h)
    requires r.term >= a.term
    ensures Ahead(s0, s, p) && p in s.nodes && SnapshotCounted(c, peer, a, r, s.At(p))
  {
    hide Inv, Ahead, Onward, DiskRel, ConfigRel, Leads;
    Here(s0, p);
    RelFormed(c, s0.nodes[p], p, s0.h.past.members);
    H.SnapshotReplyTallied(c, peer, a, r);
    s := s0;
    if r.term > c.currentTerm {
      s := SimObserve(s0, p, c, r.term);
    } else if c.state == Leader && c.currentTerm == a.term && peer in c.peers && a.snap.lastIndex > c.matchIndex[peer] {
      s := SimMatched(s0, p, c, peer, a.snap.lastIndex,
                      c.(matchIndex := c.matchIndex[peer := a.snap.lastIndex],
                         nextIndex := c.nextIndex[peer := a.snap.lastIndex + 1]));
    }
  }
}
