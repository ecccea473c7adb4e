/** The leader's commit rule: the descending scan computes an order statistic. */
module CommitRule {
  import opened Types
  import opened SentinelLog
  import opened NodeState
  import opened NodeRelation
  import opened NodeSimulation
  import opened AppendSimulation
  import opened WalRecords
  import opened ClusterRelation
  import opened ClusterSimulation
  import opened ClusterProperties
  import opened ClusterGuarantees
  import P = Protocol
  import opened ProtocolInvariant
  import C = Cluster

  // ---- Ranking ---------------------------------------------------------------------------------

  ghost predicate Descending(s: seq<nat>) { forall i, j | 0 <= i < j < |s| :: s[i] >= s[j] }

  function Insert(x: nat, s: seq<nat>): (r: seq<nat>)
    requires Descending(s)
    ensures Descending(r) && multiset(r) == multiset(s) + multiset{x} && |r| == |s| + 1
    ensures r[0] == x || (s != [] && r[0] == s[0])
  {
    if s == [] || x >= s[0] then [x] + s
    else
      assert s == [s[0]] + s[1..];
      [s[0]] + Insert(x, s[1..])
  }

  /** The values from largest to smallest. */
  function Ranked(s: seq<nat>): (r: seq<nat>)
    ensures Descending(r) && multiset(r) == multiset(s) && |r| == |s|
  {
    if s == [] then []
    else
      assert s == [s[0]] + s[1..];
      Insert(s[0], Ranked(s[1..]))
  }

  function CountAtLeast(s: seq<nat>, i: nat): nat {
    if s == [] then 0 else (if s[0] >= i then 1 else 0) + CountAtLeast(s[1..], i)
  }

  lemma {:induction false} InsertCounts(x: nat, s: seq<nat>, i: nat)
    requires Descending(s)
    ensures CountAtLeast(Insert(x, s), i) == CountAtLeast(s, i) + if x >= i then 1 else 0
  {
    if s != [] && x < s[0] {
      InsertCounts(x, s[1..], i);
      assert ([s[0]] + Insert(x, s[1..]))[1..] == Insert(x, s[1..]);
    } else {
      assert ([x] + s)[1..] == s;
    }
  }

  lemma {:induction false} RankedCounts(s: seq<nat>, i: nat)
    ensures CountAtLeast(Ranked(s), i) == CountAtLeast(s, i)
  {
    if s != [] {
      RankedCounts(s[1..], i);
      InsertCounts(s[0], Ranked(s[1..]), i);
    }
  }

  lemma {:induction false} NoneAtLeast(s: seq<nat>, i: nat)
    requires forall j | 0 <= j < |s| :: s[j] < i
    ensures CountAtLeast(s, i) == 0
  {
    if s != [] { NoneAtLeast(s[1..], i); }
  }

  /** At least q values reach i exactly when the q-th largest does. */
  lemma {:induction false} OrderStatistic(s: seq<nat>, q: nat, i: nat)
    requires Descending(s) && 1 <= q <= |s|
    ensures s[q - 1] >= i <==> CountAtLeast(s, i) >= q
  {
    if s[0] < i {
      NoneAtLeast(s, i);
    } else if q > 1 {
      OrderStatistic(s[1..], q - 1, i);
    }
  }

  // ---- The rule --------------------------------------------------------------------------------

  /** What every member is known to hold: the leader's last index, and matchIndex for each peer. */
  function Reports(last: nat, peers: seq<NodeId>, matched: map<NodeId, nat>): (r: seq<nat>)
    requires forall q | q in peers :: q in matched
    ensures |r| == |peers| + 1
  {
    if peers == [] then [last]
    else
      var k := |peers| - 1;
      [matched[peers[k]]] + Reports(last, peers[..k], matched)
  }

  lemma {:induction false} ReportsCounted(last: nat, peers: seq<NodeId>, matched: map<NodeId, nat>, i: nat)
    requires (forall q | q in peers :: q in matched) && i <= last
    ensures CountAtLeast(Reports(last, peers, matched), i) == 1 + CountMatching(peers, matched, i)
  {
    if peers == [] {
      assert Reports(last, peers, matched)[1..] == [];
    } else {
      var k := |peers| - 1;
      ReportsCounted(last, peers[..k], matched, i);
      assert Reports(last, peers, matched)[1..] == Reports(last, peers[..k], matched);
    }
  }

  /** The index that a quorum holds: the quorum-th largest report. */
  function QuorumIndex(last: nat, peers: seq<NodeId>, matched: map<NodeId, nat>): nat
    requires forall q | q in peers :: q in matched
  {
    Ranked(Reports(last, peers, matched))[QuorumSize(peers) - 1]
  }

  lemma QuorumIndexCounts(last: nat, peers: seq<NodeId>, matched: map<NodeId, nat>, i: nat)
    requires (forall q | q in peers :: q in matched) && i <= last
    ensures i <= QuorumIndex(last, peers, matched) <==> 1 + CountMatching(peers, matched, i) >= QuorumSize(peers)
  {
    hide Ranked, Reports, CountAtLeast, CountMatching, Descending;
    var r := Reports(last, peers, matched);
    RankedCounts(r, i);
    ReportsCounted(last, peers, matched, i);
    OrderStatistic(Ranked(r), QuorumSize(peers), i);
  }

  /** A leader whose retained entries are ordered by term, none above its own, and whose peers are not
      known to hold more than it does. */
  ghost predicate Orderly(n: Node) {
    && Numbered(n.log) && Base(n.log) <= n.commitIndex <= LastLogIndex(n.log)
    && (forall i, j | Base(n.log) <= i <= j <= LastLogIndex(n.log) ::
      TermOf(n.log, i) <= TermOf(n.log, j) <= n.currentTerm)
    && (forall q | q in n.peers :: q in n.matchIndex && n.matchIndex[q] <= LastLogIndex(n.log))
  }

  lemma {:induction false} ScanFrom(n: Node, i: nat)
    requires Orderly(n) && n.commitIndex <= i <= LastLogIndex(n.log)
    requires var k := QuorumIndex(LastLogIndex(n.log), n.peers, n.matchIndex); k <= i
    ensures var k := QuorumIndex(LastLogIndex(n.log), n.peers, n.matchIndex);
      CommitScan(n, i) == if k > n.commitIndex && TermOf(n.log, k) == n.currentTerm then k else n.commitIndex
  {
    hide QuorumIndex, CountMatching, TermOf;
    QuorumIndexCounts(LastLogIndex(n.log), n.peers, n.matchIndex, i);
    var k := QuorumIndex(LastLogIndex(n.log), n.peers, n.matchIndex);
    if i > n.commitIndex && TermOf(n.log, i) == n.currentTerm && k < i { ScanFrom(n, i - 1); }
  }

  lemma QuorumIndexBounded(last: nat, peers: seq<NodeId>, matched: map<NodeId, nat>)
    requires forall q | q in peers :: q in matched && matched[q] <= last
    ensures QuorumIndex(last, peers, matched) <= last
  {
    hide Ranked, Reports, CountAtLeast, Descending;
    var r := Reports(last, peers, matched);
    ReportsBounded(last, peers, matched);
    NoneAtLeast(r, last + 1);
    RankedCounts(r, last + 1);
    OrderStatistic(Ranked(r), QuorumSize(peers), last + 1);
  }

  lemma {:induction false} ReportsBounded(last: nat, peers: seq<NodeId>, matched: map<NodeId, nat>)
    requires forall q | q in peers :: q in matched && matched[q] <= last
    ensures forall j | 0 <= j < |peers| + 1 :: Reports(last, peers, matched)[j] <= last
  {
    if peers != [] { ReportsBounded(last, peers[..|peers| - 1], matched); }
  }

  /** advanceCommitIndexLocked commits exactly the quorum-th largest of the leader's last index and all
      matchIndex values, if that is beyond the commit index and an entry of the current term. */
  lemma CommitIsQuorumth(n: Node)
    requires Orderly(n)
    ensures var k := QuorumIndex(LastLogIndex(n.log), n.peers, n.matchIndex);
      && k <= LastLogIndex(n.log)
      && CommitScan(n, LastLogIndex(n.log)) ==
        if k > n.commitIndex && TermOf(n.log, k) == n.currentTerm then k else n.commitIndex
  {
    QuorumIndexBounded(LastLogIndex(n.log), n.peers, n.matchIndex);
    ScanFrom(n, LastLogIndex(n.log));
  }

  /** Every leader of every reachable state is orderly, so the rule is what it commits by. */
  lemma LeadersAreOrderly(c: C.State, p: NodeId)
    requires Reachable(c) && p in c.hosts && c.At(p).node.state == Leader
    ensures Orderly(c.At(p).node)
  {
    hide Reachable, ClusterRel, Inv, DiskRel, ElectionRel, Compacted;
    var s := ReachableRel(c);
    HostFacts(c, s, p);
    TermsOrdered(c, p, LastLogIndex(c.hosts[p].node.log));
  }

  /** The commit index after a step of the leader that leaves it with these entries and reports. */
  ghost predicate CommitsByRule(n: Node, n': Node) {
    && Numbered(n'.log) && (forall q | q in n'.peers :: q in n'.matchIndex)
    && var k := QuorumIndex(LastLogIndex(n'.log), n'.peers, n'.matchIndex);
    && Base(n'.log) <= n.commitIndex && k <= LastLogIndex(n'.log)
    && n'.commitIndex == if k > n.commitIndex && TermOf(n'.log, k) == n'.currentTerm then k else n.commitIndex
  }

  lemma AdvancesByRule(n: Node)
    requires Orderly(n) && n.state == Leader
    ensures CommitsByRule(n, AdvanceCommit(n))
  {
    hide CommitScan, QuorumIndex;
    CommitIsQuorumth(n);
  }

  /** A success reply to the leader of its term that raises a matchIndex, under way. */
  ghost predicate Raises(c: C.State, k: C.Packet) {
    && k in c.net && k.AppendRepPacket? && k.to in c.hosts && k.appendReply.success
    && var n := c.At(k.to).node;
    && n.state == Leader && n.currentTerm == k.append.term && k.appendReply.term <= n.currentTerm && k.from in n.peers
    && k.from in n.matchIndex && k.append.prevLogIndex + |k.append.entries| > n.matchIndex[k.from]
  }

  /** The report is counted, and the leader commits by the rule. */
  ghost predicate CountsAndCommits(n: Node, k: C.Packet) {
    && Formed(n) && k.AppendRepPacket?
    && var n' := OnAppendReply(n, k.from, k.append, k.appendReply);
    && n'.matchIndex == n.matchIndex[k.from := k.append.prevLogIndex + |k.append.entries|] && n'.log == n.log
    && CommitsByRule(n, n')
  }

  /** Handling a success reply that raises a matchIndex commits by the rule, with the report of that
      reply already counted. */
  lemma ReplyCommitsByRule(c: C.State, k: C.Packet)
    requires Reachable(c) && Raises(c, k)
    ensures CountsAndCommits(c.At(k.to).node, k)
  {
    hide Reachable, ClusterRel, Inv, DiskRel, ElectionRel, Compacted, CommitScan, CommitsByRule, AppendMatch, Leads,
         C.Run;
    var s := ReachableRel(c);
    var p, n, i := k.to, c.hosts[k.to].node, k.append.prevLogIndex + |k.append.entries|;
    HostFacts(c, s, p);
    RelFormed(n, s.nodes[p], p, s.h.past.members);
    assert PacketRel(k, s.h) by { PacketOnRecord(c, s, k); }
    AckInLog(s, p, P.Ack(k.append.term, k.from, i));
    LeadersAreOrderly(c, p);
    AdvancesByRule(n.(matchIndex := n.matchIndex[k.from := i], nextIndex := n.nextIndex[k.from := i + 1]));
    SameCommit(n, n.(matchIndex := n.matchIndex[k.from := i], nextIndex := n.nextIndex[k.from := i + 1]));
  }

  lemma PacketOnRecord(c: C.State, s: P.State, k: C.Packet)
    requires ClusterRel(c, s) && k in c.net
    ensures PacketRel(k, s.h)
  {
    hide Inv, HostRel, RecordRel;
  }

  lemma SameCommit(n: Node, m: Node)
    requires n.commitIndex == m.commitIndex && Numbered(m.log) && Base(m.log) <= m.commitIndex
    ensures CommitsByRule(m, AdvanceCommit(m)) ==> CommitsByRule(n, AdvanceCommit(m))
  {
    hide CommitScan, QuorumIndex;
  }

  ghost predicate AppendsAndCommits(n: Node, cmd: Command) {
    && Formed(n) && Propose(n, cmd).log == n.log + [LogEntry(n.currentTerm, LastLogIndex(n.log) + 1, cmd)]
    && CommitsByRule(n, Propose(n, cmd))
  }

  /** So does a proposal, with the new entry already in the log. */
  lemma ProposalCommitsByRule(c: C.State, p: NodeId, cmd: Command)
    requires Reachable(c) && p in c.hosts && c.At(p).node.state == Leader
    ensures AppendsAndCommits(c.At(p).node, cmd)
  {
    hide Reachable, ClusterRel, Inv, DiskRel, ElectionRel, Compacted, CommitScan, CommitsByRule, Leads;
    var s := ReachableRel(c);
    var n := c.hosts[p].node;
    HostFacts(c, s, p);
    RelFormed(n, s.nodes[p], p, s.h.past.members);
    LeadersAreOrderly(c, p);
    var e := LogEntry(n.currentTerm, LastLogIndex(n.log) + 1, cmd);
    var m := n.(log := n.log + [e], disk := n.disk.(wal := n.disk.wal + [AppendRecord(e)]));
    LongerIsOrderly(n, m, e);
    AdvancesByRule(m);
    SameCommit(n, m);
  }

  lemma LongerIsOrderly(n: Node, m: Node, e: LogEntry)
    requires Orderly(n) && e.term == n.currentTerm && e.index == LastLogIndex(n.log) + 1
    requires m == n.(log := n.log + [e], disk := m.disk)
    ensures Orderly(m)
  {
    var last := LastLogIndex(n.log);
    assert forall i | Base(n.log) <= i <= last :: TermOf(m.log, i) == TermOf(n.log, i) <= n.currentTerm;
    assert TermOf(m.log, last + 1) == n.currentTerm;
    forall i, j | Base(m.log) <= i <= j <= LastLogIndex(m.log)
      ensures TermOf(m.log, i) <= TermOf(m.log, j) <= m.currentTerm
    {
      if j <= last { assert TermOf(n.log, i) <= TermOf(n.log, j); }
    }
  }
}
