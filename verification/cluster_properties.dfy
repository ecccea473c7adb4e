/** The properties a reader of the code is promised, stated on the running system itself. */
module ClusterProperties {
  import opened Types
  import opened Logs
  import opened SentinelLog
  import opened WalRecords
  import opened NodeState
  import opened NodeRelation
  import opened AppendSimulation
  import opened Recovery
  import opened ClusterRelation
  import opened ClusterSimulation
  import opened ClusterSafety
  import P = Protocol
  import opened ProtocolInvariant
  import opened ProtocolSteps
  import PS = ProtocolSafety
  import C = Cluster

  // ---- The logs behind the hosts ---------------------------------------------------------------

  /** Memory, snapshot and write-ahead log of the host all hold exactly this log: memory from the
      boundary on, the snapshot its fold up to the boundary, the write-ahead log the rest. If a crash
      hit an install on this host, its write-ahead log may have become unreadable. */
  ghost predicate Stores(h: C.Host, full: Log) {
    var n := h.node;
    && Indexed(full) && Numbered(n.log) && Base(n.log) <= n.commitIndex <= |full|
    && n.log == Compacted(full, Base(n.log))
    && SnapRel(n.disk.snap, full, Base(n.log)) && WalRel(n.disk.wal, full, Base(n.log), !h.damage.Intact?)
  }

  /** The log behind a host, and how far it descends from the leaders' logs. */
  datatype Whole = Whole(log: Log, sound: nat)

  ghost function LogsAt(s: P.State): map<NodeId, Whole> {
    map p | p in s.nodes :: Whole(s.nodes[p].log, s.nodes[p].sound)
  }

  /** The log behind host p at moment i. */
  ghost function LogAt(logs: seq<map<NodeId, Whole>>, i: nat, p: NodeId): Whole {
    if i < |logs| && p in logs[i] then logs[i][p] else Whole([], 0)
  }

  /** Everything committed is sound, and everything is unless overruled entries are back. */
  ghost predicate SoundFor(h: C.Host, x: Whole) {
    h.node.commitIndex <= x.sound && x.sound <= |x.log| && (!h.damage.Tainted? ==> x.sound == |x.log|)
  }

  /** The uncompacted logs behind all hosts at all moments of a run, one choice for the whole run. */
  ghost predicate LogsBehind(b: seq<C.State>, logs: seq<map<NodeId, Whole>>) {
    |logs| == |b| && exists ss :: Tracks(b, ss) && Shows(logs, ss)
  }

  ghost predicate Shows(logs: seq<map<NodeId, Whole>>, ss: seq<P.State>) {
    |ss| == |logs| > 0 && forall i | 0 <= i < |ss| :: logs[i] == LogsAt(ss[i])
  }

  /** Every run has such logs. */
  lemma RunLogs(b: seq<C.State>) returns (logs: seq<map<NodeId, Whole>>)
    requires C.Run(b)
    ensures LogsBehind(b, logs)
  {
    hide C.Run, Tracks, Leads;
    var ss := RunTracked(b);
    TracksLength(b, ss);
    logs := seq(|b|, i requires 0 <= i < |b| => LogsAt(ss[i]));
    assert Shows(logs, ss);
  }

  lemma Tracking(b: seq<C.State>, logs: seq<map<NodeId, Whole>>) returns (ss: seq<P.State>)
    requires LogsBehind(b, logs)
    ensures Tracks(b, ss) && |ss| == |b| && Shows(logs, ss)
  {
    hide Tracks, Shows, Leads;
    ss :| Tracks(b, ss) && Shows(logs, ss);
    TracksLength(b, ss);
  }

  /** They are what each host stores, in memory and on disk. */
  lemma HostStores(b: seq<C.State>, logs: seq<map<NodeId, Whole>>, i: nat, p: NodeId)
    requires LogsBehind(b, logs) && Hosted(b, i, p)
    ensures Stores(HostAt(b, i, p), LogAt(logs, i, p).log) && SoundFor(HostAt(b, i, p), LogAt(logs, i, p))
  {
    hide LogsBehind, Tracks, ClusterRel, Inv, NodeRel, LogRel, Stores, NodeOk, HistoryOk, PastOk, Rooted, Leads;
    var ss := Tracking(b, logs);
    HostTracked(b, ss, i, p);
    NodeFacts(ss[i], p);
    RelLog(b[i].hosts[p].node, ss[i].nodes[p]);
    StoresOf(b[i].hosts[p], ss[i].nodes[p]);
  }

  lemma StoresOf(h: C.Host, n: P.Node)
    requires NodeRel(h.node, n) && h.damage == n.damage
    ensures Stores(h, n.log)
  {
    hide WalRel, SnapRel, LeaderRel, ElectionRel, Compacted;
  }

  lemma RelLog(c: Node, n: P.Node)
    requires NodeRel(c, n)
    ensures LogRel(c, n) && c.currentTerm == n.term && c.state == n.role && c.commitIndex == n.commit
    ensures c.votedFor == n.vote
    ensures c.disk.hard == HardState(n.term, n.vote)
    ensures Numbered(c.log) && Base(c.log) <= c.commitIndex <= LastLogIndex(c.log)
  {
  }

  /** The relation at one moment of a tracked run. */
  lemma HostTracked(b: seq<C.State>, ss: seq<P.State>, i: nat, p: NodeId)
    requires Tracks(b, ss) && Hosted(b, i, p)
    ensures ClusterRel(Now(b, i), PS.Then(ss, i)) && p in PS.Then(ss, i).nodes && Inv(PS.Then(ss, i))
    ensures NodeRel(HostAt(b, i, p).node, PS.Then(ss, i).At(p)) && HostAt(b, i, p).damage == PS.Then(ss, i).At(p).damage
  {
    hide ClusterRel, Inv, Reaches, Extends, P.Init, HostRel, NodeRel, ConfigRel, ApplierRel, RequestsRel, Leads;
    HostFacts(b[i], ss[i], p);
  }

  // ---- Figure 3 of the paper, on compacted logs ------------------------------------------------

  /** Election Safety: at any two moments of a run, two leaders of one term are the same node. */
  lemma ElectionSafety(b: seq<C.State>, i: nat, j: nat, p: NodeId, q: NodeId)
    requires C.Run(b) && i <= j && Hosted(b, i, p) && Hosted(b, j, q)
    requires HostAt(b, i, p).node.state == Leader && HostAt(b, j, q).node.state == Leader
    requires HostAt(b, i, p).node.currentTerm == HostAt(b, j, q).node.currentTerm
    ensures p == q
  {
    hide C.Run, Tracks, ClusterRel, Inv, NodeRel, LogRel, Leads;
    var ss := RunTracked(b);
    TracksLength(b, ss);
    HostTracked(b, ss, i, p);
    HostTracked(b, ss, j, q);
    RelLog(b[i].hosts[p].node, ss[i].nodes[p]);
    RelLog(b[j].hosts[q].node, ss[j].nodes[q]);
    TrackExtends(b, ss, i, j);
    PS.LeaderAt(ss[i], p);
    PS.LeaderAt(ss[j], q);
  }

  lemma TracksLength(b: seq<C.State>, ss: seq<P.State>)
    requires Tracks(b, ss)
    ensures |ss| == |b| > 0
  {
    hide Leads, ClusterRel;
  }

  /** Leader Append-Only: while it leads, a node neither drops nor rewrites entries. */
  lemma LeaderAppendOnly(b: seq<C.State>, logs: seq<map<NodeId, Whole>>, i: nat, j: nat, p: NodeId)
    requires LogsBehind(b, logs) && i <= j && Hosted(b, i, p) && Hosted(b, j, p)
    requires HostAt(b, i, p).node.state == Leader && HostAt(b, j, p).node.state == Leader
    requires HostAt(b, i, p).node.currentTerm == HostAt(b, j, p).node.currentTerm
    ensures LogAt(logs, i, p).log <= LogAt(logs, j, p).log
  {
    hide LogsBehind, Tracks, ClusterRel, Inv, NodeRel, LogRel, Leads;
    var ss := Tracking(b, logs);
    HostTracked(b, ss, i, p);
    HostTracked(b, ss, j, p);
    RelLog(b[i].hosts[p].node, ss[i].nodes[p]);
    RelLog(b[j].hosts[p].node, ss[j].nodes[p]);
    TrackExtends(b, ss, i, j);
    PS.LeaderAt(ss[i], p);
    PS.LeaderAt(ss[j], p);
  }

  /** Log Matching, across nodes, time and compaction boundaries: two logs with the same term at an
      index, compacted there or not, hold the same entries up to it. Only in a tail of overruled entries
      that a crash in the middle of an install has brought back, and that is still there, it can fail. */
  lemma LogMatchingOnHosts(b: seq<C.State>, logs: seq<map<NodeId, Whole>>, i: nat, j: nat, p: NodeId, q: NodeId, k: nat)
    requires LogsBehind(b, logs) && i <= j && Hosted(b, i, p) && Hosted(b, j, q)
    requires SameTerm(LogAt(logs, i, p).log, LogAt(logs, j, q).log, k)
    requires k <= LogAt(logs, i, p).sound && k <= LogAt(logs, j, q).sound
    ensures Agree(LogAt(logs, i, p).log, LogAt(logs, j, q).log, k)
  {
    hide LogsBehind, Tracks, ClusterRel, Inv, NodeRel, NodeOk, HistoryOk, PastOk, Rooted, Leads;
    var ss := Tracking(b, logs);
    HostTracked(b, ss, i, p);
    HostTracked(b, ss, j, q);
    TrackExtends(b, ss, i, j);
    NodeFacts(ss[i], p);
    NodeFacts(ss[j], q);
    var x, y := ss[i].nodes[p], ss[j].nodes[q];
    RootedForGood(ss[i].h.past.led, ss[j].h.past.led, x.log[..x.sound]);
    LogMatching(ss[j].h.past.led, x.log[..x.sound], y.log[..y.sound], k);
  }

  /** State Machine Safety on the logs: entries committed anywhere, at any time, never differ. In
      particular no step ever changes or drops an entry at or below a commit index. */
  lemma CommittedEntriesAgree(b: seq<C.State>, logs: seq<map<NodeId, Whole>>, i: nat, j: nat,
                              p: NodeId, q: NodeId, k: nat)
    requires LogsBehind(b, logs) && i <= j && Hosted(b, i, p) && Hosted(b, j, q)
    requires k <= HostAt(b, i, p).node.commitIndex && k <= HostAt(b, j, q).node.commitIndex
    ensures Agree(LogAt(logs, i, p).log, LogAt(logs, j, q).log, k)
  {
    hide LogsBehind, Tracks, ClusterRel, Inv, NodeRel, LogRel, NodeOk, HistoryOk, PastOk, Ordered, LogOk, Covered,
         Leads;
    var ss := Tracking(b, logs);
    HostTracked(b, ss, i, p);
    HostTracked(b, ss, j, q);
    var m, n := ss[i].nodes[p], ss[j].nodes[q];
    RelLog(b[i].hosts[p].node, m);
    RelLog(b[j].hosts[q].node, n);
    TrackExtends(b, ss, i, j);
    NodeFacts(ss[i], p);
    NodeFacts(ss[j], q);
    NodeCovered(ss[i].h, p, m);
    NodeCovered(ss[j].h, q, n);
    CoveredForGood(ss[i].h.past, ss[j].h.past, m.log, m.commit, m.term);
    PS.CoveredAgree(ss[j].h.past, m.log, m.commit, m.term, n.log, n.commit, n.term, k);
  }

  // ---- One state at a time ---------------------------------------------------------------------

  ghost predicate Reachable(c: C.State) { exists b :: C.Run(b) && C.Last(b) == c }

  lemma {:induction false} PathInForce(path: seq<P.State>, i: nat)
    requires Path(path) && i < |path| && Inv(PS.Then(path, 0)) && PS.AcksInForce(PS.Then(path, 0))
    ensures Inv(PS.Then(path, i)) && PS.AcksInForce(PS.Then(path, i))
    decreases i
  {
    hide Inv, PS.AcksInForce, P.Enabled, P.NodeAfter, P.HistoryAfter;
    if i > 0 {
      PathInForce(path, i - 1);
      assert P.Next(path[i - 1], path[i - 1 + 1]);
      var e :| P.Enabled(path[i - 1], e) && P.Do(path[i - 1], e) == path[i];
      PS.AcksStayInForce(path[i - 1], e);
      EventKept(path[i - 1], e);
    }
  }

  lemma ReachesInForce(s: P.State, s': P.State)
    requires Reaches(s, s') && Inv(s) && PS.AcksInForce(s)
    ensures PS.AcksInForce(s')
  {
    hide Inv, PS.AcksInForce, P.Next;
    var path :| Path(path) && path[0] == s && path[|path| - 1] == s';
    PathInForce(path, |path| - 1);
  }

  lemma {:induction false} TrackInForce(b: seq<C.State>, ss: seq<P.State>, i: nat)
    requires Tracks(b, ss) && i < |b|
    ensures PS.AcksInForce(PS.Then(ss, i))
    decreases i
  {
    hide HostRel, PacketRel, RecordRel, Inv, PS.InForce, Reaches, Extends, FreshAcks, FreshVotes;
    if i > 0 {
      TrackInForce(b, ss, i - 1);
      assert ClusterRel(b[i - 1], ss[i - 1]);
      assert Leads(ss[i - 1], ss[i - 1 + 1]);
      ReachesInForce(ss[i - 1], ss[i]);
    }
  }

  lemma ReachableInForce(c: C.State) returns (s: P.State)
    requires Reachable(c)
    ensures ClusterRel(c, s) && PS.AcksInForce(s)
  {
    hide C.Next, C.Init, ClusterRel, Leads, P.Init, PS.AcksInForce;
    var b :| C.Run(b) && C.Last(b) == c;
    var ss := RunTracked(b);
    s := ss[|b| - 1];
    TrackInForce(b, ss, |b| - 1);
  }

  lemma ReachableRel(c: C.State) returns (s: P.State)
    requires Reachable(c)
    ensures ClusterRel(c, s)
  {
    hide C.Next, C.Init, ClusterRel, Reaches, Extends, P.Init;
    var b :| C.Run(b) && C.Last(b) == c;
    var ss := RunTracked(b);
    s := ss[|b| - 1];
  }

  /** Log Matching with a leader holds on every host, whatever crashes it went through: where a host has
      the term of a leader of its own or a later term, it has that leader's entries up to there. */
  lemma MatchesLeader(c: C.State, p: NodeId, q: NodeId) returns (x: Log, y: Log)
    requires Reachable(c) && p in c.hosts && q in c.hosts && c.At(p).node.state == Leader
    requires c.At(p).node.currentTerm >= c.At(q).node.currentTerm
    ensures Stores(c.At(p), x) && Stores(c.At(q), y)
    ensures Matches(y, x)
  {
    hide Reachable, ClusterRel, Inv, NodeRel, LogRel, Stores, Matches, Tracks;
    var s := ReachableRel(c);
    HostFacts(c, s, p);
    HostFacts(c, s, q);
    x, y := s.nodes[p].log, s.nodes[q].log;
    StoresOf(c.hosts[p], s.nodes[p]);
    StoresOf(c.hosts[q], s.nodes[q]);
    RelLog(c.hosts[p].node, s.nodes[p]);
    RelLog(c.hosts[q].node, s.nodes[q]);
    PS.LeaderAt(s, p);
    LeaderMatches(s, q, x, s.nodes[p].term);
  }

  /** The moment of a vote: the voter's term and vote were those of it. */
  lemma {:induction false} VoteMoment(b: seq<C.State>, ss: seq<P.State>, j: nat, v: P.Vote) returns (i: nat)
    requires Tracks(b, ss) && j < |b| && v in PS.Then(ss, j).h.votes
    ensures i <= j && v.voter in PS.Then(ss, i).nodes
    ensures PS.Then(ss, i).At(v.voter).term == v.term && PS.Then(ss, i).At(v.voter).vote == Some(v.candidate)
    decreases j
  {
    hide ClusterRel, Reaches, Extends, FreshAcks;
    i := j;
    if j > 0 {
      assert Leads(ss[j - 1], ss[j - 1 + 1]);
      if v in ss[j - 1].h.votes { i := VoteMoment(b, ss, j - 1, v); }
    }
  }

  /** The host had stored its vote for p in term t at some moment up to j. */
  ghost predicate HadVoted(b: seq<C.State>, j: nat, v: NodeId, t: nat, p: NodeId) {
    exists i: nat :: i <= j && i < |b| && v in b[i].hosts && b[i].hosts[v].node.disk.hard == HardState(t, Some(p))
  }

  lemma VoteIsDurable(b: seq<C.State>, ss: seq<P.State>, j: nat, v: P.Vote)
    requires Tracks(b, ss) && j < |b| && v in PS.Then(ss, j).h.votes
    ensures HadVoted(b, j, v.voter, v.term, v.candidate)
  {
    hide ClusterRel, Leads, Inv, NodeRel, P.Init, Reaches;
    var i := VoteMoment(b, ss, j, v);
    assert ClusterRel(b[i], ss[i]);
    Members(b[i], ss[i]);
    HostTracked(b, ss, i, v.voter);
    RelLog(b[i].hosts[v.voter].node, ss[i].nodes[v.voter]);
  }

  /** The vote counter of a candidate is one plus the number of distinct peers whose vote it has
      received, and each of them had durably voted for this candidate in this very term. */
  lemma VoteCounter(b: seq<C.State>, j: nat, p: NodeId) returns (voters: set<NodeId>)
    requires C.Run(b) && Hosted(b, j, p) && HostAt(b, j, p).node.state == Candidate
    ensures var n := HostAt(b, j, p).node;
      && n.votes == 1 + |voters| && n.disk.hard == HardState(n.currentTerm, Some(p)) && voters <= PeerSet(n.peers)
      && forall v | v in voters :: HadVoted(b, j, v, n.currentTerm, p)
  {
    hide C.Run, Tracks, ClusterRel, Inv, LogRel, HistoryOk, PastOk, Covered, AcksHeld, LeaderOk, LogOk, WalRel, SnapRel,
         LeaderRel, HostRel, ApplierRel, RequestsRel, HadVoted, Leads;
    var ss := RunTracked(b);
    TracksLength(b, ss);
    HostTracked(b, ss, j, p);
    HostFacts(b[j], ss[j], p);
    NodeFacts(ss[j], p);
    var a := ss[j].nodes[p];
    voters := a.granted - {p};
    assert P.Vote(a.term, p, p) in ss[j].h.votes;
    assert a.granted == voters + {p};
    forall v | v in voters ensures HadVoted(b, j, v, a.term, p) {
      VoteIsDurable(b, ss, j, P.Vote(a.term, v, p));
    }
  }

  lemma Members(c: C.State, s: P.State)
    requires ClusterRel(c, s)
    ensures c.hosts.Keys == s.nodes.Keys == s.h.past.members
  {
    hide HistoryOk, NodeOk, HostRel, RecordRel;
  }

  /** The leader's books on q: its indices are inside its log x, and if q's disk is still in the leader's
      term, q's log y agrees with x up to matchIndex. */
  ghost predicate InBooks(n: Node, q: NodeId, term: nat, x: Log, y: Log) {
    && q in n.nextIndex && q in n.matchIndex && 1 <= n.nextIndex[q] <= |x| + 1 && n.matchIndex[q] <= |x|
    && (n.matchIndex[q] > 0 ==> term >= n.currentTerm)
    && (n.matchIndex[q] > 0 && term == n.currentTerm ==> Agree(x, y, n.matchIndex[q]))
  }

  /** Replication bookkeeping: indices stay inside the log, and a peer still in the leader's term
      stores the leader's log up to its matchIndex. */
  lemma Bookkeeping(c: C.State, p: NodeId, q: NodeId) returns (x: Log, y: Log)
    requires Reachable(c) && p in c.hosts && c.At(p).node.state == Leader && q in c.At(p).node.peers
    ensures q in c.hosts && Stores(c.At(p), x) && Stores(c.At(q), y)
    ensures InBooks(c.At(p).node, q, c.At(q).node.disk.hard.term, x, y)
  {
    hide Reachable, ClusterRel, Inv, HistoryOk, PastOk, Stores, WalRel, SnapRel, Compacted, PS.InForce, Tracks, NodeOk;
    var s := ReachableInForce(c);
    HostFacts(c, s, p);
    NodeFacts(s, p);
    var n, a := c.hosts[p].node, s.nodes[p];
    PeerIsMember(c, s, p, q);
    HostFacts(c, s, q);
    x, y := a.log, s.nodes[q].log;
    StoresOf(c.hosts[p], a);
    StoresOf(c.hosts[q], s.nodes[q]);
    if n.matchIndex[q] > 0 { HeldInForce(s, p, q); }
  }

  ghost predicate HeldBy(n: P.Node, q: NodeId, m: P.Node) {
    q in n.matched ==> m.term >= n.term && (m.term == n.term ==> Agree(n.log, m.log, n.matched[q]))
  }

  lemma HeldInForce(s: P.State, p: NodeId, q: NodeId)
    requires Inv(s) && PS.AcksInForce(s) && p in s.nodes && q in s.nodes && s.At(p).role == Leader
    ensures HeldBy(s.At(p), q, s.At(q))
  {
    hide HistoryOk, PastOk, Covered, AcksHeld, Stale, LogOk;
    var n := s.nodes[p];
    assert NodeOk(s.h, p, n);
    if q in n.matched { assert PS.InForce(s, P.Ack(n.term, q, n.matched[q])); }
  }

  lemma PeerIsMember(c: C.State, s: P.State, p: NodeId, q: NodeId)
    requires ClusterRel(c, s) && p in c.hosts && q in c.At(p).node.peers
    ensures q in c.hosts && q in s.nodes
  {
    hide ClusterRel, Inv, NodeRel, HostRel, ApplierRel, RequestsRel, Tracks;
    HostFacts(c, s, p);
    Members(c, s);
  }

  /** What a restart makes of the host's disk. */
  ghost predicate Rebuilds(h: C.Host) {
    var n, r := h.node, C.RecoverFrom(h, h.node.disk);
    && (r.Some? <==> Replay(n.disk.wal).Some?) && (h.damage.Intact? ==> r.Some?)
    && (r.Some? && |n.log| >= 1 ==>
      && r.value.log == n.log && r.value.currentTerm == n.currentTerm && r.value.votedFor == n.votedFor
      && r.value.commitIndex == r.value.lastApplied == Base(n.log))
  }

  /** What is on disk is what is in memory: recovering at any moment rebuilds the same term, vote and
      log, with everything above the snapshot uncommitted again. It succeeds exactly when the write-ahead
      log can be replayed, which it always can unless a crash hit an install on this host. */
  lemma DiskIsMemory(c: C.State, p: NodeId)
    requires Reachable(c) && p in c.hosts
    ensures Numbered(c.At(p).node.log) && Rebuilds(c.At(p))
  {
    hide ClusterRel, Inv, WalRel, SnapRel, Beyond, Replay, Reachable;
    var s := ReachableRel(c);
    HostFacts(c, s, p);
    var n := c.hosts[p].node;
    if Replay(n.disk.wal).Some? {
      RecoverRel(n.disk, s.nodes[p], Base(n.log), n.id, n.peers, n.threshold);
    } else {
      OnlyTornRefused(n.disk, s.nodes[p], Base(n.log));
    }
  }

  /** Only a crash in the middle of an install can keep a host from coming back. */
  lemma OnlyTornHostsStayDown(c: C.State, p: NodeId)
    requires Reachable(c) && p in c.hosts && !c.At(p).up
    ensures !c.At(p).damage.Intact?
  {
    hide Reachable, Inv, NodeRel, ConfigRel, ApplierRel, RequestsRel, PacketRel, RecordRel;
    var s := ReachableRel(c);
    assert HostRel(c.hosts[p], p, s.nodes[p], s.h.past);
  }

  ghost predicate InRange(h: C.Host) {
    && Numbered(h.node.log) && h.node.lastApplied <= h.node.commitIndex <= LastLogIndex(h.node.log)
    && (h.applier.Idle? && h.node.pending.None? ==> Base(h.node.log) <= h.node.lastApplied)
  }

  /** The applier never reaches outside the log: when it looks for work, the next entry is there. */
  lemma ApplierInRange(c: C.State, p: NodeId)
    requires Reachable(c) && p in c.hosts
    ensures InRange(c.At(p))
  {
    hide ClusterRel, Inv, DiskRel, Reachable;
    var s := ReachableRel(c);
    HostFacts(c, s, p);
  }
}
