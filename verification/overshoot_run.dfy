/**
 Two runs of three nodes in which a rejection sends the leader below the part on which the two logs agree.
 A leads and commits one entry with B and C, and keeps two more to itself. B wins the next term, commits
 another second entry with C, and compacts. If B now crashes and wins again, it asks A about an entry that
 it has compacted. If instead B puts a third entry on C and sends A its snapshot, and A crashes between the
 two writes of the install, A comes back with an entry that is older than the snapshot; and when C wins, the
 hint of A sends it below the snapshot although it has compacted nothing.
 */
module OvershootRun {
  import opened Types
  import opened SentinelLog
  import opened WalRecords
  import opened NodeState
  import opened Cluster
  import opened InstallWindow
  import opened Scenario
  import opened OverrunRun
  import K = ClusterProperties
  import D = Backtracking
  import H = BacktrackingOnHosts

  const X2 := LogEntry(1, 2, Put("x", "2"))
  const X3 := LogEntry(1, 3, Put("x", "3"))
  const Y2 := LogEntry(2, 2, Delete("k"))
  const Y3 := LogEntry(2, 3, Put("y", "3"))

  /** A member in term t with this log and commit index, and nothing applied since it started. */
  ghost predicate Member(n: Node, id: NodeId, x: NodeId, y: NodeId, t: nat, log: seq<LogEntry>, commit: nat) {
    && n.id == id && n.peers == [x, y] && id != x && id != y && x != y && n.threshold == 1 && n.currentTerm == t
    && n.log == log && n.commitIndex == commit && n.pending == None
    && Numbered(log) && Base(log) <= commit <= LastLogIndex(log)
  }

  /** It leads, with these cursors. */
  ghost predicate HasCursors(n: Node, x: NodeId, nextX: nat, matchX: nat, y: NodeId, nextY: nat, matchY: nat) {
    && n.state == Leader && n.nextIndex == map[x := nextX, y := nextY] && n.matchIndex == map[x := matchX, y := matchY]
  }

  lemma MemberFormed(n: Node, id: NodeId, x: NodeId, y: NodeId, t: nat, log: seq<LogEntry>, commit: nat)
    requires Member(n, id, x, y, t, log, commit)
    requires n.state == Leader ==> {x, y} <= n.nextIndex.Keys && {x, y} <= n.matchIndex.Keys
    ensures Formed(n)
  {
  }

  lemma WinnerShape(n: Node, id: NodeId, x: NodeId, y: NodeId, t: nat, log: seq<LogEntry>, commit: nat, v: NodeId)
    requires Member(n, id, x, y, t, log, commit)
    ensures var m, i := Winner(n, v), LastLogIndex(log) + 1;
      && Member(m, id, x, y, t + 1, log, commit) && HasCursors(m, x, i, 0, y, i, 0) && Formed(m)
      && m.lastApplied == n.lastApplied && m.disk.wal == n.disk.wal && m.disk.snap == n.disk.snap
  {
    var i := LastLogIndex(log) + 1;
    assert (map q | q in [x, y] :: i) == map[x := i, y := i];
    assert (map q | q in [x, y] :: 0) == map[x := 0, y := 0];
  }

  lemma VoterShape(f: Node, id: NodeId, x: NodeId, y: NodeId, t: nat, log: seq<LogEntry>, commit: nat, n: Node)
    requires Member(f, id, x, y, t, log, commit)
    ensures Member(Voter(f, n), id, x, y, n.currentTerm + 1, log, commit) && Formed(Voter(f, n))
  {
  }

  lemma StoredShape(f: Node, id: NodeId, x: NodeId, y: NodeId, t: nat, log: seq<LogEntry>, commit: nat, a: AppendArgs,
                    e: LogEntry)
    requires Member(f, id, x, y, t, log, commit) && a.term == t && a.entries == [e] && e.index == LastLogIndex(log) + 1
    requires a.prevLogIndex == LastLogIndex(log) >= a.leaderCommit
    ensures Member(Stored(f, a), id, x, y, t, log + [e], Max(commit, a.leaderCommit)) && Formed(Stored(f, a))
  {
    hide AppendRecords;
  }

  // ---- A keeps two entries to itself, B wins and commits another second one --------------------

  function KeepsTwo(): Node { Storing(CommittedA(), [X2]) }

  function KeepsA(): Node { Storing(KeepsTwo(), [X3]) }

  lemma KeptByA()
    ensures Formed(CommittedA()) && CommittedA().state == Leader && Propose(CommittedA(), X2.command) == KeepsTwo()
    ensures Formed(KeepsTwo()) && KeepsTwo().state == Leader && Propose(KeepsTwo(), X3.command) == KeepsA()
    ensures LedByA(KeepsA(), [Sentinel(0, 0), E1, X2, X3], 1, 2, 1) && Formed(KeepsA())
  {
    hide CommittedA, Propose, LedByA, Formed, Storing;
    ShapesA();
    var one, two := [Sentinel(0, 0), E1], [Sentinel(0, 0), E1, X2];
    assert one + [X2] == two && two + [X3] == [Sentinel(0, 0), E1, X2, X3];
    StoringShape(CommittedA(), one, X2, 2, 1);
    StoringShape(KeepsTwo(), two, X3, 2, 1);
    ProposedByA(CommittedA(), one, X2);
    ProposedByA(KeepsTwo(), two, X3);
    FormedA(KeepsA(), two + [X3], 1, 2, 1);
  }

  lemma ProposedByA(n: Node, log: seq<LogEntry>, e: LogEntry)
    requires LedByA(n, log, 1, 2, 1) && Numbered(log) && Base(log) <= 1 <= LastLogIndex(log)
    requires e.term == 1 && e.index == LastLogIndex(log) + 1
    ensures Formed(n) && n.state == Leader && Propose(n, e.command) == Storing(n, [e])
  {
    hide Propose, Storing;
    FormedA(n, log, 1, 2, 1);
    Appends(n, e.command);
  }

  function LeaderB(): Node { Winner(OneB(), C) }

  function VotedC(): Node { Voter(OneC(), OneB()) }

  const TWO := AppendArgs(2, B, 1, 1, [Y2], 0)
  const C_HAS_TWO := AppendRepPacket(B, C, TWO, Yes(2))

  function HasTwoB(): Node { Storing(LeaderB(), [Y2]) }

  function TwoC(): Node { Stored(VotedC(), TWO) }

  function CommittedB(): Node { Decided(HasTwoB(), C) }

  lemma ElectsB()
    ensures OneB().id == B && WouldWin(Up(OneB()), Up(OneC()), C)
    ensures Member(LeaderB(), B, A, C, 2, [Sentinel(0, 0), E1], 0) && HasCursors(LeaderB(), A, 2, 0, C, 2, 0)
    ensures Formed(LeaderB()) && LeaderB().lastApplied == 0
    ensures Member(VotedC(), C, A, B, 2, [Sentinel(0, 0), E1], 1) && Formed(VotedC())
  {
    hide OneB, OneC, Winner, Voter, HasCursors;
    ShapesB();
    ShapeC();
    var log := [Sentinel(0, 0), E1];
    FormedFollower(OneB(), B, A, C, log, 0);
    FormedFollower(OneC(), C, A, B, log, 1);
    WinnerShape(OneB(), B, A, C, 1, log, 0, C);
    VoterShape(OneC(), C, A, B, 1, log, 1, OneB());
  }

  lemma SecondOnB()
    ensures LeaderB().id == B && MayExtend(Up(LeaderB()), Up(VotedC()), C) && Carrying(LeaderB(), Y2.command) == TWO
    ensures NextEntry(LeaderB(), Y2.command) == Y2 && LeaderB().currentTerm == 2
  {
    hide LeaderB, VotedC, MayExtend;
    ElectsB();
    TwoMayExtend(LeaderB(), VotedC(), C, A, C);
  }

  lemma SecondShapes()
    ensures Member(HasTwoB(), B, A, C, 2, [Sentinel(0, 0), E1, Y2], 0) && HasCursors(HasTwoB(), A, 2, 0, C, 2, 0)
    ensures HasTwoB().lastApplied == 0
    ensures Member(TwoC(), C, A, B, 2, [Sentinel(0, 0), E1, Y2], 1) && Formed(TwoC())
  {
    hide LeaderB, VotedC, Stored, AppendRecords;
    ElectsB();
    assert [Sentinel(0, 0), E1] + [Y2] == [Sentinel(0, 0), E1, Y2];
    StoredShape(VotedC(), C, A, B, 2, [Sentinel(0, 0), E1], 1, TWO, Y2);
  }

  lemma SecondCounted()
    ensures Formed(HasTwoB()) && OnAppendReply(HasTwoB(), C, TWO, Yes(2)) == CommittedB()
    ensures Member(CommittedB(), B, A, C, 2, [Sentinel(0, 0), E1, Y2], 2) && HasCursors(CommittedB(), A, 2, 0, C, 3, 2)
    ensures CommittedB().lastApplied == 0 && Formed(CommittedB())
  {
    hide HasTwoB, OnAppendReply, TwoC;
    SecondShapes();
    MemberFormed(HasTwoB(), B, A, C, 2, [Sentinel(0, 0), E1, Y2], 0);
    Decides(HasTwoB(), C, TWO);
    assert map[A := 2, C := 2][C := 3] == map[A := 2, C := 3] && map[A := 0, C := 0][C := 2] == map[A := 0, C := 2];
  }

  lemma KeepsTwoEntries() returns (b: seq<State>, net: set<Packet>, a: Host)
    ensures EndsWith(b, Hosts(a, Up(OneB()), Up(OneC())), net) && a == HostA(KeepsA(), a.proposed)
  {
    hide Run, EndsWith, Propose, Formed, CommittedA, OneB, OneC, Storing, LedByA;
    var ps: set<Request>;
    b, net, ps := FirstCommitted();
    KeptByA();
    var x, y := Up(OneB()), Up(OneC());
    a := HostA(CommittedA(), ps);
    var one := Proposing(a, X2.command);
    Changed(a, x, y, one);
    b := Proposes(b, Hosts(a, x, y), net, A, X2.command);
    a := Proposing(one, X3.command);
    Changed(one, x, y, a);
    b := Proposes(b, Hosts(one, x, y), net, A, X3.command);
  }

  lemma SecondTermCommitted() returns (b: seq<State>, net: set<Packet>, a: Host, x: Host)
    ensures EndsWith(b, Hosts(a, x, Up(TwoC())), net) && a == HostA(KeepsA(), a.proposed)
    ensures x == HostA(CommittedB(), x.proposed)
  {
    hide Run, EndsWith, KeepsA, OneB, OneC, WouldWin, Winner, Voter, MayExtend, Formed, Stored, Storing, OnAppendReply,
         CommittedB, Carrying, NextEntry;
    b, net, a := KeepsTwoEntries();
    var y: Host;
    x, y := Up(OneB()), Up(OneC());
    ElectsB();
    Changed(a, x, y, Up(LeaderB()));
    Changed(a, Up(LeaderB()), y, Up(VotedC()));
    b, net := Wins(b, Hosts(a, x, y), net, B, C);
    x, y := Up(LeaderB()), Up(VotedC());
    SecondOnB();
    Changed(a, x, y, x);
    var h: Host;
    b, net, h := Replicates(b, Hosts(a, x, y), net, B, C, Y2.command);
    Changed(a, x, y, h);
    Changed(a, h, y, Up(TwoC()));
    y := Up(TwoC());
    SecondCounted();
    x := h.(node := CommittedB());
    Changed(a, h, y, x);
    b := Receives(b, Hosts(a, h, y), net, C_HAS_TWO, CommittedB(), {});
    net := net + {};
  }

  // ---- B compacts ------------------------------------------------------------------------------

  const CUT := Snapshot(2, 2, map[])

  function CompactB(): Node {
    CommittedB().(lastApplied := 2, log := [Sentinel(2, 2)], disk := CommittedB().disk.(snap := Some(CUT), wal := []))
  }

  lemma CompactsB(x: Host)
    requires x == HostA(CommittedB(), x.proposed)
    ensures TwoToApply(x, E1, Y2) && CompactedBoth(x, E1, Y2) == x.(node := CompactB())
  {
    hide CommittedB, Formed, OnAppendReply, HasTwoB;
    SecondCounted();
    assert map[]["k" := "v"] == map["k" := "v"] && map["k" := "v"] - {"k"} == map[];
  }

  lemma CompactShapeB()
    ensures Member(CompactB(), B, A, C, 2, [Sentinel(2, 2)], 2) && HasCursors(CompactB(), A, 2, 0, C, 3, 2)
    ensures CompactB().disk.snap == Some(CUT) && CompactB().disk.wal == [] && Formed(CompactB())
    ensures CompactB().disk.hard == HardState(2, Some(B))
  {
    hide LeaderB, AppendRecords, OnAppendReply;
    SecondCounted();
    MemberFormed(CompactB(), B, A, C, 2, [Sentinel(2, 2)], 2);
    VoteOfB();
  }

  lemma VoteOfB()
    ensures LeaderB().disk.hard == HardState(2, Some(B))
  {
    hide OneB;
    ShapesB();
  }

  /** A has two entries of term 1 that nobody else has, B has compacted everything, C nothing. */
  lemma Parted() returns (b: seq<State>, net: set<Packet>, a: Host, x: Host)
    ensures EndsWith(b, Hosts(a, x, Up(TwoC())), net) && a == HostA(KeepsA(), a.proposed)
    ensures x == HostA(CompactB(), x.proposed)
  {
    hide Run, EndsWith, KeepsA, TwoC, CommittedB, CompactB, TwoToApply, CompactedBoth;
    b, net, a, x := SecondTermCommitted();
    CompactsB(x);
    Changed(a, x, Up(TwoC()), x.(node := CompactB()));
    b := AppliesTwo(b, Hosts(a, x, Up(TwoC())), net, B, E1, Y2);
    x := x.(node := CompactB());
  }

  // ---- B crashes and wins again ----------------------------------------------------------------

  function BackB(): Node {
    Node(B, [A, C], 1, 2, Some(B), [Sentinel(2, 2)], 2, 2, map[], map[], Follower, None, 0, {}, None, CompactB().disk)
  }

  lemma RestartsB(x: Host)
    requires x == HostA(CompactB(), x.proposed)
    ensures Reboot(x, x.node.disk) == Up(BackB())
  {
    hide CompactB;
    CompactShapeB();
    assert [Sentinel(2, 2)] + [] == [Sentinel(2, 2)];
  }

  function LastB(): Node { Winner(BackB(), C) }

  lemma ReelectsB()
    ensures BackB().id == B && WouldWin(Up(BackB()), Up(TwoC()), C)
    ensures Member(LastB(), B, A, C, 3, [Sentinel(2, 2)], 2) && HasCursors(LastB(), A, 3, 0, C, 3, 0) && Formed(LastB())
  {
    hide TwoC, CompactB, Winner;
    SecondShapes();
    MemberFormed(BackB(), B, A, C, 2, [Sentinel(2, 2)], 2);
    WinnerShape(BackB(), B, A, C, 2, [Sentinel(2, 2)], 2, C);
  }

  lemma AsksAboutCompacted(n: Node, f: Node)
    requires Member(n, B, A, C, 3, [Sentinel(2, 2)], 2) && HasCursors(n, A, 3, 0, C, 3, 0) && Formed(n)
    requires LedByA(f, [Sentinel(0, 0), E1, X2, X3], 1, 2, 1) && Formed(f)
    ensures Outbound(n, A) == SendEntries(AppendArgs(3, B, 2, 2, [], 2))
    ensures H.Refused(n, f, A) && H.NextTry(n, f, A) == 1
    ensures OnAppendEntries(f, AppendArgs(3, B, 2, 2, [], 2)).reply.conflictTerm == 1
  {
    hide Formed;
    assert n.log[1..] == [];
    HintsOfA(f.log);
  }

  lemma HintsOfA(log: seq<LogEntry>)
    requires log == [Sentinel(0, 0), E1, X2, X3]
    ensures Numbered(log) && TermOf(log, 2) == 1 && FirstOfTerm(log, 2) == 1 && LastLogIndex(log) == 3
  {
    assert TermOf(log, 1) == 1;
  }

  /** The leader tries below where the logs agree, although the rejected term is not its sentinel's. */
  ghost predicate TriesTooLow(n: Node, f: Node, q: NodeId, d: D.Pair) {
    && H.Refused(n, f, q) && H.LogsOf(d, n, f) && 1 <= H.NextTry(n, f, q) <= d.agreed
    && OnAppendEntries(f, Outbound(n, q).args).reply.conflictTerm != n.log[0].term
  }

  /** A retry can go below the agreed prefix even though the leader's sentinel has another term than the
      rejected one; it costs a snapshot that was needed anyway. */
  lemma OvershootBelowOtherSentinel() returns (b: seq<State>, c: State, d: D.Pair)
    ensures RunsTo(b, c) && c.At(B).node.state == Leader && D.Related(d)
    ensures TriesTooLow(c.At(B).node, c.At(A).node, A, d)
  {
    hide Run, RunsTo, EndsWith, KeepsA, TwoC, CompactB, Reboot, WouldWin, Winner, Voter, Formed, K.Reachable, LedByA,
         D.Related, D.Comparable, D.Misleads, OnAppendEntries, OnAppendReply, Outbound, H.Refused, H.NextTry, BackB;
    var net: set<Packet>, a: Host, x: Host;
    b, net, a, x := Parted();
    var y := Up(TwoC());
    RestartsB(x);
    IsUp(x, CompactB());
    Changed(a, x, y, Up(BackB()));
    b := Crashes(b, Hosts(a, x, y), net, B);
    x := Up(BackB());
    ReelectsB();
    Changed(a, x, y, Up(LastB()));
    Changed(a, Up(LastB()), y, y.(node := Voter(TwoC(), BackB())));
    b, net := Wins(b, Hosts(a, x, y), net, B, C);
    x, y := Up(LastB()), y.(node := Voter(TwoC(), BackB()));
    c := EndsThere(b, Hosts(a, x, y), net);
    Changed(a, x, y, a);
    KeptByA();
    AsksAboutCompacted(LastB(), KeepsA());
    ReachedBy(b, c);
    ShapeOfA();
    d := H.OvershootsOnHosts(c, B, A);
  }

  lemma IsUp(x: Host, n: Node)
    requires x == HostA(n, x.proposed)
    ensures x.up && x.node == n
  {
  }

  lemma ReachedBy(b: seq<State>, c: State)
    requires RunsTo(b, c)
    ensures K.Reachable(c)
  {
    hide Run;
  }

  lemma ShapeOfA()
    ensures KeepsA().currentTerm == 1 && KeepsA().commitIndex == 1
  {
    hide KeepsA;
    KeptByA();
  }

  // ---- A crashes in the middle of an install, and C wins ---------------------------------------

  const THREE := AppendArgs(2, B, 2, 2, [Y3], 2)
  const CUT_ARGS := SnapshotArgs(2, B, CUT)
  const CUT_TO_A := SnapReqPacket(A, CUT_ARGS)

  function ThreeC(): Node { Stored(TwoC(), THREE) }

  function TornA(): Host { TornHost(Up(KeepsA()), CUT_ARGS) }

  lemma ThirdOnB()
    ensures CompactB().id == B && MayExtend(Up(CompactB()), Up(TwoC()), C) && Carrying(CompactB(), Y3.command) == THREE
    ensures Member(ThreeC(), C, A, B, 2, [Sentinel(0, 0), E1, Y2, Y3], 2) && Formed(ThreeC())
  {
    hide CompactB, TwoC, MayExtend, Stored;
    CompactShapeB();
    SecondShapes();
    TwoMayExtend(CompactB(), TwoC(), C, A, C);
    assert [Sentinel(0, 0), E1, Y2] + [Y3] == [Sentinel(0, 0), E1, Y2, Y3];
    StoredShape(TwoC(), C, A, B, 2, [Sentinel(0, 0), E1, Y2], 1, THREE, Y3);
  }

  lemma ShipsToA()
    ensures SendsPacket(Up(Storing(CompactB(), [NextEntry(CompactB(), Y3.command)])), A, CUT_TO_A)
  {
    hide CompactB, AppendRecords;
    CompactShapeB();
  }

  lemma StoredByKeeper(f: Node)
    requires f == Observe(KeepsA(), 2)
    ensures Installing(f, [E1, X2, X3], 0, CUT) && f.id == A && f.peers == [B, C] && f.threshold == 1
    ensures f.disk.hard == HardState(2, None)
  {
    hide Replay, KeepsA, AppendRecords;
    KeeperShape();
    assert [E1, X2, X3][0..] == [E1, X2, X3] && Compacted([E1, X2, X3], 0) == [Sentinel(0, 0), E1, X2, X3];
    ReplayCompacted([E1, X2, X3], 0);
  }

  lemma KeeperShape()
    ensures KeepsA().disk.wal == AppendRecords([E1, X2, X3]) && KeepsA().currentTerm == 1
    ensures KeepsA().id == A && KeepsA().peers == [B, C] && KeepsA().threshold == 1
    ensures KeepsA().log == [Sentinel(0, 0), E1, X2, X3] && KeepsA().commitIndex == 1
  {
    hide LedByA, Propose, Formed;
    KeptByA();
    assert LedByA(KeepsA(), [Sentinel(0, 0), E1, X2, X3], 1, 2, 1);
    assert AppendRecords([E1]) + AppendRecords([X2]) + AppendRecords([X3]) == AppendRecords([E1, X2, X3]);
  }

  lemma ComesBackOld()
    ensures TornA().up && Member(TornA().node, A, B, C, 2, [Sentinel(2, 2), X3], 2) && TornA().node.state == Follower
    ensures Formed(TornA().node)
  {
    hide KeepsA, Formed;
    var f, full := Observe(KeepsA(), 2), [E1, X2, X3];
    KeeperShape();
    StoredByKeeper(f);
    WindowRecovers(f, full, 0, CUT);
    assert Leftover(full, CUT) == [X3];
    hide Replay, Beyond, Compacted, Installing;
    MemberFormed(TornA().node, A, B, C, 2, [Sentinel(2, 2), X3], 2);
  }

  lemma TearsAtA(a: Host)
    requires a == HostA(KeepsA(), a.proposed)
    ensures Tears(a, CUT_TO_A, TornA())
  {
    hide KeepsA, Recover, Overrules, Formed, LedByA, Member;
    KeptByA();
    KeeperShape();
    ComesBackOld();
  }

  function LastC(): Node { Winner(ThreeC(), A) }

  function LastA(): Node { Voter(TornA().node, ThreeC()) }

  lemma ElectsC()
    ensures ThreeC().id == C && WouldWin(Up(ThreeC()), TornA(), A)
    ensures Member(LastC(), C, A, B, 3, [Sentinel(0, 0), E1, Y2, Y3], 2) && HasCursors(LastC(), A, 4, 0, B, 4, 0)
    ensures Formed(LastC()) && Member(LastA(), A, B, C, 3, [Sentinel(2, 2), X3], 2) && Formed(LastA())
  {
    hide ThreeC, TornA, Winner, Voter, HasCursors, Formed, EndsWith;
    ThirdOnB();
    ComesBackOld();
    NotLeading();
    WinnerShape(ThreeC(), C, A, B, 2, [Sentinel(0, 0), E1, Y2, Y3], 2, A);
    VoterShape(TornA().node, A, B, C, 2, [Sentinel(2, 2), X3], 2, ThreeC());
  }

  lemma NotLeading()
    ensures ThreeC().state == Follower
  {
    hide TwoC;
  }

  lemma HintMisleads(n: Node, f: Node)
    requires Member(n, C, A, B, 3, [Sentinel(0, 0), E1, Y2, Y3], 2) && HasCursors(n, A, 4, 0, B, 4, 0) && Formed(n)
    requires Member(f, A, B, C, 3, [Sentinel(2, 2), X3], 2) && Formed(f)
    ensures H.Refused(n, f, A) && H.NextTry(n, f, A) == 2
  {
    hide Formed;
    assert n.log[4..] == [];
    assert FirstOfTerm(f.log, 3) == 3;
    LastOfOne(n.log);
  }

  lemma LastOfOne(log: seq<LogEntry>)
    requires log == [Sentinel(0, 0), E1, Y2, Y3]
    ensures LastOfTerm(log, 1, 3) == 1
  {
    assert LastOfTerm(log, 1, 1) == 1 && LastOfTerm(log, 1, 2) == 1;
  }

  /** The leader tries below where the logs agree, and still sends entries. */
  ghost predicate SendsTooLow(n: Node, f: Node, q: NodeId, d: D.Pair) {
    && H.Refused(n, f, q) && H.LogsOf(d, n, f) && Base(n.log) < H.NextTry(n, f, q) <= d.agreed
  }

  /** Even a leader that has compacted nothing can be sent below the agreed prefix, by a follower that
      crashed in the middle of an install. */
  lemma SendingOvershoots() returns (b: seq<State>, c: State, d: D.Pair)
    ensures RunsTo(b, c) && c.At(C).node.state == Leader && D.Comparable(d)
    ensures SendsTooLow(c.At(C).node, c.At(A).node, A, d)
  {
    hide Run, RunsTo, EndsWith, KeepsA, TwoC, CompactB, WouldWin, Winner, Voter, Formed, K.Reachable, D.Comparable,
         D.Misleads, OnAppendEntries, OnAppendReply, Outbound, H.Refused, H.NextTry, TornHost, MayExtend, Stored,
         Storing, Tears, MaySend, D.Related;
    var net: set<Packet>, a: Host, x: Host, h: Host;
    b, net, a, x := Parted();
    var y := Up(TwoC());
    ThirdOnB();
    Changed(a, x, y, x);
    Ready(x, y, C);
    b, net, h := Replicates(b, Hosts(a, x, y), net, B, C, Y3.command);
    Changed(a, x, y, h);
    Changed(a, h, y, Up(ThreeC()));
    y := Up(ThreeC());
    ShipsToA();
    IsUp(x, CompactB());
    OtherHost(h, Up(h.node), A, CUT_TO_A);
    Changed(a, h, y, h);
    b := SendsTo(b, Hosts(a, h, y), net, B, A, CUT_TO_A);
    net := net + {CUT_TO_A};
    TearsAtA(a);
    Changed(a, h, y, TornA());
    b := TearsInstall(b, Hosts(a, h, y), net, CUT_TO_A, TornA());
    ElectsC();
    Changed(TornA(), h, y, Up(LastC()));
    Changed(TornA(), h, Up(LastC()), TornA().(node := LastA()));
    b, net := Wins(b, Hosts(TornA(), h, y), net, C, A);
    c := EndsThere(b, Hosts(TornA().(node := LastA()), h, Up(LastC())), net);
    Changed(TornA().(node := LastA()), h, Up(LastC()), h);
    HintMisleads(LastC(), LastA());
    ReachedBy(b, c);
    d := H.OvershootsOnHosts(c, C, A);
  }
}
