/**
 A run of three nodes in which a snapshot overtakes a batch: A leads and commits two entries with B,
 while C is still applying the first. A client of A that waits for the first is told of its success. A
 compacts and sends C its snapshot. When C has installed it and finishes its batch, the snapshot trigger
 indexes outside the log. If instead C crashes between the two writes of the install, the next entry it
 stores leaves a gap, and the next crash is its last.
 */
module OverrunRun {
  import opened Types
  import opened SentinelLog
  import opened WalRecords
  import opened NodeState
  import opened Cluster
  import opened InstallWindow
  import opened Scenario

  const A := NodeId("a")
  const B := NodeId("b")
  const C := NodeId("c")
  const E1 := LogEntry(1, 1, Put("k", "v"))
  const E2 := LogEntry(1, 2, Delete("k"))

  function Hosts(a: Host, b: Host, c: Host): map<NodeId, Host> { map[A := a, B := b, C := c] }

  lemma Changed(a: Host, b: Host, c: Host, x: Host)
    ensures Hosts(a, b, c)[A := x] == Hosts(x, b, c)
    ensures Hosts(a, b, c)[B := x] == Hosts(a, x, c)
    ensures Hosts(a, b, c)[C := x] == Hosts(a, b, x)
    ensures Hosts(a, b, c)[A] == a && Hosts(a, b, c)[B] == b && Hosts(a, b, c)[C] == c
  {
  }

  // ---- The first entry, committed with B and learned by C --------------------------------------

  function LeaderA(): Node { Winner(Fresh(A, [B, C]), B) }

  function FollowerB(): Node { Voter(Fresh(B, [A, C]), Fresh(A, [B, C])) }

  const TO_B := AppendArgs(1, A, 0, 0, [E1], 0)
  const TO_C := AppendArgs(1, A, 0, 0, [E1], 1)
  const MORE := AppendArgs(1, A, 1, 1, [E2], 1)

  function OneA(): Node { Storing(LeaderA(), [E1]) }

  function OneB(): Node { Stored(FollowerB(), TO_B) }

  function CommittedA(): Node { Decided(OneA(), B) }

  function OneC(): Node { Stored(Fresh(C, [A, B]), TO_C) }

  function TwoA(): Node { Storing(CommittedA(), [E2]) }

  function TwoB(): Node { Stored(OneB(), MORE) }

  function DoneA(): Node { Decided(TwoA(), B) }

  /** A leads term 1 with this log, commit index and cursors. */
  ghost predicate LedByA(n: Node, log: seq<LogEntry>, commit: nat, next: nat, matched: nat) {
    && n.id == A && n.peers == [B, C] && n.threshold == 1 && n.currentTerm == 1 && n.state == Leader
    && n.log == log && n.commitIndex == commit && n.lastApplied == 0 && n.pending == None
    && n.nextIndex == map[B := next, C := 1] && n.matchIndex == map[B := matched, C := 0]
  }

  /** A follower in term 1 with this log and commit index. */
  ghost predicate FollowsA(n: Node, id: NodeId, peers: seq<NodeId>, log: seq<LogEntry>, commit: nat) {
    && n.id == id && n.peers == peers && n.threshold == 1 && n.currentTerm == 1 && n.state == Follower
    && n.log == log && n.commitIndex == commit && n.lastApplied == 0 && n.pending == None
    && |log| >= 1 && n.disk.wal == AppendRecords(log[1..]) && n.disk.snap == None
  }

  lemma ShapesA()
    ensures LedByA(LeaderA(), [Sentinel(0, 0)], 0, 1, 0) && LedByA(OneA(), [Sentinel(0, 0), E1], 0, 1, 0)
    ensures LedByA(CommittedA(), [Sentinel(0, 0), E1], 1, 2, 1)
    ensures LedByA(TwoA(), [Sentinel(0, 0), E1, E2], 1, 2, 1)
    ensures LedByA(DoneA(), [Sentinel(0, 0), E1, E2], 2, 3, 2)
  {
    hide AppendRecords, LeaderA, Decided, LedByA, Storing;
    assert [Sentinel(0, 0)] + [E1] == [Sentinel(0, 0), E1] && [Sentinel(0, 0), E1] + [E2] == [Sentinel(0, 0), E1, E2];
    LeaderShape();
    StoringShape(LeaderA(), [Sentinel(0, 0)], E1, 1, 0);
    DecidedShape(OneA(), [Sentinel(0, 0), E1], 1, 0);
    StoringShape(CommittedA(), [Sentinel(0, 0), E1], E2, 2, 1);
    DecidedShape(TwoA(), [Sentinel(0, 0), E1, E2], 2, 1);
  }

  lemma LeaderShape()
    ensures LedByA(LeaderA(), [Sentinel(0, 0)], 0, 1, 0)
  {
    assert (map q | q in [B, C] :: 1) == map[B := 1, C := 1];
    assert (map q | q in [B, C] :: 0) == map[B := 0, C := 0];
  }

  lemma StoringShape(n: Node, log: seq<LogEntry>, e: LogEntry, next: nat, matched: nat)
    requires LedByA(n, log, matched, next, matched)
    ensures LedByA(Storing(n, [e]), log + [e], matched, next, matched)
  {
    hide AppendRecords;
  }

  lemma DecidedShape(n: Node, log: seq<LogEntry>, next: nat, matched: nat)
    requires Numbered(log) && LedByA(n, log, matched, next, matched)
    ensures LedByA(Decided(n, B), log, LastLogIndex(log), LastLogIndex(log) + 1, LastLogIndex(log))
  {
    var i := LastLogIndex(log);
    assert map[B := next, C := 1][B := i + 1] == map[B := i + 1, C := 1];
    assert map[B := matched, C := 0][B := i] == map[B := i, C := 0];
  }

  lemma ShapesB()
    ensures FollowsA(FollowerB(), B, [A, C], [Sentinel(0, 0)], 0)
    ensures FollowsA(OneB(), B, [A, C], [Sentinel(0, 0), E1], 0)
    ensures FollowsA(TwoB(), B, [A, C], [Sentinel(0, 0), E1, E2], 1)
  {
    assert AppendRecords([]) == [] && [Sentinel(0, 0)][1..] == [];
    assert [Sentinel(0, 0), E1][1..] == [E1] && [Sentinel(0, 0), E1, E2][1..] == [E1, E2];
  }

  lemma ShapeC()
    ensures FollowsA(OneC(), C, [A, B], [Sentinel(0, 0), E1], 1)
  {
    assert [Sentinel(0, 0), E1][1..] == [E1];
  }

  lemma FormedA(n: Node, log: seq<LogEntry>, commit: nat, next: nat, matched: nat)
    requires LedByA(n, log, commit, next, matched) && Numbered(log) && Base(log) <= commit <= LastLogIndex(log)
    ensures Formed(n)
  {
  }

  lemma FormedFollower(n: Node, id: NodeId, x: NodeId, y: NodeId, log: seq<LogEntry>, commit: nat)
    requires FollowsA(n, id, [x, y], log, commit) && id != x && id != y && x != y
    requires Numbered(log) && Base(log) <= commit <= LastLogIndex(log)
    ensures Formed(n)
  {
  }

  /** A's host: what it stands at, and what was proposed there. */
  function HostA(n: Node, proposed: set<Request>): Host { Up(n).(proposed := proposed) }

  const REQUEST := Request(A, 1, 1, E1.command)
  const B_HAS := AppendRepPacket(A, B, TO_B, Yes(1))
  const C_HAS_ONE := AppendRepPacket(A, C, TO_C, Yes(1))

  lemma BothOthers(p: NodeId, x: NodeId, y: NodeId, members: set<NodeId>)
    requires p != x && p != y && x != y && members == {p, x, y}
    ensures Configured(p, [x, y], members)
  {
    assert (set q | q in [x, y]) == {x, y};
  }

  lemma ThreeFresh(a: Host, x: Host, y: Host, peers: map<NodeId, seq<NodeId>>)
    requires a == Up(Fresh(A, [B, C])) && x == Up(Fresh(B, [A, C])) && y == Up(Fresh(C, [A, B]))
    requires peers == map[A := [B, C], B := [A, C], C := [A, B]]
    ensures AllFresh(Hosts(a, x, y), peers)
  {
    hide Fresh, Up, Configured;
    BothOthers(A, B, C, {A, B, C});
    BothOthers(B, A, C, {A, B, C});
    BothOthers(C, A, B, {A, B, C});
    assert Hosts(a, x, y).Keys == peers.Keys == {A, B, C};
  }

  lemma Elected() returns (b: seq<State>, net: set<Packet>)
    ensures EndsWith(b, Hosts(Up(LeaderA()), Up(FollowerB()), Up(Fresh(C, [A, B]))), net)
  {
    hide EndsWith, Run, AllFresh, Winner, Voter;
    var a, x, y := Up(Fresh(A, [B, C])), Up(Fresh(B, [A, C])), Up(Fresh(C, [A, B]));
    var peers := map[A := [B, C], B := [A, C], C := [A, B]];
    ThreeFresh(a, x, y, peers);
    b := Begins(Hosts(a, x, y), peers);
    Changed(a, x, y, Up(LeaderA()));
    Changed(Up(LeaderA()), x, y, Up(FollowerB()));
    b, net := Wins(b, Hosts(a, x, y), {}, A, B);
  }

  lemma FirstStored() returns (b: seq<State>, net: set<Packet>, ps: set<Request>)
    ensures B_HAS in net
    ensures EndsWith(b, Hosts(HostA(OneA(), ps), Up(OneB()), Up(Fresh(C, [A, B]))), net) && REQUEST in ps
  {
    hide Run, EndsWith, Storing, Stored, LeaderA, FollowerB, Formed, LedByA, FollowsA;
    b, net := Elected();
    var a, x, y := Up(LeaderA()), Up(FollowerB()), Up(Fresh(C, [A, B]));
    MayStoreFirst();
    Changed(a, x, y, a);
    var h: Host;
    b, net, h := Replicates(b, Hosts(a, x, y), net, A, B, E1.command);
    ps := h.proposed;
    Changed(a, x, y, h);
    Changed(h, x, y, Up(OneB()));
  }

  lemma MayStoreFirst()
    ensures MayExtend(Up(LeaderA()), Up(FollowerB()), B) && Carrying(LeaderA(), E1.command) == TO_B
    ensures LeaderA().id == A && NextEntry(LeaderA(), E1.command) == E1
    ensures RequestFor(LeaderA(), E1.command) == REQUEST
  {
    hide LeaderA, FollowerB, MayExtend, Formed, OneB, DoneA;
    ShapesA();
    ShapesB();
    FormedA(LeaderA(), [Sentinel(0, 0)], 0, 1, 0);
    FormedFollower(FollowerB(), B, A, C, [Sentinel(0, 0)], 0);
    TwoMayExtend(LeaderA(), FollowerB(), B, B, C);
  }

  lemma FirstReply()
    ensures Formed(OneA()) && OnAppendReply(OneA(), B, TO_B, Yes(1)) == CommittedA()
  {
    hide LeaderA, Storing, Decided, OnAppendReply;
    ShapesA();
    FormedA(OneA(), [Sentinel(0, 0), E1], 0, 1, 0);
    Decides(OneA(), B, TO_B);
  }

  lemma SentToC()
    ensures SendsPacket(Up(CommittedA()), C, AppendReqPacket(C, TO_C))
  {
    hide CommittedA, Formed;
    ShapesA();
    FormedA(CommittedA(), [Sentinel(0, 0), E1], 1, 2, 1);
    assert [Sentinel(0, 0), E1][1..] == [E1];
  }

  lemma TakenByC()
    ensures Handles(Up(Fresh(C, [A, B])), AppendReqPacket(C, TO_C), OneC(), {C_HAS_ONE})
  {
    hide OnAppendEntries, Stored;
    TakesNext(Fresh(C, [A, B]), TO_C);
  }

  lemma FirstCommitted() returns (b: seq<State>, net: set<Packet>, ps: set<Request>)
    ensures EndsWith(b, Hosts(HostA(CommittedA(), ps), Up(OneB()), Up(OneC())), net) && REQUEST in ps
  {
    hide Run, EndsWith, OnAppendReply, OnAppendEntries, Formed, OneA, CommittedA, OneB, OneC, Outbound, MaySend;
    b, net, ps := FirstStored();
    FirstReply();
    var x, y := Up(OneB()), Up(Fresh(C, [A, B]));
    var a := HostA(CommittedA(), ps);
    Changed(HostA(OneA(), ps), x, y, a);
    b := Receives(b, Hosts(HostA(OneA(), ps), x, y), net, B_HAS, CommittedA(), {});
    net := net + {};
    SentToC();
    TakenByC();
    Changed(a, x, y, Up(OneC()));
    OtherHost(a, Up(CommittedA()), C, AppendReqPacket(C, TO_C));
    b := SendsTo(b, Hosts(a, x, y), net, A, C, AppendReqPacket(C, TO_C));
    net := net + {AppendReqPacket(C, TO_C)};
    b := Receives(b, Hosts(a, x, y), net, AppendReqPacket(C, TO_C), OneC(), {C_HAS_ONE});
    net := net + {C_HAS_ONE};
  }

  // ---- A client is told of its write -----------------------------------------------------------

  /** A with the request waiting, and with the batch that its entry is in. */
  function WaitingA(ps: set<Request>): Host { HostA(CommittedA(), ps - {REQUEST}).(waiters := map[1 := REQUEST]) }

  function AnswersA(ps: set<Request>): Host { WaitingA(ps).(applier := Applying([E1], 0)) }

  lemma BatchOfOne()
    ensures Base(CommittedA().log) == CommittedA().lastApplied == 0 && CommittedA().commitIndex == 1
    ensures Formed(CommittedA()) && CommittedA().pending == None && Batch(CommittedA()) == [E1]
  {
    hide CommittedA, Formed;
    ShapesA();
    FormedA(CommittedA(), [Sentinel(0, 0), E1], 1, 2, 1);
    assert CommittedA().log[1..][..1] == [E1];
  }

  /** Some run ends with an acknowledged write, so nothing is about runs that do not exist. */
  lemma SomeoneIsAcknowledged() returns (b: seq<State>, c: State)
    ensures RunsTo(b, c) && REQUEST in c.acked
  {
    hide Run, RunsTo, EndsWith, Batch, Formed, CommittedA, BatchFinished;
    var net: set<Packet>, ps: set<Request>;
    b, net, ps := FirstCommitted();
    var x, y := Up(OneB()), Up(OneC());
    BatchOfOne();
    Changed(HostA(CommittedA(), ps), x, y, WaitingA(ps));
    assert map[][1 := REQUEST] == map[1 := REQUEST];
    b := Waits(b, Hosts(HostA(CommittedA(), ps), x, y), net, A, REQUEST);
    Changed(WaitingA(ps), x, y, AnswersA(ps));
    b := AppliesNext(b, Hosts(WaitingA(ps), x, y), net, A, AnswersA(ps));
    Changed(AnswersA(ps), x, y, AnswersA(ps));
    b, c := Acknowledges(b, Hosts(AnswersA(ps), x, y), net, A, REQUEST);
  }

  // ---- C starts to apply the first entry, A and B commit the second ----------------------------

  function BusyC(): Host { Up(OneC()).(kv := map["k" := "v"], applier := Applying([E1], 1)) }

  lemma StartsApplying(b: seq<State>, a: Host, x: Host, net: set<Packet>) returns (b': seq<State>)
    requires EndsWith(b, Hosts(a, x, Up(OneC())), net)
    ensures EndsWith(b', Hosts(a, x, BusyC()), net)
  {
    hide Run, EndsWith, Formed, BatchFinished, OneC;
    ShapeC();
    FormedFollower(OneC(), C, A, B, [Sentinel(0, 0), E1], 1);
    var c, taken := Up(OneC()), Up(OneC()).(applier := Applying([E1], 0));
    Changed(a, x, c, taken);
    assert OneC().log[1..][..1] == [E1];
    b' := AppliesNext(b, Hosts(a, x, c), net, C, taken);
    Changed(a, x, taken, BusyC());
    assert map[]["k" := "v"] == map["k" := "v"];
    NobodyWaits(c.waiters, 1);
    b' := AppliesNext(b', Hosts(a, x, taken), net, C, BusyC());
  }

  lemma SecondCommitted() returns (b: seq<State>, net: set<Packet>, a: Host)
    ensures EndsWith(b, Hosts(a, Up(TwoB()), BusyC()), net) && a == HostA(DoneA(), a.proposed)
  {
    hide Run, EndsWith, OnAppendReply, Formed, BusyC, CommittedA, OneB, DoneA, Carrying, NextEntry, Storing, Stored;
    var ps: set<Request>, h: Host;
    b, net, ps := FirstCommitted();
    a := HostA(CommittedA(), ps);
    b := StartsApplying(b, a, Up(OneB()), net);
    SecondStep();
    SecondReply();
    Changed(a, Up(OneB()), BusyC(), a);
    Ready(a, Up(OneB()), B);
    b, net, h := Replicates(b, Hosts(a, Up(OneB()), BusyC()), net, A, B, E2.command);
    Changed(a, Up(OneB()), BusyC(), h);
    Changed(h, Up(OneB()), BusyC(), Up(TwoB()));
    a := h.(node := DoneA());
    Changed(h, Up(TwoB()), BusyC(), a);
    b := Receives(b, Hosts(h, Up(TwoB()), BusyC()), net, AppendRepPacket(A, B, MORE, Yes(1)), DoneA(), {});
    net := net + {};
  }

  lemma Ready(h: Host, g: Host, q: NodeId)
    requires MayExtend(Up(h.node), Up(g.node), q) && h.up && g.up
    ensures MayExtend(h, g, q)
  {
  }

  lemma SecondStep()
    ensures MayExtend(Up(CommittedA()), Up(OneB()), B) && CommittedA().id == A && CommittedA().currentTerm == 1
    ensures Carrying(CommittedA(), E2.command) == MORE && NextEntry(CommittedA(), E2.command) == E2
  {
    hide CommittedA, OneB, MayExtend, Formed;
    ShapesA();
    ShapesB();
    FormedA(CommittedA(), [Sentinel(0, 0), E1], 1, 2, 1);
    FormedFollower(OneB(), B, A, C, [Sentinel(0, 0), E1], 0);
    TwoMayExtend(CommittedA(), OneB(), B, B, C);
  }

  lemma SecondReply()
    ensures Formed(TwoA()) && OnAppendReply(TwoA(), B, MORE, Yes(1)) == DoneA()
  {
    hide CommittedA, Decided, OnAppendReply, Storing, Formed;
    ShapesA();
    FormedA(TwoA(), [Sentinel(0, 0), E1, E2], 1, 2, 1);
    Decides(TwoA(), B, MORE);
  }

  // ---- A applies both, compacts, and sends C its snapshot --------------------------------------

  const SNAP := Snapshot(2, 1, map[])
  const SHIPPED := SnapshotArgs(1, A, SNAP)
  const SNAP_TO_C := SnapReqPacket(C, SHIPPED)
  const C_HAS := SnapRepPacket(A, C, SHIPPED, SnapshotReply(1))

  function CompactA(): Node {
    DoneA().(lastApplied := 2, log := [Sentinel(2, 1)], disk := DoneA().disk.(snap := Some(SNAP), wal := []))
  }

  /** A leads with everything compacted, and these cursors for C. */
  ghost predicate CompactedByA(n: Node, next: nat, matched: nat) {
    && n.id == A && n.peers == [B, C] && n.threshold == 1 && n.currentTerm == 1 && n.state == Leader
    && n.log == [Sentinel(2, 1)] && n.commitIndex == n.lastApplied == 2 && n.pending == None
    && n.nextIndex == map[B := 3, C := next] && n.matchIndex == map[B := 2, C := matched]
    && n.disk.snap == Some(SNAP)
  }

  lemma CompactShape()
    ensures CompactedByA(CompactA(), 1, 0)
  {
    hide DoneA;
    ShapesA();
  }

  lemma CompactsA(a: Host)
    requires a == HostA(DoneA(), a.proposed)
    ensures TwoToApply(a, E1, E2) && CompactedBoth(a, E1, E2) == a.(node := CompactA())
  {
    hide DoneA, Formed;
    ShapesA();
    FormedA(DoneA(), [Sentinel(0, 0), E1, E2], 2, 3, 2);
    assert map[]["k" := "v"] == map["k" := "v"] && map["k" := "v"] - {"k"} == map[];
  }

  lemma SnapshotGoesOut()
    ensures SendsPacket(Up(CompactA()), C, SNAP_TO_C)
  {
    hide CompactA;
    CompactShape();
  }

  /** The snapshot is on its way to C, which is in the middle of its batch. */
  lemma SnapshotUnderWay() returns (b: seq<State>, a: Host, x: Host)
    ensures EndsWith(b, Hosts(a, x, BusyC()), {SNAP_TO_C}) && a == Up(CompactA()).(proposed := a.proposed)
  {
    hide Run, EndsWith, TwoToApply, CompactedBoth, BusyC, DoneA, CompactA, Outbound, MaySend;
    var net: set<Packet>;
    b, net, a := SecondCommitted();
    x := Up(TwoB());
    CompactsA(a);
    Changed(a, x, BusyC(), a.(node := CompactA()));
    b := AppliesTwo(b, Hosts(a, x, BusyC()), net, A, E1, E2);
    a := a.(node := CompactA());
    SnapshotGoesOut();
    OtherHost(a, Up(CompactA()), C, SNAP_TO_C);
    Changed(a, x, BusyC(), a);
    b := SendsTo(b, Hosts(a, x, BusyC()), net, A, C, SNAP_TO_C);
    LessNet(b, Hosts(a, x, BusyC()), net + {SNAP_TO_C}, {SNAP_TO_C});
  }

  lemma LessNet(b: seq<State>, hosts: map<NodeId, Host>, net: set<Packet>, less: set<Packet>)
    requires EndsWith(b, hosts, net) && less <= net
    ensures EndsWith(b, hosts, less)
  {
    hide Run;
  }

  // ---- What can happen to C now ----------------------------------------------------------------

  /** The snapshot trigger really does index outside the log: a run after which C finishes its batch
      and panics. */
  lemma TriggerOverruns() returns (b: seq<State>, c: State)
    ensures RunsTo(b, c) && AboutToOverrun(c, C)
  {
    hide Run, RunsTo, EndsWith, OnInstallSnapshot, Formed, Overruns, OneC, InstalledC, OnAppendEntries;
    var a: Host, x: Host;
    b, a, x := SnapshotUnderWay();
    var y := BusyC().(node := InstalledC());
    Installs();
    Changed(a, x, BusyC(), y);
    b := Receives(b, Hosts(a, x, BusyC()), {SNAP_TO_C}, SNAP_TO_C, InstalledC(), {C_HAS});
    InstalledOverruns();
    Changed(a, x, y, y);
    c := EndsThere(b, Hosts(a, x, y), {SNAP_TO_C} + {C_HAS});
  }

  /** The host can finish its batch, and doing so indexes outside the log. */
  ghost predicate AboutToOverrun(c: State, p: NodeId) {
    Can(c, FinishBatch(p)) && p in c.hosts && Overruns(c.hosts[p])
  }

  function InstalledC(): Node {
    OneC().(log := [Sentinel(2, 1)], commitIndex := 2, pending := Some(SNAP),
            disk := OneC().disk.(snap := Some(SNAP), wal := []))
  }

  lemma Installs()
    ensures Formed(OneC()) && OnInstallSnapshot(OneC(), SnapshotArgs(1, A, SNAP)) == (InstalledC(), SnapshotReply(1))
  {
    hide TermOf;
    assert AppendRecords([]) == [] && [Sentinel(2, 1)] + [] == [Sentinel(2, 1)];
  }

  lemma InstalledOverruns()
    ensures Formed(InstalledC()) && Overruns(BusyC().(node := InstalledC()))
  {
    hide TermOf;
    assert (1 - 2) % UINT64 == UINT64 - 1;
  }

  /** The gap really does open: a run after which a crash of C between the two writes of the install
      leaves a disk that C comes back from, and that is lost with the next entry C stores. */
  lemma GapOpens(e: LogEntry) returns (b: seq<State>, c: State)
    requires e.index == 3
    ensures RunsTo(b, c) && SNAP_TO_C in c.net && C in c.hosts && GapAhead(c.At(C).node, e)
  {
    hide Run, RunsTo, EndsWith, GapAhead, OneC;
    var a: Host, x: Host;
    b, a, x := SnapshotUnderWay();
    Changed(a, x, BusyC(), BusyC());
    GapAheadOfC(e);
    c := EndsThere(b, Hosts(a, x, BusyC()), {SNAP_TO_C});
  }

  /** A crash in the middle of installing the snapshot is survived, but not the next entry after it. */
  ghost predicate GapAhead(n: Node, e: LogEntry) {
    && Installing(n, [E1], 0, SNAP) && ComesBack(n, WindowDisk(n, SNAP)).Some?
    && ComesBack(n, WindowDisk(n, SNAP).(wal := n.disk.wal + [AppendRecord(e)])) == None
  }

  lemma GapAheadOfC(e: LogEntry)
    requires e.index == 3
    ensures GapAhead(OneC(), e)
  {
    hide ComesBack, Installing, OneC;
    ShapeC();
    StoredByC();
    WindowRecovers(OneC(), [E1], 0, SNAP);
    assert Leftover([E1], SNAP) == [] && [E1][0..] == [E1];
    WindowLeavesGap(OneC(), [E1], 0, SNAP, e);
  }

  lemma StoredByC()
    ensures Installing(OneC(), [E1], 0, SNAP)
  {
    hide Replay, AppendRecords, Numbered;
    assert [E1][0..] == [E1] && Compacted([E1], 0) == [Sentinel(0, 0), E1];
    ReplayCompacted([E1], 0);
    assert [] + AppendRecords([E1]) == AppendRecords([E1]);
  }

  // ---- C is lost -------------------------------------------------------------------------------

  const E3 := LogEntry(1, 3, Put("k", "w"))
  const LATER := AppendArgs(1, A, 2, 1, [E3], 2)

  /** C after the crash, and after A has sent it the snapshot once more. */
  function TornC(): Host { TornHost(BusyC(), SHIPPED) }

  function BackC(): Node {
    Node(C, [A, B], 1, 1, None, [Sentinel(2, 1)], 2, 2, map[], map[], Follower, None, 0, {}, None,
         TornSave(OneC(), SHIPPED))
  }

  function LedC(): Node { BackC().(leaderID := Some(A)) }

  function CaughtA(): Node { CompactA().(nextIndex := map[B := 3, C := 3], matchIndex := map[B := 2, C := 2]) }

  function MoreOnC(): Node { Stored(LedC(), LATER) }

  lemma ComesBackAtSnapshot()
    ensures TornC() == Host(BackC(), map[], Idle, {}, map[], Gapped, true)
  {
    hide Recover, OneC, BackC;
    RecoversC();
    OneCFields();
  }

  lemma OneCFields()
    ensures LastLogIndex(OneC().log) == 1 && OneC().disk == Observe(OneC(), 1).disk
    ensures OneC().id == C && OneC().peers == [A, B] && OneC().threshold == 1
  {
    hide AppendRecords;
  }

  lemma RecoversC()
    ensures Recover(C, [A, B], 1, TornSave(OneC(), SHIPPED)) == Some(BackC())
  {
    StoredByC();
    OneCFields();
    assert Leftover([E1], SNAP) == [];
    WindowRecovers(OneC(), [E1], 0, SNAP);
    hide Replay, Beyond, AppendRecords;
    assert [Sentinel(2, 1)] + [] == [Sentinel(2, 1)];
  }

  lemma SnapshotAgain()
    ensures Formed(OneC()) && OneC().currentTerm == 1 && OneC().commitIndex == 1
    ensures Formed(BackC()) && OnInstallSnapshot(BackC(), SHIPPED) == (LedC(), SnapshotReply(1))
  {
    hide AppendRecords, OneC;
    ShapeC();
    FormedFollower(OneC(), C, A, B, [Sentinel(0, 0), E1], 1);
  }

  lemma CaughtUp()
    ensures Formed(CompactA()) && OnSnapshotReply(CompactA(), C, SHIPPED, SnapshotReply(1)) == CaughtA()
    ensures CompactedByA(CaughtA(), 3, 2)
  {
    hide CompactA;
    CompactShape();
    assert map[B := 3, C := 1][C := 3] == map[B := 3, C := 3] && map[B := 2, C := 0][C := 2] == map[B := 2, C := 2];
  }

  lemma OneMore()
    ensures MayExtend(Up(CaughtA()), Up(LedC()), C) && CaughtA().id == A && Carrying(CaughtA(), E3.command) == LATER
  {
    hide CaughtA, OneC, MayExtend, LedC;
    CaughtUp();
    SnapshotAgain();
    TwoMayExtend(CaughtA(), LedC(), C, B, C);
  }

  lemma Unreadable(h: Host)
    requires h == TornC().(node := MoreOnC())
    ensures Reboot(h, h.node.disk) == h.(up := false)
  {
    hide Reboot, AppendRecords, TornC, MoreOnC, Installing, OneC, ComesBack;
    StoredByC();
    assert [E1][0..] == [E1] && Leftover([E1], SNAP) == [];
    hide Replay, Beyond;
    WindowLeavesGap(OneC(), [E1], 0, SNAP, E3);
    LostDisk(h);
  }

  lemma LostDisk(h: Host)
    requires h == TornC().(node := MoreOnC())
    requires ComesBack(OneC(), WindowDisk(OneC(), SNAP).(wal := OneC().disk.wal + [AppendRecord(E3)])) == None
    ensures Reboot(h, h.node.disk) == h.(up := false)
  {
    hide Replay, Beyond, TornC, OneC;
    ShapeC();
    assert AppendRecords([E3]) == [AppendRecord(E3)];
  }

  /** A host really can be lost: a run in which C crashes between the two writes of an install, comes
      back, stores one more entry, crashes again, and cannot be started any more. */
  lemma HostIsLost() returns (b: seq<State>, c: State)
    ensures RunsTo(b, c) && C in c.hosts && !c.At(C).up
  {
    hide Run, RunsTo, EndsWith, OnInstallSnapshot, OnSnapshotReply, OnAppendEntries, Propose, Outbound, MaySend, Formed,
         BusyC, OneC, CompactA, Reboot, TornSave, MoreOnC, CaughtA, BackC, TornHost, OnAppendReply;
    var a: Host, x: Host;
    b, a, x := SnapshotUnderWay();
    SnapshotAgain();
    ComesBackAtSnapshot();
    var net: set<Packet> := {SNAP_TO_C};
    BusyIsUp();
    Changed(a, x, BusyC(), TornC());
    b := TearsInstall(b, Hosts(a, x, BusyC()), net, SNAP_TO_C, TornC());
    var y := TornC().(node := LedC());
    Changed(a, x, TornC(), y);
    b := Receives(b, Hosts(a, x, TornC()), net, SNAP_TO_C, LedC(), {C_HAS});
    net := net + {C_HAS};
    b, net, a := StoresOnC(b, net, a, x, y);
    y := y.(node := MoreOnC());
    Unreadable(y);
    Changed(a, x, y, y.(up := false));
    b := Crashes(b, Hosts(a, x, y), net, C);
    Changed(a, x, y.(up := false), y);
    c := EndsThere(b, Hosts(a, x, y.(up := false)), net);
  }

  lemma BusyIsUp()
    ensures BusyC().up && BusyC().node == OneC()
  {
  }

  lemma StoresOnC(b: seq<State>, net: set<Packet>, a: Host, x: Host, c: Host)
    returns (b': seq<State>, net': set<Packet>, a': Host)
    requires EndsWith(b, Hosts(a, x, c), net) && C_HAS in net
    requires a == Up(CompactA()).(proposed := a.proposed) && c.node == LedC() && c.up
    ensures EndsWith(b', Hosts(a', x, c.(node := MoreOnC())), net')
  {
    hide Run, EndsWith, OnSnapshotReply, Formed, CompactA, CaughtA, LedC, Carrying, Stored, MayExtend, Storing;
    CaughtUp();
    OneMore();
    a' := a.(node := CaughtA());
    Changed(a, x, c, a');
    b' := Receives(b, Hosts(a, x, c), net, C_HAS, CaughtA(), {});
    net' := net + {};
    Ready(a', c, C);
    Changed(a', x, c, a');
    var h: Host;
    b', net', h := Replicates(b', Hosts(a', x, c), net', A, C, E3.command);
    Changed(a', x, c, h);
    Changed(h, x, c, c.(node := MoreOnC()));
    a' := h;
  }
}
