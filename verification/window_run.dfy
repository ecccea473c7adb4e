/**
 A run of five nodes in which a crash between the two writes of an install changes a vote. B leads term
 1 and stores two entries on A alone. C leads term 2, commits another first entry with D and E,
 compacts it and sends A the snapshot. Meanwhile B stands for election in term 3 with its old log.
 */
module WindowRun {
  import opened Types
  import opened SentinelLog
  import opened WalRecords
  import opened NodeState
  import opened Cluster
  import opened InstallWindow
  import opened Scenario
  import opened Logs
  import opened ClusterSafety
  import opened ClusterProperties
  import R = NodeRelation

  const A := NodeId("a")
  const B := NodeId("b")
  const C := NodeId("c")
  const D := NodeId("d")
  const E := NodeId("e")
  const X1 := LogEntry(1, 1, Put("x", "1"))
  const X2 := LogEntry(1, 2, Put("x", "2"))
  const Y1 := LogEntry(2, 1, Put("y", "1"))

  function Hosts(a: Host, b: Host, c: Host, d: Host, e: Host): map<NodeId, Host> {
    map[A := a, B := b, C := c, D := d, E := e]
  }

  lemma Changed(a: Host, b: Host, c: Host, d: Host, e: Host, x: Host)
    ensures var h := Hosts(a, b, c, d, e);
      && h[A := x] == Hosts(x, b, c, d, e) && h[B := x] == Hosts(a, x, c, d, e) && h[C := x] == Hosts(a, b, x, d, e)
      && h[D := x] == Hosts(a, b, c, x, e) && h[E := x] == Hosts(a, b, c, d, x)
      && h.Keys == {A, B, C, D, E} && h[A] == a && h[B] == b && h[C] == c && h[D] == d && h[E] == e
  {
    Members(a, b, c, d, e);
    var h := Hosts(a, b, c, d, e);
    assert h[A := x] == Hosts(x, b, c, d, e);
    assert h[B := x] == Hosts(a, x, c, d, e);
    assert h[C := x] == Hosts(a, b, x, d, e);
    assert h[D := x] == Hosts(a, b, c, x, e);
    assert h[E := x] == Hosts(a, b, c, d, x);
  }

  function FreshA(): Node { Fresh(A, [B, C, D, E]) }

  function FreshB(): Node { Fresh(B, [A, C, D, E]) }

  function FreshC(): Node { Fresh(C, [A, B, D, E]) }

  function FreshD(): Node { Fresh(D, [A, B, C, E]) }

  function FreshE(): Node { Fresh(E, [A, B, C, D]) }

  lemma AllOthers(p: NodeId, x: NodeId, y: NodeId, z: NodeId, w: NodeId, members: set<NodeId>)
    requires p != x && p != y && p != z && p != w && x != y && x != z && x != w && y != z && y != w && z != w
    requires members == {p, x, y, z, w}
    ensures Configured(p, [x, y, z, w], members)
  {
    assert (set q | q in [x, y, z, w]) == {x, y, z, w};
  }

  lemma FiveConfigured()
    ensures var all := {A, B, C, D, E};
      && Configured(A, [B, C, D, E], all) && Configured(B, [A, C, D, E], all) && Configured(C, [A, B, D, E], all)
      && Configured(D, [A, B, C, E], all) && Configured(E, [A, B, C, D], all)
  {
    hide Configured;
    var all := {A, B, C, D, E};
    AllOthers(A, B, C, D, E, all);
    AllOthers(B, A, C, D, E, all);
    AllOthers(C, A, B, D, E, all);
    AllOthers(D, A, B, C, E, all);
    AllOthers(E, A, B, C, D, all);
  }

  lemma Starts() returns (b: seq<State>)
    ensures EndsWith(b, Hosts(Up(FreshA()), Up(FreshB()), Up(FreshC()), Up(FreshD()), Up(FreshE())), {})
  {
    hide Hosts, EndsWith, Configured, Fresh, Up, Run;
    FiveConfigured();
    var hosts := Hosts(Up(FreshA()), Up(FreshB()), Up(FreshC()), Up(FreshD()), Up(FreshE()));
    Changed(Up(FreshA()), Up(FreshB()), Up(FreshC()), Up(FreshD()), Up(FreshE()), Up(FreshA()));
    var peers := map[A := [B, C, D, E], B := [A, C, D, E], C := [A, B, D, E], D := [A, B, C, E], E := [A, B, C, D]];
    assert hosts.Keys == peers.Keys;
    b := Begins(hosts, peers);
  }

  lemma Members(a: Host, b: Host, c: Host, d: Host, e: Host)
    ensures Hosts(a, b, c, d, e).Keys == {A, B, C, D, E}
  {
  }

  // ---- Electing a leader of five ---------------------------------------------------------------

  /** A candidate of term t with this many votes, still waiting for some peers. */
  function Standing(n: Node, t: nat, votes: nat, waiting: set<NodeId>): Node {
    InTerm(n, t, n.id).(state := Candidate, votes := votes, unanswered := waiting, leaderID := None)
  }

  function Leading(n: Node, t: nat, waiting: set<NodeId>): Node
    requires |n.log| >= 1
  {
    InTerm(n, t, n.id).(state := Leader, votes := 3, unanswered := waiting, leaderID := Some(n.id),
                        nextIndex := map q | q in n.peers :: LastLogIndex(n.log) + 1,
                        matchIndex := map q | q in n.peers :: 0)
  }

  lemma StandsUp(n: Node, waiting: set<NodeId>)
    requires |n.log| >= 1 && |n.peers| == 4 && waiting == set q | q in n.peers
    ensures StartElection(n) == Standing(n, n.currentTerm + 1, 1, waiting)
  {
  }

  lemma Counts(n: Node, t: nat, waiting: set<NodeId>, from: NodeId)
    requires |n.log| >= 1 && |n.peers| == 4 && from in waiting
    ensures OnVoteReply(Standing(n, t, 1, waiting), from, t, VoteReply(t, true)) == Standing(n, t, 2, waiting - {from})
    ensures OnVoteReply(Standing(n, t, 2, waiting), from, t, VoteReply(t, true)) == Leading(n, t, waiting - {from})
  {
  }

  const ASK1 := VoteArgs(1, B, 0, 0)
  const YES1 := VoteReply(1, true)
  const A_VOTES := VoteRepPacket(B, A, 1, YES1)
  const C_VOTES := VoteRepPacket(B, C, 1, YES1)

  function CandidateB(): Node { Standing(FreshB(), 1, 1, {A, C, D, E}) }

  function VotedA(): Node { InTerm(FreshA(), 1, B) }

  function VotedC(): Node { InTerm(FreshC(), 1, B) }

  function LeaderB(): Node { Leading(FreshB(), 1, {D, E}) }

  lemma FormedFive(n: Node)
    requires Numbered(n.log) && Base(n.log) <= n.commitIndex <= LastLogIndex(n.log) && |n.peers| == 4
    requires n.id !in n.peers
    requires n.peers[0] != n.peers[1] && n.peers[0] != n.peers[2] && n.peers[0] != n.peers[3]
    requires n.peers[1] != n.peers[2] && n.peers[1] != n.peers[3] && n.peers[2] != n.peers[3]
    requires n.state == Leader ==> forall q | q in n.peers :: q in n.nextIndex && q in n.matchIndex
    ensures Formed(n)
  {
  }

  lemma ElectsB() returns (b: seq<State>, net: set<Packet>)
    ensures EndsWith(b, Hosts(Up(VotedA()), Up(LeaderB()), Up(VotedC()), Up(FreshD()), Up(FreshE())), net)
  {
    hide Hosts, Run, EndsWith, StartElection, OnVoteReply, OnRequestVote, Formed;
    b := Starts();
    var a, x, c, d, e := Up(FreshA()), Up(FreshB()), Up(FreshC()), Up(FreshD()), Up(FreshE());
    var all := {A, C, D, E};
    assert (set q | q in [A, C, D, E]) == all;
    var y := Up(Standing(FreshB(), 1, 1, all));
    FormedFive(x.node);
    StandsUp(x.node, all);
    Changed(a, x, c, d, e, y);
    b := TimesOut(b, Hosts(a, x, c, d, e), {}, B);
    net := {} + set q | q in [A, C, D, E] :: VoteReqPacket(q, ASK1);
    assert VoteReqPacket(A, ASK1) in net && VoteReqPacket(C, ASK1) in net;
    b, net := VotesForB(b, net, y, d, e);
    b, net := CountsVotes(b, net, Up(VotedA()), Up(VotedC()), d, e);
  }

  lemma VotesForB(b: seq<State>, net: set<Packet>, y: Host, d: Host, e: Host)
    returns (b': seq<State>, net': set<Packet>)
    requires EndsWith(b, Hosts(Up(FreshA()), y, Up(FreshC()), d, e), net)
    requires VoteReqPacket(A, ASK1) in net && VoteReqPacket(C, ASK1) in net
    ensures EndsWith(b', Hosts(Up(VotedA()), y, Up(VotedC()), d, e), net')
    ensures A_VOTES in net' && C_VOTES in net'
  {
    hide Hosts, Run, EndsWith, OnRequestVote, Formed, OnAppendEntries;
    var a, c := Up(FreshA()), Up(FreshC());
    Grants(a.node, ASK1);
    Grants(c.node, ASK1);
    FormedFive(a.node);
    FormedFive(c.node);
    Changed(a, y, c, d, e, Up(VotedA()));
    b' := Receives(b, Hosts(a, y, c, d, e), net, VoteReqPacket(A, ASK1), VotedA(), {A_VOTES});
    net' := net + {A_VOTES};
    a := Up(VotedA());
    Changed(a, y, c, d, e, Up(VotedC()));
    b' := Receives(b', Hosts(a, y, c, d, e), net', VoteReqPacket(C, ASK1), VotedC(), {C_VOTES});
    net' := net' + {C_VOTES};
  }

  lemma CountsVotes(b: seq<State>, net: set<Packet>, a: Host, c: Host, d: Host, e: Host)
    returns (b': seq<State>, net': set<Packet>)
    requires EndsWith(b, Hosts(a, Up(CandidateB()), c, d, e), net)
    requires A_VOTES in net && C_VOTES in net
    ensures EndsWith(b', Hosts(a, Up(LeaderB()), c, d, e), net')
  {
    hide Hosts, Run, EndsWith, OnVoteReply, Formed, OnAppendEntries;
    var all := {A, C, D, E};
    var y, z := Up(Standing(FreshB(), 1, 1, all)), Up(Standing(FreshB(), 1, 2, all - {A}));
    Counts(FreshB(), 1, all, A);
    Counts(FreshB(), 1, all - {A}, C);
    assert all - {A} - {C} == {D, E};
    FormedFive(y.node);
    FormedFive(z.node);
    Changed(a, y, c, d, e, z);
    b' := Receives(b, Hosts(a, y, c, d, e), net, A_VOTES, z.node, {});
    Changed(a, z, c, d, e, Up(LeaderB()));
    b' := Receives(b', Hosts(a, z, c, d, e), net + {}, C_VOTES, LeaderB(), {});
    net' := net + {} + {};
  }

  // ---- B stores two entries on A ---------------------------------------------------------------

  const COPY := AppendArgs(1, B, 0, 0, [X1, X2], 0)

  function OneB(): Node { Storing(LeaderB(), [X1]) }

  function OldB(): Node { Storing(OneB(), [X2]) }

  function OldA(): Node { Storing(VotedA(), [X1, X2]).(leaderID := Some(B)) }

  lemma StoresOnB()
    ensures Formed(LeaderB()) && Formed(OneB()) && OneB().state == Leader && |OneB().log| >= 1
    ensures Propose(LeaderB(), X1.command) == OneB() && Propose(OneB(), X2.command) == OldB()
  {
    hide Propose, Formed, AppendRecords, QuorumSize, Numbered;
    FormedFive(LeaderB());
    FormedFive(OneB());
    FiveNeedThree(LeaderB());
    Appends(LeaderB(), X1.command);
    Appends(OneB(), X2.command);
  }

  lemma StoresOnA()
    ensures MaySend(OldB(), A) && Formed(VotedA()) && Outbound(OldB(), A) == SendEntries(COPY)
    ensures OnAppendEntries(VotedA(), COPY) == Replied(OldA(), AppendReply(1, true, 0, 0))
  {
    hide OnAppendEntries, Formed, AppendRecords;
    FormedFive(OldB());
    FormedFive(VotedA());
    assert OldB().log[1..] == [X1, X2];
    TakesEntries(VotedA(), COPY);
  }

  lemma FiveNeedThree(n: Node)
    requires |n.peers| == 4
    ensures QuorumSize(n.peers) == 3
  {
  }

  lemma CopiesToA() returns (b: seq<State>, net: set<Packet>, y: Host)
    ensures y == Up(OldB()).(proposed := y.proposed)
    ensures EndsWith(b, Hosts(Up(OldA()), y, Up(VotedC()), Up(FreshD()), Up(FreshE())), net)
  {
    hide Hosts, Run, EndsWith, Propose, OnAppendEntries, Outbound, Formed, MaySend, Storing;
    b, net := ElectsB();
    StoresOnB();
    StoresOnA();
    var a, c, d, e := Up(VotedA()), Up(VotedC()), Up(FreshD()), Up(FreshE());
    var x := Up(LeaderB());
    y := x.(node := OneB(), proposed := x.proposed + {RequestFor(LeaderB(), X1.command)});
    Changed(a, x, c, d, e, y);
    b := Proposes(b, Hosts(a, x, c, d, e), net, B, X1.command);
    x := y;
    y := x.(node := OldB(), proposed := x.proposed + {RequestFor(OneB(), X2.command)});
    Changed(a, x, c, d, e, y);
    b := Proposes(b, Hosts(a, x, c, d, e), net, B, X2.command);
    Changed(a, y, c, d, e, Up(OldA()));
    b := SendsTo(b, Hosts(a, y, c, d, e), net, B, A, AppendReqPacket(A, COPY));
    net := net + {AppendReqPacket(A, COPY)};
    b := Receives(b, Hosts(a, y, c, d, e), net, AppendReqPacket(A, COPY), OldA(),
                  {AppendRepPacket(B, A, COPY, AppendReply(1, true, 0, 0))});
    net := net + {AppendRepPacket(B, A, COPY, AppendReply(1, true, 0, 0))};
  }

  // ---- C is elected by D and E -----------------------------------------------------------------

  const ASK2 := VoteArgs(2, C, 0, 0)
  const YES2 := VoteReply(2, true)
  const D_VOTES := VoteRepPacket(C, D, 2, YES2)
  const E_VOTES := VoteRepPacket(C, E, 2, YES2)

  function CandidateC(): Node { Standing(VotedC(), 2, 1, {A, B, D, E}) }

  function VotedD(): Node { InTerm(FreshD(), 2, C) }

  function VotedE(): Node { InTerm(FreshE(), 2, C) }

  function LeaderC(): Node { Leading(VotedC(), 2, {A, B}) }

  lemma ElectsC() returns (b: seq<State>, net: set<Packet>, y: Host)
    ensures y == Up(OldB()).(proposed := y.proposed) && VoteReqPacket(B, ASK2) in net
    ensures EndsWith(b, Hosts(Up(OldA()), y, Up(LeaderC()), Up(VotedD()), Up(VotedE())), net)
  {
    hide Hosts, Run, EndsWith, StartElection, OnVoteReply, OnRequestVote, Formed, Storing;
    b, net, y := CopiesToA();
    var a, c, d, e := Up(OldA()), Up(VotedC()), Up(FreshD()), Up(FreshE());
    var all := {A, B, D, E};
    assert (set q | q in [A, B, D, E]) == all;
    var s := Up(Standing(VotedC(), 2, 1, all));
    FormedFive(c.node);
    StandsUp(c.node, all);
    Changed(a, y, c, d, e, s);
    b := TimesOut(b, Hosts(a, y, c, d, e), net, C);
    net := net + set q | q in [A, B, D, E] :: VoteReqPacket(q, ASK2);
    assert VoteReqPacket(D, ASK2) in net && VoteReqPacket(E, ASK2) in net && VoteReqPacket(B, ASK2) in net;
    b, net := VotesForC(b, net, a, y, s);
    b := CountsForC(b, net, a, y, Up(VotedD()), Up(VotedE()));
    net := net + {} + {};
  }

  lemma VotesForC(b: seq<State>, net: set<Packet>, a: Host, y: Host, s: Host)
    returns (b': seq<State>, net': set<Packet>)
    requires EndsWith(b, Hosts(a, y, s, Up(FreshD()), Up(FreshE())), net)
    requires VoteReqPacket(D, ASK2) in net && VoteReqPacket(E, ASK2) in net
    ensures EndsWith(b', Hosts(a, y, s, Up(VotedD()), Up(VotedE())), net') && net <= net'
    ensures D_VOTES in net' && E_VOTES in net'
  {
    hide Hosts, Run, EndsWith, OnRequestVote, Formed;
    var d, e := Up(FreshD()), Up(FreshE());
    Grants(d.node, ASK2);
    Grants(e.node, ASK2);
    FormedFive(d.node);
    FormedFive(e.node);
    Changed(a, y, s, d, e, Up(VotedD()));
    b' := Receives(b, Hosts(a, y, s, d, e), net, VoteReqPacket(D, ASK2), VotedD(), {D_VOTES});
    net' := net + {D_VOTES};
    d := Up(VotedD());
    Changed(a, y, s, d, e, Up(VotedE()));
    b' := Receives(b', Hosts(a, y, s, d, e), net', VoteReqPacket(E, ASK2), VotedE(), {E_VOTES});
    net' := net' + {E_VOTES};
  }

  lemma CountsForC(b: seq<State>, net: set<Packet>, a: Host, y: Host, d: Host, e: Host) returns (b': seq<State>)
    requires EndsWith(b, Hosts(a, y, Up(CandidateC()), d, e), net)
    requires D_VOTES in net && E_VOTES in net
    ensures EndsWith(b', Hosts(a, y, Up(LeaderC()), d, e), net + {} + {})
  {
    hide Hosts, Run, EndsWith, OnVoteReply, Formed, OnAppendEntries;
    var all := {A, B, D, E};
    var s, z := Up(Standing(VotedC(), 2, 1, all)), Up(Standing(VotedC(), 2, 2, all - {D}));
    Counts(VotedC(), 2, all, D);
    Counts(VotedC(), 2, all - {D}, E);
    assert all - {D} - {E} == {A, B};
    FormedFive(s.node);
    FormedFive(z.node);
    Changed(a, y, s, d, e, z);
    b' := Receives(b, Hosts(a, y, s, d, e), net, D_VOTES, z.node, {});
    Changed(a, y, z, d, e, Up(LeaderC()));
    b' := Receives(b', Hosts(a, y, z, d, e), net + {}, E_VOTES, LeaderC(), {});
  }

  // ---- C commits its entry with D and E, and compacts it ---------------------------------------

  const SEND := AppendArgs(2, C, 0, 0, [Y1], 0)
  const OK := AppendReply(2, true, 0, 0)
  const SNAP := Snapshot(1, 2, map["y" := "1"])
  const SHIPPED := SnapshotArgs(2, C, SNAP)
  const SNAP_TO_A := SnapReqPacket(A, SHIPPED)

  function OneC(): Node { Storing(LeaderC(), [Y1]) }

  /** C after D has answered, and after E has too. */
  function HalfC(): Node {
    OneC().(nextIndex := OneC().nextIndex[D := 2], matchIndex := OneC().matchIndex[D := 1])
  }

  function DoneC(): Node {
    HalfC().(nextIndex := HalfC().nextIndex[E := 2], matchIndex := HalfC().matchIndex[E := 1], commitIndex := 1)
  }

  function HolderD(): Node { Storing(VotedD(), [Y1]).(leaderID := Some(C)) }

  function HolderE(): Node { Storing(VotedE(), [Y1]).(leaderID := Some(C)) }

  lemma ShapesC()
    ensures OneC().log == HalfC().log == DoneC().log == [Sentinel(0, 0), Y1] && OneC().peers == [A, B, D, E]
    ensures OneC().matchIndex == map[A := 0, B := 0, D := 0, E := 0] && OneC().state == HalfC().state == Leader
    ensures OneC().currentTerm == 2 && OneC().commitIndex == 0
  {
    hide AppendRecords;
  }

  lemma FormedC()
    ensures Formed(LeaderC()) && Formed(OneC()) && Formed(HalfC()) && Formed(DoneC())
  {
    hide AppendRecords, Formed, Numbered;
    FormedFive(LeaderC());
    FormedFive(OneC());
    FormedFive(HalfC());
    FormedFive(DoneC());
  }

  lemma SendersC()
    ensures MaySend(OneC(), D) && MaySend(HalfC(), E)
  {
    hide AppendRecords, Formed, DoneC;
    FormedC();
  }

  lemma ProposedByC()
    ensures Formed(LeaderC()) && Propose(LeaderC(), Y1.command) == OneC()
  {
    hide Propose, AppendRecords, Formed, QuorumSize, HalfC, Storing;
    FormedC();
    FiveNeedThree(LeaderC());
    Appends(LeaderC(), Y1.command);
  }

  lemma OutOfC()
    ensures MaySend(OneC(), D) && Outbound(OneC(), D) == SendEntries(SEND)
    ensures MaySend(HalfC(), E) && Outbound(HalfC(), E) == SendEntries(SEND)
  {
    hide AppendRecords, MaySend, Formed, DoneC, OneC, LeaderC;
    ShapesC();
    OneCFields();
    FormedC();
    SendersC();
    assert [Sentinel(0, 0), Y1][1..] == [Y1];
  }

  lemma IntoHolders()
    ensures Formed(VotedD()) && OnAppendEntries(VotedD(), SEND) == Replied(HolderD(), OK)
    ensures Formed(VotedE()) && OnAppendEntries(VotedE(), SEND) == Replied(HolderE(), OK)
  {
    hide OnAppendEntries, AppendRecords, Formed;
    FormedFive(VotedD());
    FormedFive(VotedE());
    TakesEntries(VotedD(), SEND);
    TakesEntries(VotedE(), SEND);
  }

  lemma CountsFour(matched: map<NodeId, nat>)
    requires A in matched && B in matched && D in matched && E in matched
    requires matched[A] == matched[B] == 0 && matched[D] == 1
    ensures CountMatching([A, B, D, E], matched, 1) == 1 + if matched[E] >= 1 then 1 else 0
  {
    var s := [A, B, D, E];
    assert s[..3] == [A, B, D] && [A, B, D][..2] == [A, B] && [A, B][..1] == [A] && [A][..0] == [];
    assert CountMatching([A], matched, 1) == 0;
    assert CountMatching([A, B], matched, 1) == 0;
    assert CountMatching([A, B, D], matched, 1) == 1;
  }

  lemma RepliesToC()
    ensures Formed(OneC()) && OnAppendReply(OneC(), D, SEND, OK) == HalfC()
    ensures Formed(HalfC()) && OnAppendReply(HalfC(), E, SEND, OK) == DoneC()
  {
    hide AppendRecords, CountMatching, Formed, MaySend, OneC, LeaderC;
    ShapesC();
    FormedC();
    FiveNeedThree(OneC());
    CountsFour(HalfC().matchIndex);
    CountsFour(DoneC().matchIndex);
    assert CommitScan(HalfC(), 0) == 0;
  }

  lemma CommitsOnC() returns (b: seq<State>, net: set<Packet>, y: Host, z: Host)
    ensures y == Up(OldB()).(proposed := y.proposed) && VoteReqPacket(B, ASK2) in net
    ensures z == Up(DoneC()).(proposed := z.proposed)
    ensures EndsWith(b, Hosts(Up(OldA()), y, z, Up(HolderD()), Up(HolderE())), net)
  {
    hide Hosts, Run, EndsWith, Propose, OnAppendEntries, OnAppendReply, Outbound, Formed, MaySend, Storing, OneC, HalfC,
         DoneC, OnInstallSnapshot;
    b, net, y := ElectsC();
    ShapesC();
    FormedC();
    ProposedByC();
    OutOfC();
    IntoHolders();
    RepliesToC();
    var a, c, d, e := Up(OldA()), Up(LeaderC()), Up(VotedD()), Up(VotedE());
    z := c.(node := OneC(), proposed := c.proposed + {RequestFor(LeaderC(), Y1.command)});
    Changed(a, y, c, d, e, z);
    b := Proposes(b, Hosts(a, y, c, d, e), net, C, Y1.command);
    Changed(a, y, z, d, e, Up(HolderD()));
    b := SendsTo(b, Hosts(a, y, z, d, e), net, C, D, AppendReqPacket(D, SEND));
    net := net + {AppendReqPacket(D, SEND)};
    b := Receives(b, Hosts(a, y, z, d, e), net, AppendReqPacket(D, SEND), HolderD(), {AppendRepPacket(C, D, SEND, OK)});
    net := net + {AppendRepPacket(C, D, SEND, OK)};
    d := Up(HolderD());
    Changed(a, y, z, d, e, z.(node := HalfC()));
    b := Receives(b, Hosts(a, y, z, d, e), net, AppendRepPacket(C, D, SEND, OK), HalfC(), {});
    net := net + {};
    z := z.(node := HalfC());
    Changed(a, y, z, d, e, Up(HolderE()));
    b := SendsTo(b, Hosts(a, y, z, d, e), net, C, E, AppendReqPacket(E, SEND));
    net := net + {AppendReqPacket(E, SEND)};
    b := Receives(b, Hosts(a, y, z, d, e), net, AppendReqPacket(E, SEND), HolderE(), {AppendRepPacket(C, E, SEND, OK)});
    net := net + {AppendRepPacket(C, E, SEND, OK)};
    e := Up(HolderE());
    Changed(a, y, z, d, e, z.(node := DoneC()));
    b := Receives(b, Hosts(a, y, z, d, e), net, AppendRepPacket(C, E, SEND, OK), DoneC(), {});
    net := net + {};
    z := z.(node := DoneC());
  }

  function TakesC(z: Host): Host { z.(applier := Applying([Y1], 0)) }

  function AppliedC(z: Host): Host { z.(applier := Applying([Y1], 1), kv := map["y" := "1"]) }

  function CapturesC(z: Host): Host {
    z.(node := z.node.(lastApplied := 1), applier := Capturing(1, 2), kv := map["y" := "1"])
  }

  function CompactC(): Node {
    DoneC().(lastApplied := 1, log := [Sentinel(1, 2)], disk := DoneC().disk.(snap := Some(SNAP), wal := []))
  }

  function SnappedC(z: Host): Host { z.(node := CompactC(), kv := map["y" := "1"]) }

  lemma AppliesC(z: Host)
    requires z == Up(DoneC()).(proposed := z.proposed)
    ensures Formed(DoneC()) && Base(DoneC().log) == DoneC().lastApplied == 0 && DoneC().commitIndex == 1
    ensures DoneC().pending == None && Batch(DoneC()) == [Y1] && AppliedHost(TakesC(z)) == AppliedC(z)
  {
    hide AppendRecords, Formed, OneC, LeaderC;
    ShapesC();
    FormedC();
    OneCFields();
    assert [Sentinel(0, 0), Y1][1..][..1] == [Y1];
    assert map[]["y" := "1"] == map["y" := "1"];
    NobodyWaits(z.waiters, 1);
  }

  lemma OneCFields()
    ensures OneC().lastApplied == 0 && OneC().pending == None && OneC().threshold == 1 && OneC().id == C
    ensures OneC().nextIndex == map[A := 1, B := 1, D := 1, E := 1]
  {
    hide AppendRecords;
  }

  lemma CapturesAtC(z: Host)
    requires z == Up(DoneC()).(proposed := z.proposed)
    ensures BatchFinished(AppliedC(z)) == CapturesC(z)
  {
    hide AppendRecords, OneC, Reboot;
    ShapesC();
    OneCFields();
  }

  lemma CompactsC(z: Host)
    requires z == Up(DoneC()).(proposed := z.proposed)
    ensures Formed(CapturesC(z).node) && CaptureFinished(CapturesC(z)) == SnappedC(z)
  {
    hide AppendRecords, OneC, Formed;
    ShapesC();
    OneCFields();
    FormedFive(CapturesC(z).node);
    assert AppendRecords([]) == [];
    assert [Sentinel(1, 2)] + [] == [Sentinel(1, 2)];
  }

  lemma SnapshotGoesOut()
    ensures MaySend(CompactC(), A) && Outbound(CompactC(), A) == SendSnapshot(SnapshotArgs(2, C, SNAP))
  {
    hide AppendRecords, OneC, Formed, LeaderC;
    ShapesC();
    FormedC();
    OneCFields();
    FormedFive(CompactC());
  }

  lemma SnapshotToA() returns (b: seq<State>, net: set<Packet>, y: Host, z: Host)
    ensures y == Up(OldB()).(proposed := y.proposed) && VoteReqPacket(B, ASK2) in net
    ensures SNAP_TO_A in net
    ensures EndsWith(b, Hosts(Up(OldA()), y, z, Up(HolderD()), Up(HolderE())), net)
  {
    hide Hosts, Run, EndsWith, Batch, AppliedHost, BatchFinished, CaptureFinished, Outbound, Formed, MaySend, Storing,
         DoneC, CompactC;
    b, net, y, z := CommitsOnC();
    var a, d, e := Up(OldA()), Up(HolderD()), Up(HolderE());
    AppliesC(z);
    CapturesAtC(z);
    CompactsC(z);
    Changed(a, y, z, d, e, TakesC(z));
    b := AppliesNext(b, Hosts(a, y, z, d, e), net, C, TakesC(z));
    Changed(a, y, TakesC(z), d, e, AppliedC(z));
    b := AppliesNext(b, Hosts(a, y, TakesC(z), d, e), net, C, AppliedC(z));
    Changed(a, y, AppliedC(z), d, e, CapturesC(z));
    b := AppliesNext(b, Hosts(a, y, AppliedC(z), d, e), net, C, CapturesC(z));
    Changed(a, y, CapturesC(z), d, e, SnappedC(z));
    b := AppliesNext(b, Hosts(a, y, CapturesC(z), d, e), net, C, SnappedC(z));
    z := SnappedC(z);
    SnapshotGoesOut();
    Changed(a, y, z, d, e, z);
    b := SendsTo(b, Hosts(a, y, z, d, e), net, C, A, SNAP_TO_A);
    net := net + {SNAP_TO_A};
  }

  // ---- B stands again --------------------------------------------------------------------------

  const ASK3 := VoteArgs(3, B, 2, 1)

  function DeposedB(): Node {
    OldB().(currentTerm := 2, votedFor := None, leaderID := None, state := Follower,
            disk := OldB().disk.(hard := HardState(2, None)))
  }

  lemma StepsDown()
    ensures Formed(OldB()) && OnRequestVote(OldB(), ASK2) == (DeposedB(), VoteReply(2, false)) && Formed(DeposedB())
    ensures StartElection(DeposedB()) == Standing(DeposedB(), 3, 1, {A, C, D, E})
    ensures |DeposedB().log| >= 1 && VoteRequestOf(StartElection(DeposedB())) == ASK3
    ensures DeposedB().state == Follower && DeposedB().peers == [A, C, D, E]
  {
    hide AppendRecords, Formed, StartElection;
    FormedFive(OldB());
    FormedFive(DeposedB());
    assert (set q | q in [A, C, D, E]) == {A, C, D, E};
    StandsUp(DeposedB(), {A, C, D, E});
  }

  lemma StillPeers()
    ensures var n := StartElection(DeposedB()); A in n.peers && n.log == [Sentinel(0, 0), X1, X2]
  {
    hide AppendRecords, Formed, OnRequestVote, StartElection;
    StepsDown();
  }

  /** Both are on their way to A: the snapshot of C's committed entry, and B's request for a vote. */
  lemma BothUnderWay() returns (b: seq<State>, net: set<Packet>, y: Host, z: Host)
    ensures EndsWith(b, Hosts(Up(OldA()), y, z, Up(HolderD()), Up(HolderE())), net)
    ensures y.damage.Intact? && y.node.log == [Sentinel(0, 0), X1, X2]
    ensures SNAP_TO_A in net && VoteReqPacket(A, ASK3) in net
  {
    hide Hosts, Run, EndsWith, StartElection, OnRequestVote, Formed, Storing, DeposedB;
    b, net, y, z := SnapshotToA();
    var a, d, e := Up(OldA()), Up(HolderD()), Up(HolderE());
    StepsDown();
    Changed(a, y, z, d, e, y.(node := DeposedB()));
    b := Receives(b, Hosts(a, y, z, d, e), net, VoteReqPacket(B, ASK2), DeposedB(),
                  {VoteRepPacket(C, B, 2, VoteReply(2, false))});
    net := net + {VoteRepPacket(C, B, 2, VoteReply(2, false))};
    y := y.(node := DeposedB());
    Changed(a, y, z, d, e, y.(node := StartElection(DeposedB())));
    b := TimesOut(b, Hosts(a, y, z, d, e), net, B);
    var n := StartElection(DeposedB());
    net := net + set q | q in n.peers :: VoteReqPacket(q, VoteRequestOf(n));
    StillPeers();
    assert VoteReqPacket(A, ASK3) in net;
    y := y.(node := StartElection(DeposedB()));
  }

  // ---- The vote --------------------------------------------------------------------------------

  /** A with the snapshot installed, and A after a crash between the two writes of the install. */
  function IntactA(): Node { OnInstallSnapshot(OldA(), SHIPPED).0 }

  function TornA(): Host { TornHost(Up(OldA()), SHIPPED) }

  lemma InstallsAndRefuses()
    ensures Formed(OldA()) && OldA().currentTerm == 1 && OldA().commitIndex == 0
    ensures Numbered(IntactA().log) && !OnRequestVote(IntactA(), ASK3).1.granted
  {
    hide AppendRecords, Formed;
    FormedFive(OldA());
    assert OldA().log == [Sentinel(0, 0), X1, X2];
    assert IntactA().log == [Sentinel(1, 2)];
  }

  lemma ComesBackAndGrants()
    ensures TornA().up && TornA().damage.Tainted? && TornA().node.log == [Sentinel(1, 2), X2]
    ensures OnRequestVote(TornA().node, ASK3).1.granted
  {
    var f, full := Observe(OldA(), 2), [X1, X2];
    StoredByA(f);
    WindowRecovers(f, full, 0, SNAP);
    assert Leftover(full, SNAP) == [X2];
    hide Replay, Beyond, AppendRecords, Compacted;
    var r := ComesBack(f, WindowDisk(f, SNAP)).value;
    assert r.log == [Sentinel(1, 2), X2] && r.currentTerm == 2;
  }

  lemma StoredByA(f: Node)
    requires f.log == OldA().log && f.disk.wal == OldA().disk.wal && f.commitIndex == 0
    ensures Installing(f, [X1, X2], 0, SNAP)
  {
    hide Replay;
    assert [X1, X2][0..] == [X1, X2] && Compacted([X1, X2], 0) == [Sentinel(0, 0), X1, X2];
    ReplayCompacted([X1, X2], 0);
    assert [] + AppendRecords([X1, X2]) == AppendRecords([X1, X2]);
  }

  /** A can install the snapshot or crash in the middle of it, and is up after either. */
  ghost predicate Either(c: State) {
    && Can(c, Deliver(SNAP_TO_A)) && Can(c, TornInstall(SNAP_TO_A))
    && Perform(c, Deliver(SNAP_TO_A)).At(A).up && Perform(c, TornInstall(SNAP_TO_A)).At(A).up
  }

  /** Its answer to B's request. */
  ghost predicate Granted(n: Node) { |n.log| >= 1 && OnRequestVote(n, ASK3).1.granted }

  /** A run after which C's snapshot and B's vote request are both on their way to A. If A installs the
      snapshot and stays up, it refuses B; if it crashes between the two writes of the install, it comes
      back with an entry that the snapshot had overruled, and grants B its vote. */
  lemma WindowChangesAVote() returns (b: seq<State>, c: State)
    ensures RunsTo(b, c) && VoteReqPacket(A, ASK3) in c.net && Either(c)
    ensures !Granted(Perform(c, Deliver(SNAP_TO_A)).At(A).node)
    ensures Granted(Perform(c, TornInstall(SNAP_TO_A)).At(A).node)
  {
    hide Run, RunsTo, EndsWith, Hosts, OnRequestVote, OnInstallSnapshot, Reboot, Formed, OldA;
    var net: set<Packet>, y: Host, z: Host;
    b, net, y, z := BothUnderWay();
    InstallsAndRefuses();
    ComesBackAndGrants();
    Changed(Up(OldA()), y, z, Up(HolderD()), Up(HolderE()), Up(OldA()));
    c := EndsThere(b, Hosts(Up(OldA()), y, z, Up(HolderD()), Up(HolderE())), net);
  }

  /** The same term at index 2, other entries below it, and terms that decrease along x. */
  ghost predicate Mismatch(x: Log, y: Log) { SameTerm(x, y, 2) && !Agree(x, y, 2) && TermAt(x, 1) > TermAt(x, 2) }

  /** Log Matching, and terms that do not decrease along a log, fail after such a crash: a run at the end
      of which A and B have the same term at index 2 and different entries below it. */
  lemma TornLogDoesNotMatch() returns (b: seq<State>, logs: seq<map<NodeId, Whole>>, i: nat)
    ensures Run(b) && LogsBehind(b, logs) && Hosted(b, i, A) && Hosted(b, i, B)
    ensures HostAt(b, i, A).damage.Tainted? && HostAt(b, i, B).damage.Intact?
    ensures Mismatch(LogAt(logs, i, A).log, LogAt(logs, i, B).log)
  {
    hide Run, RunsTo, LogsBehind, Stores, TornA;
    var y: Host;
    b, y := EndsTorn();
    i := |b| - 1;
    logs := RunLogs(b);
    HostStores(b, logs, i, A);
    HostStores(b, logs, i, B);
    ComesBackAndGrants();
    StoredTwo(TornA(), LogAt(logs, i, A).log, 1, X2);
    StoredTwo(y, LogAt(logs, i, B).log, 0, X2);
    StoredFirst(y, LogAt(logs, i, B).log);
  }

  lemma EndsTorn() returns (b: seq<State>, y: Host)
    ensures |b| > 0 && Run(b) && y.damage.Intact? && y.node.log == [Sentinel(0, 0), X1, X2]
    ensures A in Last(b).hosts && Last(b).At(A) == TornA() && B in Last(b).hosts && Last(b).At(B) == y
  {
    hide Run, Hosts, OnRequestVote, Reboot, Formed, OldA;
    var net: set<Packet>, z: Host;
    b, net, y, z := BothUnderWay();
    InstallsAndRefuses();
    var d, e := Up(HolderD()), Up(HolderE());
    Changed(Up(OldA()), y, z, d, e, TornA());
    b := TearsInstall(b, Hosts(Up(OldA()), y, z, d, e), net, SNAP_TO_A, TornA());
    Changed(TornA(), y, z, d, e, TornA());
  }

  /** A log of two entries that ends with e, read off what the host has in memory. */
  lemma StoredTwo(h: Host, full: Log, base: nat, e: LogEntry)
    requires Stores(h, full) && |h.node.log| == 3 - base && Base(h.node.log) == base <= 1 && h.node.log[2 - base] == e
    ensures |full| == 2 && full[1] == e && TermAt(full, base) == h.node.log[0].term
  {
    hide R.SnapRel, R.WalRel;
  }

  lemma StoredFirst(h: Host, full: Log)
    requires Stores(h, full) && h.node.log == [Sentinel(0, 0), X1, X2]
    ensures |full| == 2 && full[0] == X1
  {
    hide R.SnapRel, R.WalRel;
    assert Compacted(full, 0)[1] == full[0];
  }
}
