/** Building runs of the system step by step, and what single nodes do on the way. */
module Scenario {
  import opened Types
  import opened SentinelLog
  import opened WalRecords
  import opened KvState
  import opened NodeState
  import opened Cluster

  // ---- Runs under construction -----------------------------------------------------------------

  /** A run that ends in this state. */
  ghost predicate RunsTo(b: seq<State>, c: State) { Run(b) && Last(b) == c }

  /** A run that ends with these hosts and at least these packets under way. */
  ghost predicate EndsWith(b: seq<State>, hosts: map<NodeId, Host>, net: set<Packet>) {
    Run(b) && Last(b).hosts == hosts && net <= Last(b).net
  }

  lemma EndsThere(b: seq<State>, hosts: map<NodeId, Host>, net: set<Packet>) returns (c: State)
    requires EndsWith(b, hosts, net)
    ensures RunsTo(b, c) && c.hosts == hosts && net <= c.net
  {
    hide Run;
    c := Last(b);
  }

  lemma Extend(b: seq<State>, act: Action) returns (b': seq<State>)
    requires Run(b) && Can(Last(b), act)
    ensures Run(b') && Last(b') == Perform(Last(b), act)
  {
    hide Can, Perform, Init;
    b' := b + [Perform(Last(b), act)];
    forall i | 0 <= i < |b'| - 1 ensures Next(b'[i], b'[i + 1]) {
      if i < |b| - 1 { assert Next(b[i], b[i + 1]); }
    }
  }

  ghost function On(hosts: map<NodeId, Host>, p: NodeId): Host { if p in hosts then hosts[p] else Up(Fresh(p, [])) }

  function Campaigning(h: Host): Host { if |h.node.log| >= 1 then h.(node := StartElection(h.node)) else h }

  function Asked(n: Node): set<Packet> {
    if |n.log| >= 1 then set q | q in n.peers :: VoteReqPacket(q, VoteRequestOf(n)) else {}
  }

  lemma TimesOut(b: seq<State>, hosts: map<NodeId, Host>, net: set<Packet>, p: NodeId) returns (b': seq<State>)
    requires EndsWith(b, hosts, net) && p in hosts && On(hosts, p).up
    requires Formed(On(hosts, p).node) && On(hosts, p).node.state != Leader
    ensures EndsWith(b', hosts[p := Campaigning(On(hosts, p))], net + Asked(Campaigning(On(hosts, p)).node))
  {
    hide Run, Delivered;
    b' := Extend(b, ElectionTimeout(p));
  }

  /** What the receiver of packet k does with it: its node becomes n, and these packets go out. */
  predicate Handles(h: Host, k: Packet, n: Node, more: set<Packet>) {
    h.up && Formed(h.node) &&
    match k
    case VoteReqPacket(to, a) =>
      n == OnRequestVote(h.node, a).0
      && more == {VoteRepPacket(a.candidate, to, a.term, OnRequestVote(h.node, a).1)}
    case VoteRepPacket(_, from, t, r) => n == OnVoteReply(h.node, from, t, r) && more == {}
    case AppendReqPacket(to, a) =>
      var o := OnAppendEntries(h.node, a);
      o.Replied? && n == o.node && more == {AppendRepPacket(a.leader, to, a, o.reply)}
    case AppendRepPacket(_, from, a, r) => n == OnAppendReply(h.node, from, a, r) && more == {}
    case SnapReqPacket(to, a) =>
      n == OnInstallSnapshot(h.node, a).0
      && more == {SnapRepPacket(a.leader, to, a, OnInstallSnapshot(h.node, a).1)}
    case SnapRepPacket(_, from, a, r) => n == OnSnapshotReply(h.node, from, a, r) && more == {}
  }

  lemma Receives(b: seq<State>, hosts: map<NodeId, Host>, net: set<Packet>, k: Packet, n: Node, more: set<Packet>)
    returns (b': seq<State>)
    requires EndsWith(b, hosts, net) && k in net && k.to in hosts && Handles(On(hosts, k.to), k, n, more)
    ensures EndsWith(b', hosts[k.to := On(hosts, k.to).(node := n)], net + more)
  {
    hide Run, OnRequestVote, OnVoteReply, OnAppendEntries, OnAppendReply, OnInstallSnapshot, OnSnapshotReply;
    b' := Extend(b, Deliver(k));
  }

  function Proposing(h: Host, cmd: Command): Host {
    if Formed(h.node) then h.(node := Propose(h.node, cmd), proposed := h.proposed + {RequestFor(h.node, cmd)}) else h
  }

  lemma Proposes(b: seq<State>, hosts: map<NodeId, Host>, net: set<Packet>, p: NodeId, cmd: Command)
    returns (b': seq<State>)
    requires EndsWith(b, hosts, net) && p in hosts && On(hosts, p).up
    requires Formed(On(hosts, p).node) && On(hosts, p).node.state == Leader
    ensures EndsWith(b', hosts[p := Proposing(On(hosts, p), cmd)], net)
  {
    hide Run, Propose, Delivered;
    b' := Extend(b, ClientPropose(p, cmd));
  }

  predicate MaySend(n: Node, q: NodeId) {
    && Formed(n) && n.state == Leader && q in n.peers && q in n.nextIndex
    && 1 <= n.nextIndex[q] <= LastLogIndex(n.log) + 1
  }

  /** What the leader's next round sends to q. */
  predicate SendsPacket(h: Host, q: NodeId, k: Packet) {
    h.up && MaySend(h.node, q) &&
    match Outbound(h.node, q)
    case SendEntries(a) => k == AppendReqPacket(q, a)
    case SendSnapshot(a) => k == SnapReqPacket(q, a)
    case Nothing => false
  }

  lemma SendsTo(b: seq<State>, hosts: map<NodeId, Host>, net: set<Packet>, p: NodeId, q: NodeId, k: Packet)
    returns (b': seq<State>)
    requires EndsWith(b, hosts, net) && p in hosts && SendsPacket(On(hosts, p), q, k)
    ensures EndsWith(b', hosts, net + {k})
  {
    hide Run, Outbound, Delivered;
    b' := Extend(b, ReplicateTo(p, q));
  }

  /** One step of the applier of p, which turns its host into h. */
  ghost predicate Applies(hosts: map<NodeId, Host>, p: NodeId, h: Host) {
    p in hosts && hosts[p].up && Formed(hosts[p].node) &&
    match hosts[p].applier
    case Idle =>
      && hosts[p].node.pending.None? && Base(hosts[p].node.log) <= hosts[p].node.lastApplied < hosts[p].node.commitIndex
      && h == hosts[p].(applier := Applying(Batch(hosts[p].node), 0))
    case Applying(batch, done) =>
      if done < |batch| then h == AppliedHost(hosts[p]) else done == |batch| && h == BatchFinished(hosts[p])
    case Capturing(_, _) => h == CaptureFinished(hosts[p])
    case Restoring(_) => h == Restored(hosts[p])
  }

  lemma AppliesNext(b: seq<State>, hosts: map<NodeId, Host>, net: set<Packet>, p: NodeId, h: Host)
    returns (b': seq<State>)
    requires EndsWith(b, hosts, net) && Applies(hosts, p, h)
    ensures EndsWith(b', hosts[p := h], net)
  {
    hide Run, Batch, AppliedHost, BatchFinished, CaptureFinished, Restored, Delivered;
    match hosts[p].applier
    case Idle => b' := Extend(b, TakeBatch(p));
    case Applying(batch, done) => b' := Extend(b, if done < |batch| then ApplyOne(p) else FinishBatch(p));
    case Capturing(_, _) => b' := Extend(b, FinishCapture(p));
    case Restoring(_) => b' := Extend(b, FinishRestore(p));
  }

  lemma Waits(b: seq<State>, hosts: map<NodeId, Host>, net: set<Packet>, p: NodeId, r: Request) returns (b': seq<State>)
    requires EndsWith(b, hosts, net) && p in hosts && On(hosts, p).up && r in On(hosts, p).proposed
    ensures var h := On(hosts, p);
      EndsWith(b', hosts[p := h.(proposed := h.proposed - {r}, waiters := h.waiters[r.index := r])], net)
  {
    hide Run, Delivered;
    b' := Extend(b, AwaitRequest(p, r));
  }

  /** The next entry p applies is what r waits for. */
  ghost predicate Awaited(h: Host, r: Request) {
    && h.up && h.applier.Applying? && h.applier.done < |h.applier.batch|
    && var e := h.applier.batch[h.applier.done]; e.index in h.waiters && h.waiters[e.index] == r && r.term == e.term
  }

  lemma Acknowledges(b: seq<State>, hosts: map<NodeId, Host>, net: set<Packet>, p: NodeId, r: Request)
    returns (b': seq<State>, c: State)
    requires EndsWith(b, hosts, net) && p in hosts && Awaited(On(hosts, p), r)
    ensures RunsTo(b', c) && r in c.acked
  {
    hide Run, AppliedHost, Delivered;
    b' := Extend(b, ApplyOne(p));
    c := Last(b');
  }

  lemma Crashes(b: seq<State>, hosts: map<NodeId, Host>, net: set<Packet>, p: NodeId) returns (b': seq<State>)
    requires EndsWith(b, hosts, net) && p in hosts && On(hosts, p).up
    ensures EndsWith(b', hosts[p := Reboot(On(hosts, p), On(hosts, p).node.disk)], net)
  {
    hide Run, Reboot, Delivered;
    b' := Extend(b, Crash(p));
  }

  /** The receiver of the snapshot crashes between the two writes of its install. */
  predicate Tears(h: Host, k: Packet, h': Host) {
    && h.up && Formed(h.node) && k.SnapReqPacket? && k.snapshot.term >= h.node.currentTerm
    && k.snapshot.snap.lastIndex > h.node.commitIndex && h' == TornHost(h, k.snapshot)
  }

  lemma TearsInstall(b: seq<State>, hosts: map<NodeId, Host>, net: set<Packet>, k: Packet, h: Host)
    returns (b': seq<State>)
    requires EndsWith(b, hosts, net) && k in net && k.to in hosts && Tears(On(hosts, k.to), k, h)
    ensures EndsWith(b', hosts[k.to := h], net)
  {
    hide Run, TornHost, Delivered;
    b' := Extend(b, TornInstall(k));
  }

  lemma NobodyWaits(waiters: map<nat, Request>, i: nat)
    requires waiters == map[]
    ensures waiters - {i} == waiters
  {
  }

  // ---- Single nodes ----------------------------------------------------------------------------

  function Fresh(id: NodeId, peers: seq<NodeId>): Node {
    Node(id, peers, 1, 0, None, [Sentinel(0, 0)], 0, 0, map[], map[], Follower, None, 0, {}, None,
         Disk(HardState(0, None), [], None))
  }

  function Up(n: Node): Host { Host(n, map[], Idle, {}, map[], Intact, true) }

  /** In term t, with this durable vote. */
  function InTerm(n: Node, t: nat, vote: NodeId): Node {
    n.(currentTerm := t, votedFor := Some(vote), disk := n.disk.(hard := HardState(t, Some(vote))))
  }

  lemma Grants(n: Node, a: VoteArgs)
    requires |n.log| >= 1 && a.term > n.currentTerm && LogUpToDate(n, a)
    ensures OnRequestVote(n, a) ==
      (InTerm(n, a.term, a.candidate).(leaderID := None, state := Follower), VoteReply(a.term, true))
  {
  }

  /** The log with these entries behind it, in memory and on disk. */
  function Storing(n: Node, entries: seq<LogEntry>): Node {
    n.(log := n.log + entries, disk := n.disk.(wal := n.disk.wal + AppendRecords(entries)))
  }

  lemma NobodyHolds(peers: seq<NodeId>, matched: map<NodeId, nat>, i: nat)
    requires forall q | q in peers :: q in matched ==> matched[q] < i
    ensures CountMatching(peers, matched, i) == 0
  {
    if peers != [] { NobodyHolds(peers[..|peers| - 1], matched, i); }
  }

  lemma {:induction false} NothingToCommit(n: Node, i: nat)
    requires Numbered(n.log) && Base(n.log) <= n.commitIndex && i <= LastLogIndex(n.log) && QuorumSize(n.peers) > 1
    requires forall q | q in n.peers :: q in n.matchIndex ==> n.matchIndex[q] <= n.commitIndex
    ensures CommitScan(n, i) == n.commitIndex
  {
    hide CountMatching, QuorumSize;
    if i > n.commitIndex {
      NobodyHolds(n.peers, n.matchIndex, i);
      NothingToCommit(n, i - 1);
    }
  }

  /** A proposal that nobody else holds yet. */
  lemma Appends(n: Node, cmd: Command)
    requires Formed(n) && n.state == Leader && QuorumSize(n.peers) > 1
    requires forall q | q in n.peers :: n.matchIndex[q] <= n.commitIndex
    ensures Propose(n, cmd) == Storing(n, [LogEntry(n.currentTerm, LastLogIndex(n.log) + 1, cmd)])
  {
    hide CommitScan, QuorumSize;
    var e := LogEntry(n.currentTerm, LastLogIndex(n.log) + 1, cmd);
    assert AppendRecords([e]) == [AppendRecord(e)];
    var m := n.(log := n.log + [e], disk := n.disk.(wal := n.disk.wal + [AppendRecord(e)]));
    NothingToCommit(m, LastLogIndex(m.log));
  }

  /** A request that starts right behind the log. */
  lemma TakesEntries(n: Node, a: AppendArgs)
    requires Numbered(n.log) && a.term == n.currentTerm && |a.entries| > 0
    requires a.prevLogIndex == LastLogIndex(n.log) && a.prevLogTerm == LastLogTerm(n.log)
    requires forall j | 0 <= j < |a.entries| :: a.entries[j].index == LastLogIndex(n.log) + 1 + j
    ensures OnAppendEntries(n, a) == Replied(
      Storing(n, a.entries).(state := Follower, leaderID := Some(a.leader),
                             commitIndex := Max(n.commitIndex, Min(a.leaderCommit, a.prevLogIndex + |a.entries|))),
      AppendReply(a.term, true, 0, 0))
  {
    hide AppendRecords, FirstOfTerm;
    assert IsNew(n.log, a.entries[0]) && FirstNew(n.log, a.entries) == 0;
    hide FirstNew, IsNew;
    assert a.entries[0..] == a.entries;
  }

  // ---- Several steps of a cluster of three -----------------------------------------------------

  /** The election that v's vote decides. */
  predicate WouldWin(h: Host, g: Host, v: NodeId) {
    && h.up && g.up && Formed(h.node) && Formed(g.node) && h.node.state != Leader && v in h.node.peers
    && |h.node.peers| == 2 && g.node.currentTerm <= h.node.currentTerm
    && LogUpToDate(g.node, AskOf(h.node))
  }

  function AskOf(n: Node): VoteArgs
    requires |n.log| >= 1
  {
    VoteArgs(n.currentTerm + 1, n.id, LastLogIndex(n.log), LastLogTerm(n.log))
  }

  function Winner(n: Node, v: NodeId): Node {
    if n.log == [] then n else
    InTerm(n, n.currentTerm + 1, n.id).(
      state := Leader, leaderID := Some(n.id), votes := 2, unanswered := (set q | q in n.peers) - {v},
      nextIndex := map q | q in n.peers :: LastLogIndex(n.log) + 1, matchIndex := map q | q in n.peers :: 0)
  }

  /** A node that has voted for candidate n. */
  function Voter(f: Node, n: Node): Node {
    InTerm(f, n.currentTerm + 1, n.id).(leaderID := None, state := Follower)
  }

  function CandidateOf(n: Node): Node {
    InTerm(n, n.currentTerm + 1, n.id).(state := Candidate, leaderID := None, votes := 1,
                                        unanswered := set q | q in n.peers)
  }

  lemma Stands(n: Node)
    requires Formed(n) && |n.peers| == 2
    ensures StartElection(n) == CandidateOf(n) && VoteRequestOf(CandidateOf(n)) == AskOf(n) && Formed(CandidateOf(n))
    ensures CandidateOf(n).peers == n.peers && |n.log| >= 1 && |CandidateOf(n).log| >= 1
  {
  }

  lemma WinsVote(n: Node, v: NodeId)
    requires |n.log| >= 1 && v in n.peers && |n.peers| == 2
    ensures |CandidateOf(n).log| >= 1
    ensures OnVoteReply(CandidateOf(n), v, n.currentTerm + 1, VoteReply(n.currentTerm + 1, true)) == Winner(n, v)
  {
  }

  lemma Wins(b: seq<State>, hosts: map<NodeId, Host>, net: set<Packet>, p: NodeId, v: NodeId)
    returns (b': seq<State>, net': set<Packet>)
    requires EndsWith(b, hosts, net) && p in hosts && v in hosts && p != v && On(hosts, p).node.id == p
    requires WouldWin(On(hosts, p), On(hosts, v), v)
    ensures net <= net'
    ensures var n := On(hosts, p).node;
      EndsWith(b', hosts[p := On(hosts, p).(node := Winner(n, v))]
                        [v := On(hosts, v).(node := Voter(On(hosts, v).node, n))], net')
  {
    hide Run, EndsWith, StartElection, OnVoteReply, VoteRequestOf, OnRequestVote, Winner, Voter, LogUpToDate,
         CandidateOf;
    var h, g, n, f := On(hosts, p), On(hosts, v), On(hosts, p).node, On(hosts, v).node;
    var ask, t := AskOf(n), n.currentTerm + 1;
    Stands(n);
    WinsVote(n, v);
    b' := TimesOut(b, hosts, net, p);
    var standing := hosts[p := Campaigning(h)];
    net' := net + Asked(Campaigning(h).node);
    assert VoteReqPacket(v, ask) in net' by { AsksAll(Campaigning(h).node, v, ask); }
    VotesFor(f, n);
    var yes := VoteRepPacket(p, v, t, VoteReply(t, true));
    b' := Receives(b', standing, net', VoteReqPacket(v, ask), Voter(f, n), {yes});
    var voted := standing[v := g.(node := Voter(f, n))];
    net' := net' + {yes};
    b' := Receives(b', voted, net', yes, Winner(n, v), {});
    net' := net' + {};
    assert voted[p := h.(node := Winner(n, v))]
        == hosts[p := h.(node := Winner(n, v))][v := g.(node := Voter(f, n))];
  }

  lemma AsksAll(n: Node, v: NodeId, ask: VoteArgs)
    requires |n.log| >= 1 && v in n.peers && VoteRequestOf(n) == ask
    ensures VoteReqPacket(v, ask) in Asked(n)
  {
  }

  lemma VotesFor(f: Node, n: Node)
    requires |f.log| >= 1 && |n.log| >= 1 && n.currentTerm >= f.currentTerm && LogUpToDate(f, AskOf(n))
    ensures OnRequestVote(f, AskOf(n)) == (Voter(f, n), VoteReply(n.currentTerm + 1, true))
  {
    hide LogUpToDate;
    Grants(f, AskOf(n));
  }

  /** The leader p can put one more entry on q, whose log is the same. */
  predicate MayExtend(h: Host, g: Host, q: NodeId) {
    && h.up && g.up && MaySend(h.node, q) && Formed(g.node) && |h.node.peers| == 2
    && (forall r | r in h.node.peers :: h.node.matchIndex[r] <= h.node.commitIndex)
    && h.node.nextIndex[q] == LastLogIndex(h.node.log) + 1 == LastLogIndex(g.node.log) + 1
    && LastLogTerm(h.node.log) == LastLogTerm(g.node.log) && g.node.currentTerm <= h.node.currentTerm
  }

  lemma TwoMayExtend(n: Node, f: Node, q: NodeId, x: NodeId, y: NodeId)
    requires Formed(n) && Formed(f) && n.state == Leader && n.peers == [x, y] && (q == x || q == y)
    requires n.matchIndex[x] <= n.commitIndex && n.matchIndex[y] <= n.commitIndex
    requires n.nextIndex[q] == LastLogIndex(n.log) + 1 == LastLogIndex(f.log) + 1
    requires LastLogTerm(n.log) == LastLogTerm(f.log) && f.currentTerm <= n.currentTerm
    ensures MayExtend(Up(n), Up(f), q)
  {
  }

  function NextEntry(n: Node, cmd: Command): LogEntry {
    LogEntry(n.currentTerm, if |n.log| >= 1 then LastLogIndex(n.log) + 1 else 0, cmd)
  }

  /** The request that carries it. */
  function Carrying(n: Node, cmd: Command): AppendArgs {
    if n.log == [] then AppendArgs(0, n.id, 0, 0, [], 0) else
    AppendArgs(n.currentTerm, n.id, LastLogIndex(n.log), LastLogTerm(n.log), [NextEntry(n, cmd)], n.commitIndex)
  }

  function Yes(t: nat): AppendReply { AppendReply(t, true, 0, 0) }

  /** The follower that has stored it. */
  function Stored(f: Node, a: AppendArgs): Node {
    Storing(Observe(f, a.term), a.entries).(state := Follower, leaderID := Some(a.leader),
                                            commitIndex := Max(f.commitIndex, Min(a.leaderCommit, LastCarried(a))))
  }

  function LastCarried(a: AppendArgs): nat { a.prevLogIndex + |a.entries| }

  /** A request that starts right behind the log, in the follower's term or a later one. */
  lemma TakesNext(f: Node, a: AppendArgs)
    requires Numbered(f.log) && a.term >= f.currentTerm && |a.entries| == 1
    requires a.prevLogIndex == LastLogIndex(f.log) && a.prevLogTerm == LastLogTerm(f.log)
    requires a.entries[0].index == LastLogIndex(f.log) + 1
    ensures OnAppendEntries(f, a) == Replied(Stored(f, a), Yes(a.term))
  {
    hide AppendRecords, Check, Accept, WouldPanic;
    TakesEntries(Observe(f, a.term), a);
  }

  lemma ExtendsLog(n: Node, f: Node, q: NodeId, cmd: Command)
    requires MayExtend(Up(n), Up(f), q)
    ensures Propose(n, cmd) == Storing(n, [NextEntry(n, cmd)]) && Formed(Storing(n, [NextEntry(n, cmd)]))
    ensures SendsPacket(Up(Storing(n, [NextEntry(n, cmd)])), q, AppendReqPacket(q, Carrying(n, cmd)))
    ensures OnAppendEntries(f, Carrying(n, cmd)) ==
      Replied(Stored(f, Carrying(n, cmd)), Yes(n.currentTerm))
  {
    hide Propose, OnAppendEntries, AppendRecords, CountMatching, Stored;
    Appends(n, cmd);
    var e := NextEntry(n, cmd);
    assert (n.log + [e])[|n.log|..] == [e];
    TakesNext(f, Carrying(n, cmd));
  }

  lemma Replicates(b: seq<State>, hosts: map<NodeId, Host>, net: set<Packet>, p: NodeId, q: NodeId, cmd: Command)
    returns (b': seq<State>, net': set<Packet>, h: Host)
    requires EndsWith(b, hosts, net) && p in hosts && q in hosts && p != q && On(hosts, p).node.id == p
    requires MayExtend(On(hosts, p), On(hosts, q), q)
    ensures var n := On(hosts, p).node;
      && h == Proposing(On(hosts, p), cmd)
      && h == On(hosts, p).(node := Storing(n, [NextEntry(n, cmd)]), proposed := h.proposed)
      && net <= net' && AppendRepPacket(p, q, Carrying(n, cmd), Yes(n.currentTerm)) in net'
      && EndsWith(b', hosts[p := h][q := On(hosts, q).(node := Stored(On(hosts, q).node, Carrying(n, cmd)))], net')
  {
    hide Run, EndsWith, Propose, OnAppendEntries, Storing, Stored, Outbound, MaySend, Carrying, NextEntry, Formed;
    var n, g, a := On(hosts, p).node, On(hosts, q), Carrying(On(hosts, p).node, cmd);
    ReadyToExtend(On(hosts, p), g, q);
    ExtendsLog(n, g.node, q, cmd);
    b' := Proposes(b, hosts, net, p, cmd);
    h := Proposing(On(hosts, p), cmd);
    var proposed := hosts[p := h];
    OtherHost(h, Up(Storing(n, [NextEntry(n, cmd)])), q, AppendReqPacket(q, a));
    b' := SendsTo(b', proposed, net, p, q, AppendReqPacket(q, a));
    net' := net + {AppendReqPacket(q, a)};
    var ok := AppendRepPacket(p, q, a, Yes(n.currentTerm));
    CarriedBy(n, cmd);
    b' := Receives(b', proposed, net', AppendReqPacket(q, a), Stored(g.node, a), {ok});
    net' := net' + {ok};
  }

  lemma ReadyToExtend(h: Host, g: Host, q: NodeId)
    requires MayExtend(h, g, q)
    ensures MayExtend(Up(h.node), Up(g.node), q) && h.up && g.up && Formed(h.node) && Formed(g.node)
    ensures h.node.state == Leader && |h.node.log| >= 1
  {
  }

  lemma OtherHost(h: Host, g: Host, q: NodeId, k: Packet)
    requires SendsPacket(g, q, k) && h.node == g.node && h.up
    ensures SendsPacket(h, q, k)
  {
    hide Outbound, MaySend;
  }

  lemma CarriedBy(n: Node, cmd: Command)
    requires |n.log| >= 1
    ensures Carrying(n, cmd).leader == n.id
  {
  }

  /** The leader after q's report on its whole log, which decides. */
  function Decided(n: Node, q: NodeId): Node {
    if n.log == [] then n else
    n.(matchIndex := n.matchIndex[q := LastLogIndex(n.log)], nextIndex := n.nextIndex[q := LastLogIndex(n.log) + 1],
       commitIndex := LastLogIndex(n.log))
  }

  lemma Decides(n: Node, q: NodeId, a: AppendArgs)
    requires Formed(n) && n.state == Leader && |n.peers| == 2 && q in n.peers
    requires a.term == n.currentTerm == LastLogTerm(n.log) && a.prevLogIndex + |a.entries| == LastLogIndex(n.log)
    requires n.matchIndex[q] < LastLogIndex(n.log) && n.commitIndex < LastLogIndex(n.log)
    ensures OnAppendReply(n, q, a, Yes(n.currentTerm)) == Decided(n, q)
  {
    hide CommitScan;
    var i := LastLogIndex(n.log);
    var m := n.(matchIndex := n.matchIndex[q := i], nextIndex := n.nextIndex[q := i + 1]);
    OneHolds(m.peers, m.matchIndex, q, i);
    ScanStops(m, i);
  }

  lemma OneHolds(peers: seq<NodeId>, matched: map<NodeId, nat>, q: NodeId, i: nat)
    requires |peers| == 2 && q in peers && q in matched && matched[q] >= i
    ensures CountMatching(peers, matched, i) >= 1
  {
    assert peers[..1] == [peers[0]] && [peers[0]][..0] == [];
  }

  lemma ScanStops(n: Node, i: nat)
    requires Numbered(n.log) && Base(n.log) <= n.commitIndex < i == LastLogIndex(n.log)
    requires TermOf(n.log, i) == n.currentTerm && 1 + CountMatching(n.peers, n.matchIndex, i) >= QuorumSize(n.peers)
    ensures CommitScan(n, i) == i
  {
    hide CountMatching;
  }

  /** A host that has committed two entries and applied none. */
  predicate TwoToApply(h: Host, x: LogEntry, y: LogEntry) {
    && h.up && Formed(h.node) && h.node.log == [Sentinel(0, 0), x, y] && h.node.commitIndex == 2
    && h.node.lastApplied == 0 && h.node.pending == None && h.node.threshold == 1 && h.applier == Idle
    && h.waiters == map[]
  }

  /** What the two entries make of its map, and the host when it has compacted them. */
  function AfterBoth(h: Host, x: LogEntry, y: LogEntry): Kv {
    ApplyCommand(ApplyCommand(h.kv, x.command), y.command)
  }

  function CompactedBoth(h: Host, x: LogEntry, y: LogEntry): Host {
    var s := Snapshot(2, y.term, AfterBoth(h, x, y));
    h.(kv := AfterBoth(h, x, y), node := h.node.(lastApplied := 2, log := [Sentinel(2, y.term)],
                                                 disk := h.node.disk.(snap := Some(s), wal := [])))
  }

  lemma AppliesTwo(b: seq<State>, hosts: map<NodeId, Host>, net: set<Packet>, p: NodeId, x: LogEntry, y: LogEntry)
    returns (b': seq<State>)
    requires EndsWith(b, hosts, net) && p in hosts && TwoToApply(On(hosts, p), x, y)
    ensures EndsWith(b', hosts[p := CompactedBoth(On(hosts, p), x, y)], net)
  {
    hide Run, EndsWith, Batch, AppliedHost, BatchFinished, CaptureFinished, TwoToApply, CompactedBoth, Formed;
    var h := On(hosts, p);
    var h0, h1, h2, h3 := Taken(h, x, y), Half(h, x, y), Both(h, x, y), Capturing2(h, x, y);
    PhasesOfTwo(h, x, y);
    CapturesTwo(h, x, y);
    b' := AppliesNext(b, hosts, net, p, h0);
    b' := AppliesNext(b', hosts[p := h0], net, p, h1);
    assert hosts[p := h0][p := h1] == hosts[p := h1];
    b' := AppliesNext(b', hosts[p := h1], net, p, h2);
    assert hosts[p := h1][p := h2] == hosts[p := h2];
    b' := AppliesNext(b', hosts[p := h2], net, p, h3);
    assert hosts[p := h2][p := h3] == hosts[p := h3];
    b' := AppliesNext(b', hosts[p := h3], net, p, CompactedBoth(h, x, y));
    assert hosts[p := h3][p := CompactedBoth(h, x, y)] == hosts[p := CompactedBoth(h, x, y)];
  }

  function Taken(h: Host, x: LogEntry, y: LogEntry): Host { h.(applier := Applying([x, y], 0)) }

  function Half(h: Host, x: LogEntry, y: LogEntry): Host {
    h.(applier := Applying([x, y], 1), kv := ApplyCommand(h.kv, x.command))
  }

  function Both(h: Host, x: LogEntry, y: LogEntry): Host {
    h.(applier := Applying([x, y], 2), kv := AfterBoth(h, x, y))
  }

  function Capturing2(h: Host, x: LogEntry, y: LogEntry): Host {
    h.(applier := Capturing(2, y.term), kv := AfterBoth(h, x, y), node := h.node.(lastApplied := 2))
  }

  lemma PhasesOfTwo(h: Host, x: LogEntry, y: LogEntry)
    requires TwoToApply(h, x, y)
    ensures h.up && h.applier == Idle && h.node.pending == None && Formed(h.node)
    ensures Base(h.node.log) <= h.node.lastApplied < h.node.commitIndex && Batch(h.node) == [x, y]
    ensures AppliedHost(Taken(h, x, y)) == Half(h, x, y) && AppliedHost(Half(h, x, y)) == Both(h, x, y)
  {
    hide Formed, ApplyCommand;
    assert h.node.log[1..] == [x, y] && [x, y][..2] == [x, y];
    NobodyWaits(h.waiters, x.index);
    NobodyWaits(h.waiters, y.index);
  }

  lemma CapturesTwo(h: Host, x: LogEntry, y: LogEntry)
    requires TwoToApply(h, x, y)
    ensures BatchFinished(Both(h, x, y)) == Capturing2(h, x, y) && Formed(Capturing2(h, x, y).node)
    ensures CaptureFinished(Capturing2(h, x, y)) == CompactedBoth(h, x, y)
  {
    hide ApplyCommand;
    assert AppendRecords([]) == [] && [Sentinel(2, y.term)] + [] == [Sentinel(2, y.term)];
  }

  // ---- The beginning ---------------------------------------------------------------------------

  /** p and its peers are the whole cluster, each named once. */
  ghost predicate Configured(p: NodeId, peers: seq<NodeId>, members: set<NodeId>) {
    p !in peers && (forall i, j | 0 <= i < j < |peers| :: peers[i] != peers[j]) && members == {p} + set q | q in peers
  }

  ghost predicate AllFresh(hosts: map<NodeId, Host>, peers: map<NodeId, seq<NodeId>>) {
    && hosts.Keys == peers.Keys != {}
    && forall p | p in hosts :: hosts[p] == Up(Fresh(p, peers[p])) && Configured(p, peers[p], hosts.Keys)
  }

  lemma Begins(hosts: map<NodeId, Host>, peers: map<NodeId, seq<NodeId>>) returns (b: seq<State>)
    requires AllFresh(hosts, peers)
    ensures EndsWith(b, hosts, {})
  {
    hide Next;
    b := [State(hosts, {}, {}, {}, false)];
  }
}
