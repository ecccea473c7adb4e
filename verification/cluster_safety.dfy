/** What every run of the whole system guarantees. */
module ClusterSafety {
  import opened Types
  import opened SentinelLog
  import opened WalRecords
  import opened KvState
  import opened NodeState
  import opened NodeRelation
  import opened AppendSimulation
  import opened ClusterRelation
  import opened ClusterSimulation
  import opened ApplierSimulation
  import opened CrashSimulation
  import P = Protocol
  import opened ProtocolInvariant
  import opened ProtocolSteps
  import PS = ProtocolSafety
  import C = Cluster

  // ---- Every run is a run of the uncompacted protocol ------------------------------------------

  lemma InitFollowed(c: C.State) returns (s: P.State)
    requires C.Init(c)
    ensures P.Init(s) && ClusterRel(c, s)
  {
    hide Inv, HostRel, PacketRel, Settled;
    s := P.State(map p | p in c.hosts :: P.Node(0, None, [], 0, Intact, Follower, 0, {}, map[]),
                 P.History({}, {}, {}, P.Past(c.hosts.Keys, {}, {}, map[])));
    PS.InitInv(s);
    forall p | p in c.hosts ensures HostRel(c.hosts[p], p, s.nodes[p], s.h.past) {
      FreshHost(c.hosts[p], p, s.nodes[p], s.h.past);
    }
  }

  lemma FreshHost(h: C.Host, p: NodeId, n: P.Node, past: P.Past)
    requires h == C.Host(h.node, map[], C.Idle, {}, map[], Intact, true)
    requires h.node == Node(p, h.node.peers, h.node.threshold, 0, None, [Sentinel(0, 0)], 0, 0, map[], map[], Follower,
                            None, 0, {}, None, Disk(HardState(0, None), [], None))
    requires ConfigRel(h.node, p, past.members) && n == P.Node(0, None, [], 0, Intact, Follower, 0, {}, map[])
    ensures HostRel(h, p, n, past)
  {
    hide Loose;
    var none: seq<LogEntry> := [];
    assert none[0..] == [] && Replay(h.node.disk.wal) == Some(none[0..]);
    assert Faithful(h.node.disk.wal, n.log, 0);
  }

  lemma DeliverFollowed(c: C.State, k: C.Packet, s: P.State) returns (s': P.State)
    requires ClusterRel(c, s) && C.Can(c, C.Deliver(k))
    ensures Followed(C.Perform(c, C.Deliver(k)), s, s')
  {
    hide ClusterRel, Followed, C.Can, C.Perform;
    match k
    case VoteReqPacket(_, _) => s' := SimDeliverVoteRequest(c, s, k);
    case VoteRepPacket(_, _, _, _) => s' := SimDeliverVoteReply(c, s, k);
    case AppendReqPacket(_, _) => s' := SimDeliverAppend(c, s, k);
    case AppendRepPacket(_, _, _, _) => s' := SimDeliverAppendReply(c, s, k);
    case SnapReqPacket(_, _) => s' := SimDeliverSnapshot(c, s, k);
    case SnapRepPacket(_, _, _, _) => s' := SimDeliverSnapshotReply(c, s, k);
  }

  /** The uncompacted protocol follows any action of the system. */
  lemma ActionFollowed(c: C.State, act: C.Action, s: P.State) returns (s': P.State)
    requires ClusterRel(c, s) && C.Can(c, act)
    ensures Followed(C.Perform(c, act), s, s')
  {
    hide ClusterRel, Followed, C.Can, C.Perform;
    s' := s;
    match act
    case ElectionTimeout(p) => s' := SimElectionTimeout(c, s, p);
    case Deliver(k) => s' := DeliverFollowed(c, k, s);
    case ReplicateTo(p, peer) => s' := SimReplicate(c, s, p, peer);
    case ClientPropose(p, cmd) => s' := SimClientPropose(c, s, p, cmd);
    case AwaitRequest(p, r) => SimAwait(c, s, p, r);
    case GiveUp(p, i) => SimGiveUp(c, s, p, i);
    case TakeSnapshot(p) => SimTakeSnapshot(c, s, p);
    case FinishRestore(p) => SimFinishRestore(c, s, p);
    case TakeBatch(p) => SimTakeBatch(c, s, p);
    case ApplyOne(p) => SimApplyOne(c, s, p);
    case FinishBatch(p) => s' := SimFinishBatch(c, s, p);
    case FinishCapture(p) => SimFinishCapture(c, s, p);
    case Crash(p) => s' := CrashFollowed(c, p, s);
    case TornTerm(p, t) => s' := SimTornTermStep(c, s, p, t);
    case TornAppend(k, j) => s' := SimTornAppendStep(c, s, k, j);
    case TornCompact(p) => s' := SimTornCompactStep(c, s, p);
    case TornInstall(k) => s' := SimTornInstallStep(c, s, k);
  }

  lemma CrashFollowed(c: C.State, p: NodeId, s: P.State) returns (s': P.State)
    requires ClusterRel(c, s) && C.Can(c, C.Crash(p))
    ensures Followed(C.Perform(c, C.Crash(p)), s, s')
  {
    hide ClusterRel, Followed, C.Reboot, C.Delivered;
    s' := SimCrashAtRest(c, s, p, C.Perform(c, C.Crash(p)));
  }

  ghost predicate Tracks(b: seq<C.State>, ss: seq<P.State>) {
    && |ss| == |b| > 0 && P.Init(ss[0])
    && (forall i | 0 <= i < |b| :: ClusterRel(b[i], ss[i]))
    && (forall i | 0 <= i < |b| - 1 :: Leads(ss[i], ss[i + 1]))
  }

  /** The system's state at moment i. */
  ghost function Now(b: seq<C.State>, i: nat): C.State {
    if i < |b| then b[i] else C.State(map[], {}, {}, {}, false)
  }

  ghost predicate Hosted(b: seq<C.State>, i: nat, p: NodeId) { i < |b| && p in b[i].hosts }

  /** Host p at moment i. */
  ghost function HostAt(b: seq<C.State>, i: nat, p: NodeId): C.Host { Now(b, i).At(p) }

  lemma RunPrefix(b: seq<C.State>, c: C.State)
    requires C.Run(b + [c]) && b != []
    ensures C.Run(b) && C.Next(C.Last(b), c)
  {
    hide C.Init, C.Next;
    var longer := b + [c];
    forall i | 0 <= i < |b| - 1 ensures C.Next(b[i], b[i + 1]) { assert C.Next(longer[i], longer[i + 1]); }
    assert C.Next(longer[|b| - 1], longer[|b| - 1 + 1]);
  }

  ghost function LatestOf(ss: seq<P.State>): P.State { if ss == [] then PS.Then(ss, 0) else ss[|ss| - 1] }

  lemma TrackLonger(b: seq<C.State>, ss: seq<P.State>, c: C.State, s: P.State)
    requires Tracks(b, ss) && ClusterRel(c, s) && Leads(LatestOf(ss), s)
    ensures Tracks(b + [c], ss + [s])
  {
    hide P.Init, ClusterRel, Leads;
    var n, all, more := |b|, b + [c], ss + [s];
    forall i | 0 <= i <= n ensures ClusterRel(all[i], more[i]) {
      if i < n { assert ClusterRel(b[i], ss[i]); }
    }
    forall i | 0 <= i < n ensures Leads(more[i], more[i + 1]) {
      if i < n - 1 { assert Leads(ss[i], ss[i + 1]); }
    }
  }

  /** Refinement: every run of the compacting, crashing, persisting system is tracked by a run of
      the uncompacted protocol. */
  lemma {:induction false} RunTracked(b: seq<C.State>) returns (ss: seq<P.State>)
    requires C.Run(b)
    ensures Tracks(b, ss)
    decreases |b|
  {
    hide P.Init, C.Init, C.Next, ClusterRel, Leads, Reaches, Path;
    var n := |b| - 1;
    if n == 0 {
      var s := InitFollowed(b[0]);
      ss := [s];
    } else {
      assert b == b[..n] + [b[n]];
      RunPrefix(b[..n], b[n]);
      ss := RunTracked(b[..n]);
      assert ClusterRel(b[..n][n - 1], ss[n - 1]);
      var s := NextFollowed(b[n - 1], b[n], ss[n - 1]);
      TrackLonger(b[..n], ss, b[n], s);
      ss := ss + [s];
    }
  }

  lemma NextFollowed(c: C.State, c': C.State, s: P.State) returns (s': P.State)
    requires ClusterRel(c, s) && C.Next(c, c')
    ensures ClusterRel(c', s') && Leads(s, s')
  {
    hide ClusterRel, Leads, C.Can, C.Perform;
    var act :| C.Can(c, act) && C.Perform(c, act) == c';
    s' := ActionFollowed(c, act, s);
  }

  lemma {:induction false} TrackExtends(b: seq<C.State>, ss: seq<P.State>, i: nat, j: nat)
    requires Tracks(b, ss) && i <= j < |ss|
    ensures Extends(PS.Then(ss, i).h, PS.Then(ss, j).h)
    decreases j - i
  {
    hide ClusterRel, Reaches, PastExtends;
    if i < j {
      TrackExtends(b, ss, i, j - 1);
      assert Extends(ss[j - 1].h, ss[j - 1 + 1].h);
      PS.ExtendsTransitive(ss[i].h, ss[j - 1].h, ss[j].h);
    } else {
      PS.ExtendsReflexive(ss[i].h);
    }
  }

  /** The "Leader Completeness violated" panic is unreachable. */
  lemma NeverPanics(b: seq<C.State>, i: nat)
    requires C.Run(b) && i < |b|
    ensures !Now(b, i).panicked
  {
    hide Inv, HostRel, PacketRel, RecordRel, Leads, C.Perform;
    var ss := RunTracked(b);
    assert ClusterRel(b[i], ss[i]);
  }

  // ---- One history -----------------------------------------------------------------------------

  /** A log all of whose entries are committed. */
  ghost predicate CommittedLog(x: P.Past, log: Log) {
    exists hi: nat :: Covered(x, log, |log|, hi)
  }

  lemma CommittedForGood(x: P.Past, x': P.Past, log: Log)
    requires CommittedLog(x, log) && PastExtends(x, x')
    ensures CommittedLog(x', log)
  {
    var hi: nat :| Covered(x, log, |log|, hi);
    CoveredForGood(x, x', log, |log|, hi);
  }

  /** Of two committed logs, the longer extends the shorter. */
  lemma Longer(x: P.Past, a: Log, b: Log) returns (r: Log)
    requires PastOk(x) && CommittedLog(x, a) && CommittedLog(x, b)
    ensures CommittedLog(x, r) && a <= r && |r| >= |b|
  {
    hide PastOk;
    var i: nat :| Covered(x, a, |a|, i);
    var j: nat :| Covered(x, b, |b|, j);
    r := if |a| >= |b| then a else b;
    PS.CoveredAgree(x, a, |a|, i, b, |b|, j, Min(|a|, |b|));
  }

  ghost predicate CommittedIn(x: P.Past, n: P.Node) {
    n.commit <= |n.log| && CommittedLog(x, n.log[..n.commit])
  }

  lemma NodeCommitted(s: P.State, p: NodeId)
    requires Inv(s) && p in s.nodes
    ensures CommittedIn(s.h.past, s.At(p))
  {
    hide HistoryOk, NodeOk, Covered, Tracks;
    NodeFacts(s, p);
    var n := s.nodes[p];
    NodeCovered(s.h, p, n);
    CoveredPart(s.h.past, n.log, n.commit, n.term, n.log[..n.commit], n.commit, n.term);
  }

  lemma SettledInLog(x: P.Past, e: LogEntry) returns (log: Log)
    requires Settled(x, e)
    ensures CommittedLog(x, log) && 1 <= e.index <= |log| && log[e.index - 1] == e
  {
    var t: nat, k: nat :| Chosen(x, t, k) && 1 <= e.index <= k && x.led[t].log[e.index - 1] == e;
    log := x.led[t].log[..k];
    assert CoveredBy(x, log, k, t, k);
    assert Covered(x, log, |log|, t);
  }

  lemma {:induction false} LongEnoughForHosts(s: P.State, todo: set<NodeId>, log: Log) returns (r: Log)
    requires Inv(s) && todo <= s.nodes.Keys && CommittedLog(s.h.past, log)
    ensures CommittedLog(s.h.past, r) && log <= r && forall p | p in todo :: s.At(p).commit <= |r|
    decreases todo
  {
    hide Inv, CommittedLog, Tracks, HistoryOk, NodeOk;
    r := log;
    if todo != {} {
      var p :| p in todo;
      r := LongEnoughForHosts(s, todo - {p}, log);
      NodeCommitted(s, p);
      NodeFacts(s, p);
      r := Longer(s.h.past, r, s.nodes[p].log[..s.nodes[p].commit]);
    }
  }

  lemma {:induction false} LongEnoughForEntries(x: P.Past, todo: set<LogEntry>, log: Log) returns (r: Log)
    requires PastOk(x) && CommittedLog(x, log) && forall e | e in todo :: Settled(x, e)
    ensures CommittedLog(x, r) && log <= r && forall e | e in todo :: 1 <= e.index <= |r|
    decreases todo
  {
    hide PastOk, CommittedLog, Settled;
    r := log;
    if todo != {} {
      var e :| e in todo;
      r := LongEnoughForEntries(x, todo - {e}, log);
      var g := SettledInLog(x, e);
      r := Longer(x, r, g);
    }
  }

  /** The key-value map is the fold of the log up to the applier's position. */
  ghost predicate KvIsFold(h: C.Host, log: Log) {
    C.Position(h) <= |log| && h.kv == Fold(log[..C.Position(h)])
  }

  /** The history accounts for everything the system did: each state machine is the fold of a prefix
      of it, and everything applied anywhere or acknowledged to a client is in it. */
  ghost predicate Explains(c: C.State, history: Log) {
    && (forall p | p in c.hosts :: KvIsFold(c.hosts[p], history))
    && (forall a | a in c.applied :: 1 <= a.entry.index <= |history| && history[a.entry.index - 1] == a.entry)
    && (forall r | r in c.acked :: 1 <= r.index <= |history| && history[r.index - 1] == EntryOf(r))
  }

  lemma HostExplained(c: C.State, s: P.State, p: NodeId, history: Log)
    requires ClusterRel(c, s) && p in c.hosts && CommittedLog(s.h.past, history) && s.At(p).commit <= |history|
    ensures KvIsFold(c.At(p), history)
  {
    hide ClusterRel, Inv, HistoryOk, NodeOk, NodeRel, PastOk, LogOk, Ordered, Indexed, Covered, HostRel, ApplierRel,
         RequestsRel, ConfigRel, Fold, Tracks;
    HostFacts(c, s, p);
    NodeFacts(s, p);
    var n, k := s.nodes[p], C.Position(c.hosts[p]);
    NodeCovered(s.h, p, n);
    ApplierKv(c.hosts[p], n);
    var hi: nat :| Covered(s.h.past, history, |history|, hi);
    PS.CoveredAgree(s.h.past, n.log, n.commit, n.term, history, |history|, hi, k);
    AgreeBounds(n.log, history, k);
  }

  lemma ApplierKv(h: C.Host, n: P.Node)
    requires ApplierRel(h, n)
    ensures C.Position(h) <= n.commit && KvIsFold(h, n.log)
  {
  }

  lemma EntryExplained(x: P.Past, e: LogEntry, history: Log)
    requires PastOk(x) && Settled(x, e) && CommittedLog(x, history) && 1 <= e.index <= |history|
    ensures history[e.index - 1] == e
  {
    hide PastOk, Settled, Covered;
    var g := SettledInLog(x, e);
    var i: nat :| Covered(x, g, |g|, i);
    var j: nat :| Covered(x, history, |history|, j);
    PS.CoveredAgree(x, g, |g|, i, history, |history|, j, e.index);
  }

  lemma Explained(c: C.State, s: P.State, history: Log)
    requires ClusterRel(c, s) && CommittedLog(s.h.past, history)
    requires forall p | p in s.nodes :: s.At(p).commit <= |history|
    requires forall a | a in c.applied :: 1 <= a.entry.index <= |history|
    requires forall r | r in c.acked :: 1 <= r.index <= |history|
    ensures Explains(c, history)
  {
    hide Inv, HostRel, PacketRel, Settled, CommittedLog, Tracks;
    InvPast(s);
    forall p | p in c.hosts ensures KvIsFold(c.hosts[p], history) { HostExplained(c, s, p, history); }
    forall a | a in c.applied ensures history[a.entry.index - 1] == a.entry {
      EntryExplained(s.h.past, a.entry, history);
    }
    forall r | r in c.acked ensures history[r.index - 1] == EntryOf(r) {
      EntryExplained(s.h.past, EntryOf(r), history);
    }
  }

  /** Extending a committed history until it explains the current state. */
  lemma HistoryGrows(c: C.State, s: P.State, history: Log) returns (longer: Log)
    requires ClusterRel(c, s) && CommittedLog(s.h.past, history)
    ensures CommittedLog(s.h.past, longer) && history <= longer && Explains(c, longer)
  {
    hide Inv, HostRel, PacketRel, Settled, CommittedLog, Explains, HistoryOk, PastOk;
    InvPast(s);
    longer := LongEnoughForHosts(s, s.nodes.Keys, history);
    var entries := (set a | a in c.applied :: a.entry) + (set r | r in c.acked :: EntryOf(r));
    longer := LongEnoughForEntries(s.h.past, entries, longer);
    forall r | r in c.acked ensures 1 <= r.index <= |longer| { assert EntryOf(r) in entries; }
    Explained(c, s, longer);
  }

  /** A log that only ever grows, and that explains each of the first k states. */
  ghost predicate ExplainsFirst(b: seq<C.State>, hs: seq<Log>, k: nat) {
    && |hs| == k <= |b| && (forall i | 0 <= i < k :: Explains(b[i], hs[i]))
    && forall i, j | 0 <= i <= j < k :: hs[i] <= hs[j]
  }

  ghost predicate ExplainsRun(b: seq<C.State>, hs: seq<Log>) { ExplainsFirst(b, hs, |b|) }

  /** There is one history. Every run has a log that only ever grows and that explains every state of
      the run: all state machines, all Apply calls and all acknowledged writes. */
  lemma OneHistory(b: seq<C.State>) returns (hs: seq<Log>)
    requires C.Run(b)
    ensures ExplainsRun(b, hs)
  {
    hide Explains, C.Run, Tracks;
    var ss := RunTracked(b);
    hs := HistoriesOf(b, ss, |b|);
  }

  ghost predicate EndsCommitted(ss: seq<P.State>, hs: seq<Log>) {
    0 < |hs| <= |ss| ==> CommittedLog(ss[|hs| - 1].h.past, hs[|hs| - 1])
  }

  lemma {:induction false} HistoriesOf(b: seq<C.State>, ss: seq<P.State>, k: nat) returns (hs: seq<Log>)
    requires Tracks(b, ss) && k <= |b|
    ensures ExplainsFirst(b, hs, k) && EndsCommitted(ss, hs)
    decreases k
  {
    hide ClusterRel, Explains, CommittedLog, Reaches, PastExtends, P.Init;
    hs := [];
    if k > 0 {
      hs := HistoriesOf(b, ss, k - 1);
      var last: Log := [];
      if k > 1 {
        last := hs[k - 2];
        assert Extends(ss[k - 2].h, ss[k - 2 + 1].h);
        CommittedForGood(ss[k - 2].h.past, ss[k - 1].h.past, last);
      } else {
        EmptyCommitted(ss[0].h.past);
      }
      var longer := HistoryGrows(b[k - 1], ss[k - 1], last);
      hs := hs + [longer];
    }
  }

  lemma EmptyCommitted(x: P.Past)
    ensures CommittedLog(x, [])
  {
    assert Covered(x, [], 0, 0);
  }
}
