/**
 What a compacted, durable node has to do with its uncompacted counterpart in the protocol, and how
 the protocol is driven to follow it.
 */
module NodeRelation {
  import opened Types
  import opened Logs
  import opened SentinelLog
  import opened WalRecords
  import opened KvState
  import opened NodeState
  import P = Protocol
  import opened ProtocolInvariant
  import opened ProtocolSteps
  import opened ProtocolSafety

  // ---- The relation ----------------------------------------------------------------------------

  /** The snapshot of a log at index i. */
  function SnapshotOf(log: Log, i: nat): Snapshot
    requires i <= |log|
  {
    Snapshot(i, TermAt(log, i), Fold(log[..i]))
  }

  ghost predicate SnapRel(snap: Option<Snapshot>, log: Log, b: nat) {
    b <= |log| && match snap case None => b == 0 case Some(s) => s == SnapshotOf(log, b)
  }

  /** Replaying the write-ahead log yields the log from some point at or below the boundary. */
  ghost predicate Faithful(wal: seq<WalRecord>, log: Log, b: nat) {
    exists lo: nat :: lo <= b && lo <= |log| && Replay(wal) == Some(log[lo..])
  }

  /** Replaying it yields `was` from lo on: either the log beyond the boundary, or only entries below
      it, with nothing beyond it in the log. */
  ghost predicate Remains(wal: seq<WalRecord>, log: Log, b: nat, was: Log, lo: nat) {
    && Indexed(was) && lo <= b <= |log| && lo <= |was| && Replay(wal) == Some(was[lo..])
    && if |was| == |log| then was[b..] == log[b..] else lo < |was| < b == |log|
  }

  /** What is left of the relation after a crash hit an install: beyond the boundary the write-ahead log
      still yields the log, or it is beyond repair. */
  ghost predicate Loose(wal: seq<WalRecord>, log: Log, b: nat) {
    Replay(wal) == None || exists was: Log, lo: nat :: Remains(wal, log, b, was, lo)
  }

  ghost predicate WalRel(wal: seq<WalRecord>, log: Log, b: nat, torn: bool) {
    if torn then Loose(wal, log, b) else Faithful(wal, log, b)
  }

  ghost predicate DiskRel(d: Disk, a: P.Node, b: nat) {
    d.hard == HardState(a.term, a.vote) && SnapRel(d.snap, a.log, b) && WalRel(d.wal, a.log, b, !a.damage.Intact?)
  }

  ghost function PeerSet(peers: seq<NodeId>): set<NodeId> { set q | q in peers }

  /** The vote counter counts the distinct members whose vote was received. */
  ghost predicate ElectionRel(c: Node, a: P.Node) {
    && c.votes == |a.granted| && c.id in a.granted && a.granted <= {c.id} + PeerSet(c.peers)
    && c.unanswered <= PeerSet(c.peers) && a.granted !! c.unanswered
  }

  ghost predicate LeaderRel(c: Node, a: P.Node) {
    forall q | q in c.peers ::
      && q in c.nextIndex && 1 <= c.nextIndex[q] <= |a.log| + 1
      && q in c.matchIndex && c.matchIndex[q] <= |a.log|
      && (c.matchIndex[q] > 0 ==> q in a.matched && a.matched[q] == c.matchIndex[q])
  }

  /** The node's log is the protocol's log with everything up to the sentinel compacted away. */
  ghost predicate LogRel(c: Node, a: P.Node) {
    && Indexed(a.log) && Numbered(c.log) && Base(c.log) <= a.commit <= |a.log|
    && c.log == Compacted(a.log, Base(c.log))
  }

  ghost predicate NodeRel(c: Node, a: P.Node) {
    && c.currentTerm == a.term && c.votedFor == a.vote && c.state == a.role && c.commitIndex == a.commit
    && LogRel(c, a) && SortedFrom(a.log, Base(c.log)) && DiskRel(c.disk, a, Base(c.log))
    && (c.state == Candidate ==> ElectionRel(c, a))
    && (c.state == Leader ==> LeaderRel(c, a))
  }

  /** The configuration: this node and its peers are the members, each listed once. */
  ghost predicate ConfigRel(c: Node, p: NodeId, members: set<NodeId>) {
    && c.id == p && p !in c.peers && members == {p} + PeerSet(c.peers)
    && (forall i, j | 0 <= i < j < |c.peers| :: c.peers[i] != c.peers[j])
  }

  // ---- Durable records -------------------------------------------------------------------------

  lemma SnapKept(snap: Option<Snapshot>, log: Log, log': Log, b: nat)
    requires SnapRel(snap, log, b) && Agree(log, log', b)
    ensures SnapRel(snap, log', b)
  {
    assert log[..b] == log'[..b];
  }

  /** A faithful write-ahead log is all the more loosely related. */
  lemma FaithfulIsLoose(wal: seq<WalRecord>, log: Log, b: nat)
    requires Faithful(wal, log, b) && Indexed(log) && b <= |log|
    ensures Loose(wal, log, b)
  {
    var lo: nat :| lo <= b && lo <= |log| && Replay(wal) == Some(log[lo..]);
    assert Remains(wal, log, b, log, lo);
  }

  lemma WalAppended(wal: seq<WalRecord>, log: Log, b: nat, more: seq<LogEntry>, torn: bool)
    requires WalRel(wal, log, b, torn) && Indexed(log + more)
    ensures WalRel(wal + AppendRecords(more), log + more, b, torn)
  {
    hide Replay, AppendRecords;
    if torn {
      LooseAppended(wal, log, b, more);
    } else {
      var lo: nat :| lo <= b && lo <= |log| && Replay(wal) == Some(log[lo..]);
      ReplayAppends(wal, log, lo, more);
    }
  }

  lemma LooseAppended(wal: seq<WalRecord>, log: Log, b: nat, more: seq<LogEntry>)
    requires Loose(wal, log, b) && Indexed(log + more)
    ensures Loose(wal + AppendRecords(more), log + more, b)
  {
    hide Replay;
    if more == [] {
      assert wal + AppendRecords(more) == wal && log + more == log;
    } else if Replay(wal) == None {
      ReplayStopped(wal, AppendRecords(more));
    } else {
      var was: Log, lo: nat :| Remains(wal, log, b, was, lo);
      if |was| == |log| {
        SameBeyond(log, was, b, more);
        ReplayAppends(wal, was, lo, more);
        assert Remains(wal + AppendRecords(more), log + more, b, was + more, lo);
      } else {
        assert (log + more)[|log|] == more[0];
        GapStops(wal, was, lo, more);
      }
    }
  }

  lemma SameBeyond(log: Log, was: Log, b: nat, more: seq<LogEntry>)
    requires |was| == |log| && Indexed(was) && Indexed(log + more) && b <= |log| && was[b..] == log[b..]
    ensures Indexed(was + more) && (was + more)[b..] == (log + more)[b..]
  {
    forall i | 0 <= i < |was + more| ensures (was + more)[i].index == i + 1 {
      if i >= |was| { assert (was + more)[i] == (log + more)[i]; }
    }
    assert (was + more)[b..] == was[b..] + more && (log + more)[b..] == log[b..] + more;
  }

  /** Entries that do not continue the write-ahead log make it unreadable. */
  lemma GapStops(wal: seq<WalRecord>, was: Log, lo: nat, more: seq<LogEntry>)
    requires Indexed(was) && lo < |was| && Replay(wal) == Some(was[lo..]) && |more| > 0 && more[0].index > |was| + 1
    ensures Replay(wal + AppendRecords(more)) == None
  {
    var w := wal + [AppendRecord(more[0])];
    assert w[..|w| - 1] == wal;
    assert was[lo..][|was| - lo - 1] == was[|was| - 1];
    assert wal + AppendRecords(more) == w + AppendRecords(more)[1..];
    ReplayStopped(w, AppendRecords(more)[1..]);
  }

  lemma WalTruncated(wal: seq<WalRecord>, log: Log, b: nat, c: nat, torn: bool)
    requires WalRel(wal, log, b, torn) && Indexed(log) && b <= c < |log|
    ensures WalRel(wal + [TruncateRecord(c + 1)], log[..c], b, torn)
  {
    hide Replay;
    if !torn {
      var lo: nat :| lo <= b && lo <= |log| && Replay(wal) == Some(log[lo..]);
      ReplayTruncate(wal, log, lo, c);
    } else if Replay(wal) == None {
      ReplayStopped(wal, [TruncateRecord(c + 1)]);
    } else {
      var was: Log, lo: nat :| Remains(wal, log, b, was, lo);
      ReplayTruncate(wal, was, lo, c);
      assert was[..c][b..] == was[b..][..c - b] && log[..c][b..] == log[b..][..c - b];
      assert Remains(wal + [TruncateRecord(c + 1)], log[..c], b, was[..c], lo);
    }
  }

  /** The records that turn `log` into the leader's prefix m, when they agree on the first c entries. */
  function MergeRecords(log: Log, m: Log, c: nat): seq<WalRecord>
    requires c <= |m|
  {
    (if c < |log| then [TruncateRecord(c + 1)] else []) + AppendRecords(m[c..])
  }

  /** A crash after the first j records leaves the shared part plus a prefix of the leader's entries. */
  lemma TornMerge(wal: seq<WalRecord>, log: Log, b: nat, m: Log, c: nat, j: nat, torn: bool) returns (k: nat)
    requires WalRel(wal, log, b, torn) && Indexed(log) && Indexed(m) && Agree(m, log, c) && b <= c
    requires 0 < j <= |MergeRecords(log, m, c)|
    ensures c <= k <= |m| && WalRel(wal + MergeRecords(log, m, c)[..j], m[..k], b, torn)
    ensures c == |log| ==> k > c
    ensures j == |MergeRecords(log, m, c)| ==> k == |m|
  {
    hide WalRel, Replay, AppendRecords;
    var cut := if c < |log| then [TruncateRecord(c + 1)] else [];
    k := c + j - |cut|;
    SharedPart(log, m, c, k);
    if c < |log| { WalTruncated(wal, log, b, c, torn); } else { assert log[..c] == log && wal + cut == wal; }
    WalAppended(wal + cut, m[..c], b, m[c..k], torn);
    TornRecords(cut, m, c, k);
    assert wal + (cut + AppendRecords(m[c..k])) == wal + cut + AppendRecords(m[c..k]);
  }

  lemma SharedPart(log: Log, m: Log, c: nat, k: nat)
    requires Agree(m, log, c) && c <= k <= |m| && Indexed(m)
    ensures log[..c] == m[..c] && m[..c] + m[c..k] == m[..k] && Indexed(m[..k])
  {
  }

  lemma TornRecords(cut: seq<WalRecord>, m: Log, c: nat, k: nat)
    requires c <= k <= |m|
    ensures (cut + AppendRecords(m[c..]))[..|cut| + k - c] == cut + AppendRecords(m[c..k])
  {
    assert forall i | 0 <= i < k - c :: m[c..][i] == m[c..k][i];
  }

  // ---- Driving the protocol --------------------------------------------------------------------

  ghost predicate Path(b: seq<P.State>) {
    |b| > 0 && forall i | 0 <= i < |b| - 1 :: P.Next(b[i], b[i + 1])
  }

  /** The protocol can get from s to s'. */
  ghost predicate Reaches(s: P.State, s': P.State) {
    exists b :: Path(b) && b[0] == s && b[|b| - 1] == s'
  }

  lemma ReachesMore(s: P.State, s1: P.State, e: P.Event)
    requires Reaches(s, s1) && P.Enabled(s1, e)
    ensures Reaches(s, P.Do(s1, e))
  {
    hide P.Do, P.Enabled;
    var b :| Path(b) && b[0] == s && b[|b| - 1] == s1;
    var b' := b + [P.Do(s1, e)];
    assert P.Next(s1, P.Do(s1, e));
    forall i | 0 <= i < |b'| - 1 ensures P.Next(b'[i], b'[i + 1]) {
      if i < |b| - 1 { assert P.Next(b[i], b[i + 1]); }
    }
    assert Path(b');
  }

  /** Committed entries stay, the commit index does not go down, and no install was torn. */
  ghost predicate KeepsCommitted(a: P.Node, a': P.Node) {
    a.commit <= a'.commit && Agree(a.log, a'.log, a.commit) && a'.damage == a.damage
  }

  /** Whoever acknowledged something between s and s' is in the term of it in s', and holds it. */
  ghost predicate FreshAcks(s: P.State, s': P.State) {
    forall a | a in AllAcks(s'.h) && a !in AllAcks(s.h) ::
      && a.from in s'.nodes && s'.nodes[a.from].term == a.term && a.term in s'.h.past.led
      && Agree(s'.h.past.led[a.term].log, s'.nodes[a.from].log, a.len)
  }

  /** Everything acknowledged so far. */
  ghost function AllAcks(h: P.History): set<P.Ack> { h.past.acks + h.past.soft }

  /** What p acknowledges by accepting the request. */
  ghost function AckFor(a: AppendArgs, p: NodeId): P.Ack { P.Ack(a.term, p, a.prevLogIndex + |a.entries|) }

  /** Whoever voted between s and s' is in the term of that vote in s', and has that vote. */
  ghost predicate FreshVotes(s: P.State, s': P.State) {
    forall v | v in s'.h.votes && v !in s.h.votes ::
      v.voter in s'.nodes && s'.nodes[v.voter].term == v.term && s'.nodes[v.voter].vote == Some(v.candidate)
  }

  /** Some events lead from s to s', and what is new in the history is in force in s'. */
  ghost predicate Leads(s: P.State, s': P.State) {
    Reaches(s, s') && Extends(s.h, s'.h) && FreshAcks(s, s') && FreshVotes(s, s')
  }

  /** From s, events of p lead to s'. */
  ghost predicate Onward(s: P.State, s': P.State, p: NodeId) {
    && Inv(s') && Leads(s, s')
    && p in s.nodes && s'.nodes.Keys == s.nodes.Keys
    && (forall q | q in s.nodes && q != p :: s'.nodes[q] == s.nodes[q])
  }

  /** From s, events of p other than a restart lead to s'. */
  ghost predicate Ahead(s: P.State, s': P.State, p: NodeId) {
    Onward(s, s', p) && KeepsCommitted(s.nodes[p], s'.nodes[p])
  }

  lemma AheadFacts(s: P.State, s': P.State, p: NodeId)
    requires Ahead(s, s', p)
    ensures Inv(s') && p in s.nodes && p in s'.nodes && Onward(s, s', p)
  {
    hide Leads, Inv;
  }

  lemma Here(s: P.State, p: NodeId)
    requires Inv(s) && p in s.nodes
    ensures Ahead(s, s, p)
  {
    hide Inv, Extends, P.Next;
    assert Path([s]) && [s][0] == s && [s][|[s]| - 1] == s;
    ExtendsReflexive(s.h);
    CommitInLog(s, p);
  }

  /** Terms rise before anything else happens, and the log changes before anything is acknowledged. */
  ghost predicate InOrder(s: P.State, s1: P.State, e: P.Event) {
    && (e.Timeout? || e.ObserveTerm? ==> s1 == s)
    && (e.WriteLog? || e.TornInstall? ==> s1.h == s.h)
  }

  lemma Go(s: P.State, s1: P.State, p: NodeId, e: P.Event) returns (s': P.State)
    requires Ahead(s, s1, p) && P.Enabled(s1, e) && e.p == p && !e.Restart? && !e.TornInstall? && InOrder(s, s1, e)
    ensures s' == P.Do(s1, e) && Ahead(s, s', p)
  {
    hide Inv, Reaches, FreshAcks, FreshVotes, Extends, Path, P.HistoryAfter;
    s' := P.Do(s1, e);
    StillFresh(s, s1, e);
    EventKept(s1, e);
    ReachesMore(s, s1, e);
    CommittedIsKept(s1, e, p);
    ExtendsTransitive(s.h, s1.h, s'.h);
  }

  lemma StillFresh(s: P.State, s1: P.State, e: P.Event)
    requires Inv(s1) && FreshAcks(s, s1) && FreshVotes(s, s1) && P.Enabled(s1, e) && InOrder(s, s1, e)
    ensures FreshAcks(s, P.Do(s1, e)) && FreshVotes(s, P.Do(s1, e))
  {
    hide Inv, NodeOk, HistoryOk;
    var s' := P.Do(s1, e);
    forall a | a in AllAcks(s'.h) && a !in AllAcks(s.h)
      ensures a.from in s'.nodes && s'.nodes[a.from].term == a.term && a.term in s'.h.past.led
      ensures Agree(s'.h.past.led[a.term].log, s'.nodes[a.from].log, a.len)
    {
      if a in AllAcks(s1.h) { FreshStays(s1, e, a); } else { NewAckHeld(s1, s', a); }
    }
  }

  /** An acknowledgement in force stays in force while neither the term nor the log changes. */
  lemma FreshStays(s: P.State, e: P.Event, a: P.Ack)
    requires Inv(s) && P.Enabled(s, e) && a in AllAcks(s.h) && a.from in s.nodes && s.At(a.from).term == a.term
    requires a.term in s.h.past.led && Agree(s.h.past.Led(a.term), s.At(a.from).log, a.len)
    requires !e.Timeout? && !e.ObserveTerm? && !e.WriteLog? && !e.TornInstall?
    ensures var s' := P.Do(s, e);
      && s'.At(a.from).term == a.term && a.term in s'.h.past.led
      && Agree(s'.h.past.Led(a.term), s'.At(a.from).log, a.len)
  {
    hide Inv, NodeOk, HistoryOk, Reaches, P.HistoryAfter;
    EventKept(s, e);
    WitnessStays(s.h, P.Do(s, e).h, a, s.nodes[a.from].log);
  }

  lemma Restarted(s: P.State, s1: P.State, p: NodeId, commit: nat) returns (s': P.State)
    requires p in s1.nodes && commit <= s1.At(p).commit && Onward(s, s1, p)
    ensures s' == P.State(
      s1.nodes[p := s1.At(p).(role := Follower, commit := commit, granted := {}, matched := map[])], s1.h)
    ensures Onward(s, s', p)
  {
    hide Inv, Reaches, FreshAcks, FreshVotes, Extends;
    var e := P.Restart(p, commit);
    s' := P.Do(s1, e);
    StillFresh(s, s1, e);
    EventKept(s1, e);
    ReachesMore(s, s1, e);
    ExtendsTransitive(s.h, s1.h, s'.h);
  }

  /** A crash in the middle of an install. */
  lemma TornOnward(s: P.State, s1: P.State, p: NodeId, m: P.Append) returns (s': P.State)
    requires p in s1.nodes && Onward(s, s1, p) && s1.h == s.h && P.Enabled(s1, P.TornInstall(p, m))
    ensures s' == P.State(s1.nodes[p := P.Torn(s1.At(p), m.prefix)], s1.h) && Onward(s, s', p)
  {
    hide Inv, Reaches, FreshAcks, FreshVotes, Extends, P.Torn;
    var e := P.TornInstall(p, m);
    s' := P.Do(s1, e);
    StillFresh(s, s1, e);
    EventKept(s1, e);
    ReachesMore(s, s1, e);
    ExtendsTransitive(s.h, s1.h, s'.h);
  }

  /** What the invariant says about one node. */
  lemma NodeFacts(s: P.State, p: NodeId)
    requires Inv(s) && p in s.nodes
    ensures NodeOk(s.h, p, s.At(p)) && HistoryOk(s.h) && PastOk(s.h.past) && LogOk(s.h.past.led, s.At(p))
  {
    hide Leads, PastOk;
  }

  lemma WholeFacts(s: P.State, p: NodeId)
    requires Inv(s) && p in s.nodes && (!s.At(p).damage.Tainted? || s.At(p).role == Leader)
    ensures Rooted(s.h.past.led, s.At(p).log) && Ordered(s.At(p).term, s.At(p).log)
  {
    hide HistoryOk, NodeOk, Rooted, Leads, Reaches;
    NodeFacts(s, p);
    if s.nodes[p].role == Leader { LeaderIsWhole(s.h, p, s.nodes[p]); }
    WholeLog(s.h.past, s.nodes[p]);
  }

  /** Equal terms at an index mean equal logs up to it. */
  ghost predicate Matches(log: Log, m: Log) {
    forall i: nat | i <= |log| && i <= |m| && TermAt(m, i) == TermAt(log, i) :: Agree(m, log, i)
  }

  /** Log Matching between a node, whatever state its log is in, and a leader of its term or later. */
  lemma LeaderMatches(s: P.State, p: NodeId, m: Log, t: nat)
    requires Inv(s) && p in s.nodes && t in s.h.past.led && s.At(p).term <= t && Includes(s.h.past.Led(t), m)
    ensures Matches(s.At(p).log, m)
  {
    hide Inv, NodeOk, HistoryOk, Stale, Covered, AcksHeld, ElectorsRespected, SoftOk, AckOk;
    NodeFacts(s, p);
    var x, n := s.h.past, s.nodes[p];
    assert ReignOk(x, t);
    RootedPrefix(x.led, x.led[t].log, m);
    forall i: nat | i <= |n.log| && i <= |m| && TermAt(m, i) == TermAt(n.log, i) ensures Agree(m, n.log, i) {
      if i <= n.sound {
        LogMatching(x.led, m, n.log[..n.sound], i);
      } else {
        StaleFact(s.h, p, n);
        NeverMatches(x, p, n, m, t, i);
      }
    }
  }

  lemma StaleFact(h: P.History, p: NodeId, n: P.Node)
    requires NodeOk(h, p, n) && n.sound < |n.log|
    ensures Stale(h.past, p, n)
  {
  }

  lemma LogIndexed(s: P.State, p: NodeId)
    requires Inv(s) && p in s.nodes
    ensures Indexed(s.At(p).log)
  {
    hide Inv, NodeOk, HistoryOk, Stale, Leads, PastOk;
    NodeFacts(s, p);
    var x, n := s.h.past, s.nodes[p];
    LogOrdered(x, n.log[..n.sound], n.term);
    if n.sound < |n.log| { StaleFact(s.h, p, n); TailIndexed(x, p, n); }
    forall i | 0 <= i < |n.log| ensures n.log[i].index == i + 1 {
      if i < n.sound { assert n.log[..n.sound][i] == n.log[i]; }
    }
  }

  lemma TailSorted(x: P.Past, p: NodeId, n: P.Node)
    requires PastOk(x) && Stale(x, p, n)
    ensures SortedFrom(n.log, n.sound)
  {
    hide PastOk, Rooted, Outdated, AckedOwn, Bounds;
    var was: Log :| LeftFrom(x.led, n, was);
    RootedSorted(x, was);
  }

  lemma TailIndexed(x: P.Past, p: NodeId, n: P.Node)
    requires PastOk(x) && Stale(x, p, n)
    ensures forall i | n.sound <= i < |n.log| :: n.log[i].index == i + 1
  {
    hide CoveredBy;
    var was: Log :| LeftFrom(x.led, n, was);
    forall i | n.sound <= i < |n.log| ensures n.log[i].index == i + 1 {
      assert was[i].term in x.led && ReignOk(x, was[i].term);
      assert Agree(was, x.led[was[i].term].log, i + 1);
    }
  }
}
