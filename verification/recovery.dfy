/** Crashes at any point, and recovery from what is on disk (NewNode). */
module Recovery {
  import opened Types
  import opened Logs
  import opened SentinelLog
  import opened WalRecords
  import opened KvState
  import opened NodeState
  import opened NodeRelation
  import opened NodeSimulation
  import opened AppendSimulation
  import P = Protocol
  import opened ProtocolInvariant

  lemma {:induction false} BeyondSuffix(full: Log, lo: nat, b: nat)
    requires Indexed(full) && lo <= b <= |full|
    ensures Beyond(full[lo..], b) == Some(full[b..])
    decreases |full|
  {
    var entries := full[lo..];
    if b == |full| {
      assert full[b..] == [];
      BeyondCovered(entries, b);
    } else {
      var shorter, last := full[..|full| - 1], full[|full| - 1];
      BeyondSuffix(shorter, lo, b);
      assert entries[|entries| - 1] == last && entries[..|entries| - 1] == shorter[lo..];
      assert full[b..] == shorter[b..] + [last];
    }
  }

  /** Entries the snapshot covers are all skipped. */
  lemma {:induction false} BeyondCovered(entries: seq<LogEntry>, b: nat)
    requires forall i | 0 <= i < |entries| :: entries[i].index <= b
    ensures Beyond(entries, b) == Some([])
  {
    if entries != [] { BeyondCovered(entries[..|entries| - 1], b); }
  }

  /** The entries beyond index b, in their order. */
  function Higher(entries: seq<LogEntry>, b: nat): seq<LogEntry> {
    if entries == [] then []
    else
      var last := entries[|entries| - 1];
      Higher(entries[..|entries| - 1], b) + if last.index > b then [last] else []
  }

  predicate ContinuesFrom(entries: seq<LogEntry>, b: nat) {
    forall i | 0 <= i < |entries| :: entries[i].index == b + 1 + i
  }

  /** NewNode takes exactly the entries beyond the boundary, and refuses them if and only if they do not go on from
      there one by one. */
  lemma {:induction false} BeyondExactly(entries: seq<LogEntry>, b: nat)
    ensures Beyond(entries, b) == if ContinuesFrom(Higher(entries, b), b) then Some(Higher(entries, b)) else None
  {
    if entries != [] {
      var before, last := entries[..|entries| - 1], entries[|entries| - 1];
      BeyondExactly(before, b);
      var kept, more := Higher(before, b), Higher(entries, b);
      if last.index > b {
        assert more == kept + [last] && more[|kept|] == last;
        assert ContinuesFrom(more, b) <==> ContinuesFrom(kept, b) && last.index == b + 1 + |kept| by {
          assert forall i | 0 <= i < |kept| :: more[i] == kept[i];
        }
      } else {
        assert more == kept;
      }
    }
  }

  /** The abstract node after a restart that remembers commits up to b. */
  ghost function Rebooted(a: P.Node, b: nat): P.Node {
    a.(role := Follower, commit := b, granted := {}, matched := map[])
  }

  /** Unless a crash hit an install, the write-ahead log can always be replayed. */
  lemma OnlyTornRefused(d: Disk, a: P.Node, b: nat)
    requires DiskRel(d, a, b) && Replay(d.wal).None?
    ensures !a.damage.Intact?
  {
    hide Replay, SnapRel;
  }

  /** Recovery, if it succeeds, rebuilds exactly the compacted log. */
  lemma RecoverRel(d: Disk, a: P.Node, b: nat, id: NodeId, peers: seq<NodeId>, threshold: nat)
    requires DiskRel(d, a, b) && Indexed(a.log) && b <= |a.log| && SortedFrom(a.log, b) && Replay(d.wal).Some?
    ensures Recover(id, peers, threshold, d).Some?
    ensures var c := Recover(id, peers, threshold, d).value;
      && c.id == id && c.peers == peers && c.threshold == threshold && c.log == Compacted(a.log, b) && c.disk == d
      && c.commitIndex == c.lastApplied == b && c.pending == None && c.state == Follower
      && NodeRel(c, Rebooted(a, b))
  {
    hide WalRel, Replay, Beyond, Fold;
    WalBeyond(d.wal, a.log, b, !a.damage.Intact?);
  }

  lemma WalBeyond(wal: seq<WalRecord>, log: Log, b: nat, torn: bool)
    requires WalRel(wal, log, b, torn) && Indexed(log) && b <= |log| && Replay(wal).Some?
    ensures Beyond(Replay(wal).value, b) == Some(log[b..])
  {
    hide Replay, Beyond;
    if !torn { FaithfulIsLoose(wal, log, b); }
    var was: Log, lo: nat :| Remains(wal, log, b, was, lo);
    if |was| == |log| {
      BeyondSuffix(was, lo, b);
    } else {
      BeyondCovered(was[lo..], b);
      assert log[b..] == [];
    }
  }

  /** NewNode accepts the disk d of node c, and the protocol has the new process as n. */
  ghost predicate RecoversAs(c: Node, d: Disk, n: P.Node) {
    var r := Recover(c.id, c.peers, c.threshold, d);
    r.Some? && NodeRel(r.value, n)
  }

  ghost predicate AtBase(c: Node, n: P.Node) { Numbered(c.log) && n.commit == Base(c.log) }

  /** A crash between two locked regions. */
  lemma SimCrash(s0: P.State, p: NodeId, c: Node) returns (s: P.State)
    requires Inv(s0) && p in s0.nodes && NodeRel(c, s0.At(p)) && Replay(c.disk.wal).Some?
    ensures Onward(s0, s, p) && p in s.nodes
    ensures s.At(p).log == s0.At(p).log && s.At(p).damage == s0.At(p).damage
    ensures RecoversAs(c, c.disk, s.At(p)) && AtBase(c, s.At(p))
  {
    hide Inv, Onward, Recover, WalRel;
    Here(s0, p);
    assert Onward(s0, s0, p) by { assert Ahead(s0, s0, p); }
    s := Restarted(s0, s0, p, Base(c.log));
    RecoverRel(c.disk, s0.nodes[p], Base(c.log), c.id, c.peers, c.threshold);
  }

  /** A crash right after a handler stored a higher term and before it did anything else. */
  lemma SimTornTerm(s0: P.State, p: NodeId, c: Node, t: nat) returns (s: P.State)
    requires Inv(s0) && p in s0.nodes && NodeRel(c, s0.At(p)) && t > c.currentTerm && Replay(c.disk.wal).Some?
    ensures Onward(s0, s, p) && p in s.nodes
    ensures s.At(p).log == s0.At(p).log && s.At(p).damage == s0.At(p).damage
    ensures RecoversAs(c, c.disk.(hard := HardState(t, None)), s.At(p)) && AtBase(c, s.At(p))
  {
    hide Inv, Reaches, Recover, WalRel, Onward;
    s := SimObserve(s0, p, c, t);
    var a := s.nodes[p];
    s := Restarted(s0, s, p, Base(c.log));
    RecoverRel(c.disk.(hard := HardState(t, None)), a, Base(c.log), c.id, c.peers, c.threshold);
  }

  /** The disk in the middle of the append batch: the shared part and a prefix of the leader's entries. */
  lemma TornDiskRel(c: Node, n: P.Node, a: AppendArgs, m: P.Append, cut: nat, j: nat) returns (k: nat)
    requires LogRel(c, n) && DiskRel(c.disk, n, Base(c.log)) && AppendMatch(a, m) && Indexed(m.prefix)
    requires cut == m.prev + FirstNew(c.log, a.entries) && cut < |m.prefix|
    requires n.commit <= cut <= |n.log| && Agree(m.prefix, n.log, cut) && 0 < j <= |RecordsFor(c.log, a.entries)|
    ensures cut <= k <= |m.prefix|
    ensures DiskRel(c.disk.(wal := c.disk.wal + RecordsFor(c.log, a.entries)[..j]),
                    n.(log := m.prefix[..k], sound := k),
                    Base(c.log))
  {
    hide WalRel, FirstNew, IsNew, MergeRecords, Conflicts, RecordsFor, Written, Compacted, SnapRel;
    var b := Base(c.log);
    WrittenIsMerge(n.log, b, m.prefix, m.prev, cut);
    k := TornMerge(c.disk.wal, n.log, b, m.prefix, cut, j, !n.damage.Intact?);
    SnapKept(c.disk.snap, n.log, m.prefix[..k], b);
  }

  lemma SomethingNew(c: Node, a: AppendArgs)
    requires Numbered(c.log) && RecordsFor(c.log, a.entries) != []
    ensures FirstNew(c.log, a.entries) < |a.entries|
  {
    hide FirstNew;
  }

  ghost predicate TornAt(c: Node, entries: seq<LogEntry>, j: nat) {
    Numbered(c.log) && 0 < j <= |RecordsFor(c.log, entries)|
  }

  /** After j of the records NewNode refuses the disk only if it was damaged before; else the protocol has
      the new process as n. */
  ghost predicate TornAppendAs(c: Node, entries: seq<LogEntry>, j: nat, n0: P.Node, n: P.Node) {
    && TornAt(c, entries, j)
    && var d := c.disk.(wal := c.disk.wal + RecordsFor(c.log, entries)[..j]);
    if Replay(d.wal).None? then !n0.damage.Intact? else RecoversAs(c, d, n)
  }

  /** A crash inside the append batch of HandleAppendEntries, after j of its records: the node comes
      back with a prefix of the leader's log that still holds everything it had committed. */
  lemma SimTornAppend(s0: P.State, s1: P.State, p: NodeId, c: Node, a: AppendArgs, m: P.Append, j: nat)
    returns (s: P.State)
    requires Ahead(s0, s1, p) && s1.h == s0.h && Acceptable(s1, p, c, a, m) && TornAt(c, a.entries, j)
    ensures Onward(s0, s, p) && p in s.nodes && TornAppendAs(c, a.entries, j, s0.At(p), s.At(p))
    ensures s.At(p).log <= m.prefix && AtBase(c, s.At(p)) && s.At(p).damage == s0.At(p).damage
    ensures Agree(s1.At(p).log, s.At(p).log, s1.At(p).commit)
  {
    hide Inv, Reaches, Extends, Recover, Replay, DiskRel, FirstNew, IsNew, RecordsFor, Leads, P.HistoryAfter, Compacted;
    var n, b, cut := s1.nodes[p], Base(c.log), m.prev + FirstNew(c.log, a.entries);
    SomethingNew(c, a);
    CutFacts(s1, p, c, a, m, cut);
    var k := TornDiskRel(c, n, a, m, cut, j);
    s := Go(s0, s1, p, P.WriteLog(p, m, k));
    var n' := s.nodes[p];
    s := Restarted(s0, s, p, b);
    var d := c.disk.(wal := c.disk.wal + RecordsFor(c.log, a.entries)[..j]);
    if Replay(d.wal).Some? {
      RecoverRel(d, n', b, c.id, c.peers, c.threshold);
    } else {
      OnlyTornRefused(d, n', b);
    }
  }

  lemma WalHigher(wal: seq<WalRecord>, log: Log, b: nat, i: nat, torn: bool)
    requires WalRel(wal, log, b, torn) && b <= i <= |log|
    ensures WalRel(wal, log, i, torn)
  {
    hide Replay;
    if !torn {
      var lo: nat :| lo <= b && lo <= |log| && Replay(wal) == Some(log[lo..]);
      assert lo <= i;
    } else if Replay(wal).Some? {
      var was: Log, lo: nat :| Remains(wal, log, b, was, lo);
      if |was| == |log| { assert was[i..] == was[b..][i - b..] && log[i..] == log[b..][i - b..]; }
      assert Remains(wal, log, i, was, lo);
    }
  }

  /** The threshold path: after SaveSnapshot alone, and after the write-ahead log was compacted too,
      the disk describes the same log with the same boundary. */
  lemma SnapshotThenCompact(c: Node, n: P.Node, i: nat)
    requires NodeRel(c, n) && Base(c.log) < i <= n.commit
    ensures DiskRel(c.disk.(snap := Some(SnapshotOf(n.log, i))), n, i)
    ensures DiskRel(SaveAndCompact(c, SnapshotOf(n.log, i)).disk, n, i)
    ensures SaveAndCompact(c, SnapshotOf(n.log, i)).log == Compacted(n.log, i)
    ensures var d := SaveAndCompact(c, SnapshotOf(n.log, i)).disk;
      Replay(d.wal).Some? && d == c.disk.(snap := Some(SnapshotOf(n.log, i)), wal := d.wal)
  {
    hide WalRel, SnapRel, Compacted, LeaderRel, ElectionRel, SnapshotOf, SaveAndCompact;
    SavedRel(n.log, i);
    SaveIs(c, n.log, SnapshotOf(n.log, i));
    WalHigher(c.disk.wal, n.log, Base(c.log), i, !n.damage.Intact?);
    WalOfSuffix(n.log, i, !n.damage.Intact?);
  }

  lemma SavedRel(log: Log, i: nat)
    requires i <= |log|
    ensures SnapRel(Some(SnapshotOf(log, i)), log, i)
    ensures SnapshotOf(log, i).lastIndex == i && SnapshotOf(log, i).lastTerm == TermAt(log, i)
  {
  }

  lemma SaveIs(c: Node, log: Log, s: Snapshot)
    requires Indexed(log) && Numbered(c.log) && Base(c.log) < s.lastIndex <= |log|
    requires s.lastTerm == TermAt(log, s.lastIndex)
    requires c.log == Compacted(log, Base(c.log))
    ensures SaveAndCompact(c, s) == c.(log := Compacted(log, s.lastIndex),
                                       disk := c.disk.(snap := Some(s), wal := AppendRecords(log[s.lastIndex..])))
  {
    hide Compacted, AppendRecords, EntriesFrom;
    var i := s.lastIndex;
    CompactedFurther(log, Base(c.log), i);
    CompactedFrom(log, Base(c.log), i);
    if i == |log| { assert log[i..] == []; }
  }

  /** What recovery builds depends on the write-ahead log only through the log it rebuilds. */
  lemma SameRecovery(id: NodeId, peers: seq<NodeId>, threshold: nat, d: Disk, wal: seq<WalRecord>)
    requires var d' := d.(wal := wal);
      && Recover(id, peers, threshold, d).Some? && Recover(id, peers, threshold, d').Some?
      && Recover(id, peers, threshold, d).value.log == Recover(id, peers, threshold, d').value.log
    ensures var d' := d.(wal := wal);
      Recover(id, peers, threshold, d).value.(disk := d') == Recover(id, peers, threshold, d').value
  {
    hide Replay, Beyond;
  }

  ghost predicate Above(c: Node, i: nat) { Numbered(c.log) && Base(c.log) < i }

  /** The disks before and after the write-ahead log is compacted at i give the same process. */
  ghost predicate SameAfterBoth(c: Node, n: P.Node, i: nat) {
    && i <= |n.log| && Above(c, i)
    && var before := c.disk.(snap := Some(SnapshotOf(n.log, i)));
    var after := SaveAndCompact(c, SnapshotOf(n.log, i)).disk;
    && RecoversAs(c, before, n) && RecoversAs(c, after, n)
    && Recover(c.id, c.peers, c.threshold, before).value.(disk := after) ==
      Recover(c.id, c.peers, c.threshold, after).value
  }

  lemma SimTornCompact(s0: P.State, p: NodeId, c: Node, i: nat) returns (s: P.State)
    requires Inv(s0) && p in s0.nodes && NodeRel(c, s0.At(p)) && Above(c, i) && i <= s0.At(p).commit
    requires Replay(c.disk.wal).Some?
    ensures Onward(s0, s, p) && p in s.nodes && s.At(p).log == s0.At(p).log && s.At(p).commit == i
    ensures s.At(p).damage == s0.At(p).damage && SameAfterBoth(c, s.At(p), i)
  {
    hide Inv, Onward, DiskRel, Recover, Replay, SaveAndCompact, Fold, LeaderRel, ElectionRel, Compacted;
    var n := s0.nodes[p];
    Here(s0, p);
    assert Onward(s0, s0, p) by { assert Ahead(s0, s0, p); }
    SnapshotThenCompact(c, n, i);
    s := Restarted(s0, s0, p, i);
    var before, after := c.disk.(snap := Some(SnapshotOf(n.log, i))), SaveAndCompact(c, SnapshotOf(n.log, i)).disk;
    RecoverRel(before, n, i, c.id, c.peers, c.threshold);
    RecoverRel(after, n, i, c.id, c.peers, c.threshold);
    SameRecovery(c.id, c.peers, c.threshold, before, after.wal);
  }

  /** Between the two writes of an install, the old write-ahead log still yields what the torn log has
      beyond the snapshot. */
  lemma TornWal(wal: seq<WalRecord>, n: P.Node, b: nat, m: Log)
    requires WalRel(wal, n.log, b, !n.damage.Intact?) && Indexed(n.log) && Indexed(m) && b <= |n.log| && b < |m|
    requires Matches(n.log, m)
    ensures var log := P.Torn(n, m).log;
      Indexed(log) && |m| <= |log| && Includes(log, m) && Loose(wal, log, |m|)
  {
    hide Replay, P.Torn, Matches;
    var log := P.Torn(n, m).log;
    TornLog(n, m);
    if n.damage.Intact? { FaithfulIsLoose(wal, n.log, b); }
    if Replay(wal).Some? {
      var was: Log, lo: nat :| Remains(wal, n.log, b, was, lo);
      if |was| > |m| {
        assert was[|m|..] == was[b..][|m| - b..] && n.log[|m|..] == n.log[b..][|m| - b..];
        assert Remains(wal, log, |m|, was, lo);
      } else if lo < |was| {
        assert was[|was|..] == [] == log[|m|..];
        assert Remains(wal, log, |m|, was, lo);
      } else {
        assert was[lo..] == [] == log[|m|..];
        assert Remains(wal, log, |m|, log, |m|);
      }
    }
  }

  lemma TornLog(n: P.Node, m: Log)
    requires Indexed(n.log) && Indexed(m) && Matches(n.log, m)
    ensures var log := P.Torn(n, m).log;
      && Indexed(log) && Includes(log, m)
      && if |n.log| > |m| then |log| == |n.log| && log[|m|..] == n.log[|m|..] else |log| == |m|
  {
    hide TermAt;
  }

  lemma TornDiskIs(c: Node, n: P.Node, a: SnapshotArgs, m: P.Append)
    requires NodeRel(c, n) && SnapshotMatch(a, m) && Indexed(m.prefix) && Matches(n.log, m.prefix)
    requires n.commit < |m.prefix|
    ensures var n' := P.Torn(n, m.prefix);
      && Indexed(n'.log) && |m.prefix| <= |n'.log| && SortedFrom(n'.log, |m.prefix|)
      && DiskRel(c.disk.(snap := Some(a.snap)), n', |m.prefix|)
  {
    hide Replay, Loose, Faithful, Fold, LeaderRel, ElectionRel, Matches, Compacted, P.Torn;
    var k, log := |m.prefix|, P.Torn(n, m.prefix).log;
    TornWal(c.disk.wal, n, Base(c.log), m.prefix);
    TornSorted(n, Base(c.log), m.prefix);
    assert log[..k] == m.prefix[..k];
    TornFields(n, m.prefix);
  }

  /** What comes back beyond the snapshot was there before, in the same order. */
  lemma TornSorted(n: P.Node, b: nat, m: Log)
    requires SortedFrom(n.log, b) && b <= |m|
    ensures SortedFrom(P.Torn(n, m).log, |m|)
  {
  }

  lemma TornFields(n: P.Node, m: Log)
    ensures var n' := P.Torn(n, m);
      && n'.term == n.term && n'.vote == n.vote && n' == Rebooted(n', |m|)
      && n'.damage == Damaged(n.damage, P.Overruled(n.log, m))
  {
  }

  lemma OverrulesIs(c: Node, n: P.Node, a: SnapshotArgs, m: P.Append)
    requires LogRel(c, n) && SnapshotMatch(a, m) && n.commit < |m.prefix|
    ensures Overrules(a.snap, c.log) == P.Overruled(n.log, m.prefix)
  {
    hide Compacted, Fold;
    if |m.prefix| <= |n.log| { CompactedTerm(n.log, Base(c.log), |m.prefix|); }
  }

  ghost predicate DamagedBy(c: Node, s: Snapshot, n0: P.Node, n: P.Node) {
    Numbered(c.log) && n.damage == Damaged(n0.damage, Overrules(s, c.log))
  }

  /** A crash inside HandleInstallSnapshot, between saving the snapshot and rewriting the log. */
  lemma SimTornInstall(s0: P.State, s1: P.State, p: NodeId, c: Node, a: SnapshotArgs, m: P.Append) returns (s: P.State)
    requires Ahead(s0, s1, p) && s1.h == s0.h && p in s1.nodes && NodeRel(c, s1.At(p)) && c.state == Follower
    requires P.Received(s1.h, p, s1.At(p), m) && SnapshotMatch(a, m) && a.snap.lastIndex > c.commitIndex
    requires Replay(c.disk.wal).Some?
    ensures Onward(s0, s, p) && p in s.nodes && s.At(p).commit == a.snap.lastIndex
    ensures DamagedBy(c, a.snap, s0.At(p), s.At(p)) && s.At(p).log == P.Torn(s1.At(p), m.prefix).log
    ensures RecoversAs(c, c.disk.(snap := Some(a.snap)), s.At(p))
  {
    hide Inv, Onward, Recover, Replay, WalRel, LeaderRel, ElectionRel, Fold, Matches, P.Torn, Compacted;
    AheadFacts(s0, s1, p);
    RequestFacts(s1, p, m);
    RequestMatches(s1, p, m);
    TornDiskIs(c, s1.nodes[p], a, m);
    TornFields(s1.nodes[p], m.prefix);
    s := TornOnward(s0, s1, p, m);
    OverrulesIs(c, s1.nodes[p], a, m);
    RecoverRel(c.disk.(snap := Some(a.snap)), s.nodes[p], |m.prefix|, c.id, c.peers, c.threshold);
  }
}
