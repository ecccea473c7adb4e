/** What a crash leaves behind, from the bytes of the write-ahead log up to the recovered host. */
module Durability {
  import opened Types
  import opened Logs
  import opened SentinelLog
  import opened WalRecords
  import opened WalBytes
  import opened KvState
  import opened NodeState
  import opened NodeRelation
  import opened NodeSimulation
  import opened AppendSimulation
  import opened Recovery
  import opened ClusterRelation
  import opened ClusterSimulation
  import opened ApplierSimulation
  import opened CrashSimulation
  import opened ClusterSafety
  import opened ClusterProperties
  import opened InstallWindow
  import P = Protocol
  import opened ProtocolInvariant
  import opened ProtocolSteps
  import C = Cluster

  // ---- Bytes and records -----------------------------------------------------------------------

  /** A crash at any byte of a batch of records is a crash between two of its records. */
  lemma TornBytesAreTornRecords(codec: Codec, wal: seq<WalRecord>, batch: seq<WalRecord>, k: nat) returns (j: nat)
    requires AllFit(codec, wal) && AllFit(codec, batch) && |Frames(codec, wal)| <= k <= |Frames(codec, wal + batch)|
    ensures j <= |batch|
    ensures LoadFrom(codec, Frames(codec, wal + batch)[..k], []) == LoadedFrom(codec, wal + batch[..j])
    ensures k == |Frames(codec, wal + batch)| ==> j == |batch|
  {
    hide LoadFrom, Frame, Frames, ReplayOne;
    var rs := wal + batch;
    var m := SomeWhole(codec, rs, k);
    assert rs[..|wal|] == wal && rs[..|rs|] == rs;
    if m < |wal| { FramesGrow(codec, rs, m + 1, |wal|); }
    if m < |rs| { FramesGrow(codec, rs, m + 1, |rs|); }
    j := m - |wal|;
    assert rs[..m] == wal + batch[..j];
    TornTail(codec, rs, k, m);
  }

  lemma FramesGrow(codec: Codec, rs: seq<WalRecord>, i: nat, j: nat)
    requires i <= j <= |rs|
    ensures |Frames(codec, rs[..i])| <= |Frames(codec, rs[..j])|
  {
    assert rs[..j] == rs[..i] + rs[i..j];
    FramesAppend(codec, rs[..i], rs[i..j]);
  }

  /** The bytes of the log file yield the log in memory. */
  ghost predicate ReadsBack(h: C.Host, codec: Codec) {
    && AllFit(codec, h.node.disk.wal) && Numbered(h.node.log)
    && var loaded := LoadFrom(codec, Frames(codec, h.node.disk.wal), []);
    && (h.damage.Intact? ==> loaded.Loaded?)
    && (loaded.Loaded? ==> Beyond(loaded.entries, Base(h.node.log)) == Some(h.node.log[1..]))
  }

  /** The durable log refines the log in memory, down to the bytes: whatever a host has been through,
      loading the file of its write-ahead log and filtering it by its snapshot gives its log. Only after
      a crash in the middle of an install can loading fail. */
  lemma RestartFromBytes(c: C.State, p: NodeId, codec: Codec)
    requires Reachable(c) && p in c.hosts && AllFit(codec, c.At(p).node.disk.wal)
    ensures ReadsBack(c.At(p), codec)
  {
    hide Reachable, LoadFrom, Frames, Beyond, Replay;
    RoundTrip(codec, c.hosts[p].node.disk.wal);
    DiskIsMemory(c, p);
  }

  // ---- Inside an append batch ------------------------------------------------------------------

  /** Both logs have the same boundary and the same entries up to index k. */
  ghost predicate SameUpTo(a: seq<LogEntry>, b: seq<LogEntry>, k: nat) {
    Numbered(a) && 0 <= k - Base(a) < |a| && k - Base(a) < |b| && a[..k - Base(a) + 1] == b[..k - Base(a) + 1]
  }

  /** A host that comes back has part of what was being written, and all it had committed; without a
      conflict, all it had. */
  ghost predicate HalfWritten(h: C.Host, k: C.Packet, h': C.Host) {
    && (h.damage.Intact? ==> h'.up) && k.AppendReqPacket? && Numbered(h.node.log)
    && (h'.up ==>
      && h'.node.log <= Written(h.node.log, k.append.entries) && SameUpTo(h.node.log, h'.node.log, h.node.commitIndex)
      && (!Conflicts(h.node.log, k.append.entries) ==> h.node.log <= h'.node.log))
  }

  /** A crash after some of the records of an accepted request: the recovered log is a prefix of what
      the request would have made of it, holds everything committed, and without a conflict holds
      everything that was there before. */
  lemma TornAppendRecovers(c: C.State, k: C.Packet, j: nat)
    requires Reachable(c) && C.Can(c, C.TornAppend(k, j))
    ensures HalfWritten(c.At(k.to), k, C.Perform(c, C.TornAppend(k, j)).At(k.to))
  {
    hide Reachable, ClusterRel, Inv, NodeRel, ConfigRel, ApplierRel, RequestsRel, FirstNew, RecordsFor, Written,
         Conflicts, Check, C.TornDisk, C.RecoverFrom, AppendMatch, Formed, Agree, C.Delivered;
    var s := ReachableRel(c);
    var p, a, n := k.to, k.append, c.hosts[k.to].node;
    HostFacts(c, s, p);
    RelLog(n, s.nodes[p]);
    var m := MatchOf(c, s, k, k.append);
    SomethingNew(n, a);
    TornWalk(s, p, n, a, m);
    TornLogIs(c.hosts[p], s.nodes[p], a, m, m.prev + FirstNew(n.log, a.entries), j);
  }

  /** The walk stops where the two logs part, above everything committed. */
  ghost predicate WalkStops(n: Node, o: P.Node, a: AppendArgs, m: P.Append) {
    && Numbered(n.log)
    && var cut := m.prev + FirstNew(n.log, a.entries);
    && Indexed(m.prefix) && Sorted(m.prefix) && cut <= |m.prefix| && Agree(m.prefix, o.log, cut)
    && (cut < |m.prefix| <==> FirstNew(n.log, a.entries) < |a.entries|)
    && (cut < |m.prefix| ==> o.commit <= cut)
  }

  /** An acceptable request and the log part above everything committed. */
  lemma TornWalk(s: P.State, p: NodeId, n: Node, a: AppendArgs, m: P.Append)
    requires Inv(s) && p in s.nodes && NodeRel(n, s.At(p)) && m in s.h.appends && AppendMatch(a, m)
    requires a.term >= n.currentTerm && Passes(n, a)
    ensures WalkStops(n, s.At(p), a, m)
  {
    hide Inv, DiskRel, LeaderRel, ElectionRel, FirstNew, Rooted, Matches, Compacted, Check, Leads;
    RequestFacts(s, p, m);
    RequestMatches(s, p, m);
    CheckAgrees(Observe(n, a.term), s.nodes[p], a, m);
    WalkFacts(s.nodes[p].log, Base(n.log), m.prefix, m.prev, m.prev + FirstNew(n.log, a.entries));
  }

  lemma TornLogIs(h: C.Host, o: P.Node, a: AppendArgs, m: P.Append, cut: nat, j: nat)
    requires NodeRel(h.node, o) && AppendMatch(a, m) && Indexed(m.prefix) && Sorted(m.prefix)
    requires cut == m.prev + FirstNew(h.node.log, a.entries)
    requires cut < |m.prefix| && o.commit <= cut && Agree(m.prefix, o.log, cut)
    requires 0 < j <= |RecordsFor(h.node.log, a.entries)|
    ensures var n, r := h.node, C.RecoverFrom(h, C.TornDisk(h.node, a, j));
      && (o.damage.Intact? ==> r.Some?)
      && (r.Some? ==>
        && r.value.log <= Written(n.log, a.entries) && SameUpTo(n.log, r.value.log, n.commitIndex)
        && (!Conflicts(n.log, a.entries) ==> n.log <= r.value.log))
  {
    hide FirstNew, IsNew, RecordsFor, Written, Conflicts, Recover, Replay, Compacted, WalRel, SnapRel, LeaderRel,
         ElectionRel, MergeRecords;
    var n, b, d := h.node, Base(h.node.log), C.TornDisk(h.node, a, j);
    AgreeBounds(m.prefix, o.log, cut);
    var k := TornDiskRel(n, o, a, m, cut, j);
    var o' := o.(log := m.prefix[..k], sound := k, term := d.hard.term, vote := d.hard.vote);
    if Replay(d.wal).Some? {
      RecoverRel(d, o', b, n.id, n.peers, n.threshold);
    } else {
      OnlyTornRefused(d, o', b);
      Unstartable(h, d);
    }
    WrittenIsMerge(o.log, b, m.prefix, m.prev, cut);
    TornCompacted(o.log, m.prefix, b, cut, k, n.commitIndex);
  }

  /** Cutting the leader's prefix at k, beyond what it shares with the log. */
  lemma TornCompacted(log: Log, m: Log, b: nat, cut: nat, k: nat, commit: nat)
    requires Indexed(log) && Indexed(m) && b <= commit <= cut <= k <= |m| && cut <= |log| && log[..cut] == m[..cut]
    ensures Indexed(m[..k]) && Compacted(m[..k], b) <= Compacted(m, b)
    ensures SameUpTo(Compacted(log, b), Compacted(m[..k], b), commit)
    ensures cut == |log| ==> Compacted(log, b) <= Compacted(m[..k], b)
  {
    hide Compacted, LastTerm, LastLogTerm;
    CompactedTruncate(m, b, k);
    CompactedTruncate(m, b, cut);
    CompactedTruncate(log, b, cut);
    if cut == |log| { assert log == log[..cut]; }
    SameFront(Compacted(log, b), Compacted(m[..k], b), Compacted(m, b), cut - b + 1, commit - b + 1);
  }

  lemma SameFront(x: seq<LogEntry>, y: seq<LogEntry>, z: seq<LogEntry>, c: nat, d: nat)
    requires c <= |x| && c <= |y| && y <= z && x[..c] == z[..c] && d <= c
    ensures x[..d] == y[..d]
  {
    assert x[..d] == x[..c][..d] && y[..d] == z[..c][..d];
  }

  lemma MatchOf(c: C.State, s: P.State, k: C.Packet, a: AppendArgs) returns (m: P.Append)
    requires ClusterRel(c, s) && k in c.net && k == C.AppendReqPacket(k.to, a)
    ensures m in s.h.appends && AppendMatch(a, m) && k.to != a.leader
  {
    hide Inv, HostRel, RecordRel, AppendMatch;
    assert PacketRel(k, s.h);
    m :| m in s.h.appends && AppendMatch(k.append, m);
  }

  // ---- Snapshot, then compact ------------------------------------------------------------------

  /** A crash between the two writes of a compaction gives the process that a crash after both gives: the
      two differ in the write-ahead log only. */
  ghost predicate SameEitherWay(h: C.Host) {
    && h.applier.Capturing? && Formed(h.node)
    && var s, done := Snapshot(h.applier.index, h.applier.term, h.kv), C.CaptureFinished(h);
    var between, after := C.Reboot(h, h.node.disk.(snap := Some(s))), C.Reboot(done, done.node.disk);
    && (h.damage.Intact? ==> between.up)
    && (between.up ==>
      && Numbered(between.node.log) && between.node.log[0] == Sentinel(s.lastIndex, s.lastTerm)
      && between.node.commitIndex == between.node.lastApplied == s.lastIndex && between.kv == h.kv
      && between == after.(node := after.node.(disk := between.node.disk))
      && between.node.disk == after.node.disk.(wal := between.node.disk.wal))
  }

  /** On the threshold path it makes no difference whether a crash comes between SaveSnapshot and
      Compact or after both: the same host comes back, but for the bytes of its write-ahead log. (Where
      an earlier crash in an install made that log unreadable, only compacting lets the host come back.) */
  lemma CompactIsCrashAtomic(c: C.State, p: NodeId)
    requires Reachable(c) && C.Can(c, C.TornCompact(p))
    ensures SameEitherWay(c.At(p))
  {
    hide Reachable, ClusterRel, Inv, NodeRel, ConfigRel, ApplierRel, RequestsRel, SaveAndCompact, SnapshotOf, Recover,
         Onward, Replay;
    var s := ReachableRel(c);
    HostFacts(c, s, p);
    var h := c.hosts[p];
    if Replay(h.node.disk.wal).None? {
      MustBeTorn(c, s, p);
      Unstartable(h, h.node.disk.(snap := Some(Snapshot(h.applier.index, h.applier.term, h.kv))));
      return;
    }
    CompactRel(h, s.nodes[p]);
    var snap := Snapshot(h.applier.index, h.applier.term, h.kv);
    var s' := SimTornCompact(s, p, h.node, h.applier.index);
    CompactedDisk(h.node, snap);
    RecoverKeeps(h.node, h.node.disk.(snap := Some(snap)));
    RecoverKeeps(h.node, SaveAndCompact(h.node, snap).disk);
    RelLog(C.RecoverFrom(h, h.node.disk.(snap := Some(snap))).value, s'.nodes[p]);
  }

  lemma CompactedDisk(n: Node, s: Snapshot)
    requires Formed(n) && Base(n.log) < s.lastIndex
    ensures var n' := SaveAndCompact(n, s);
      && n'.disk == n.disk.(snap := Some(s), wal := n'.disk.wal)
      && n'.id == n.id && n'.peers == n.peers && n'.threshold == n.threshold
  {
  }

  lemma RecoverKeeps(n: Node, d: Disk)
    ensures var r := Recover(n.id, n.peers, n.threshold, d);
      r.Some? ==>
        && r.value.disk == d && |r.value.log| > 0
        && (d.snap.Some? ==>
          && r.value.log[0] == Sentinel(d.snap.value.lastIndex, d.snap.value.lastTerm)
          && r.value.commitIndex == r.value.lastApplied == d.snap.value.lastIndex)
  {
  }

  // ---- Between the two writes of an install ----------------------------------------------------

  /** A crash between saving the snapshot that k carries and rewriting the log takes the host from h to h'. */
  ghost predicate InstallTorn(c: C.State, k: C.Packet, h: C.Host, a: SnapshotArgs, h': C.Host) {
    && Reachable(c) && C.Can(c, C.TornInstall(k)) && k.SnapReqPacket? && a == k.snapshot
    && h == c.At(k.to) && h' == C.Perform(c, C.TornInstall(k)).At(k.to)
  }

  /** The host is back at the snapshot, with the log that the install would have left exactly when the
      snapshot does not overrule what the old log has beyond it. */
  ghost predicate BackAt(h: C.Host, a: SnapshotArgs, h': C.Host) {
    && h'.node.commitIndex == h'.node.lastApplied == a.snap.lastIndex && h'.kv == a.snap.data
    && h'.node.currentTerm == a.term && Numbered(h.node.log)
    && (h'.damage.Tainted? <==> h.damage.Tainted? || Overrules(a.snap, h.node.log))
    && (h'.node.log == Install(h.node, a.snap).log <==> !Overrules(a.snap, h.node.log))
  }

  /** A crash between saving an installed snapshot and rewriting the log: unless an earlier such crash
      broke the write-ahead log, the host comes back at the snapshot. It comes back with the log that the
      install would have left exactly when the old log does not go beyond the snapshot with another term
      at its last index; otherwise entries that the handler discards are back. */
  lemma TornInstallRecovers(c: C.State, k: C.Packet, h: C.Host, a: SnapshotArgs, h': C.Host)
    requires InstallTorn(c, k, h, a, h')
    ensures (h.damage.Intact? ==> h'.up) && (h'.up ==> BackAt(h, a, h'))
  {
    hide Reachable, ClusterRel, Inv, NodeRel, ConfigRel, ApplierRel, RequestsRel, HostRel, Recover, Replay, Install,
         SnapshotMatch, P.Torn, Matches, C.Delivered;
    var s := ReachableRel(c);
    var p := k.to;
    HostFacts(c, s, p);
    var m := SnapshotMatchOf(c, s, k, a);
    var d := C.TornSave(h.node, a);
    if Replay(d.wal).None? {
      MustBeTorn(c, s, p);
      Unstartable(h, d);
    } else {
      RelLog(h.node, s.nodes[p]);
      RequestFacts(s, p, m);
      RequestMatches(s, p, m);
      TornInstallLog(h, s.nodes[p], a, m);
    }
  }

  /** The log behind the host before such a crash, and the entries the snapshot stands for. */
  ghost predicate TornFrom(h: C.Host, a: SnapshotArgs, n: P.Node, m: Log) {
    && LogRel(h.node, n) && n.commit < |m| == a.snap.lastIndex && LastTerm(m) == a.snap.lastTerm && Sorted(m)
    && Matches(n.log, m) && Overrules(a.snap, h.node.log) == P.Overruled(n.log, m)
    && (!h.damage.Tainted? ==> Sorted(n.log))
  }

  lemma TornStores(c: C.State, k: C.Packet, h: C.Host, a: SnapshotArgs, h': C.Host) returns (n: P.Node, m: Log)
    requires InstallTorn(c, k, h, a, h') && h'.up
    ensures Stores(h, n.log) && Stores(h', P.Torn(n, m).log) && TornFrom(h, a, n, m)
  {
    hide Reachable, ClusterRel, Inv, NodeRel, ConfigRel, ApplierRel, RequestsRel, HostRel, Recover, Replay, P.Torn,
         Matches, Stores, Onward, C.TornHost, Rooted, PastOk, LogOk, Fold, C.Delivered, NodeOk;
    var s := ReachableRel(c);
    var p := k.to;
    HostFacts(c, s, p);
    RelLog(h.node, s.nodes[p]);
    var append := SnapshotMatchOf(c, s, k, a);
    n, m := s.nodes[p], append.prefix;
    ReplayedIfUp(h, a);
    var s' := TornInstallRun(s, p, h.node, a, append);
    TornHostUp(h, a);
    StoresOf(h, n);
    StoresOf(C.TornHost(h, a), s'.nodes[p]);
    RequestFacts(s, p, append);
    RequestMatches(s, p, append);
    OverrulesIs(h.node, n, a, append);
    NodeFacts(s, p);
    RootedSorted(s.h.past, m);
    if !h.damage.Tainted? {
      WholeFacts(s, p);
      RootedSorted(s.h.past, n.log);
    }
  }

  /** Such a crash breaks Log Matching, between the host before and after it, exactly when the snapshot
      overrules what the old log has beyond it. */
  lemma TornInstallMatches(c: C.State, k: C.Packet, h: C.Host, a: SnapshotArgs, h': C.Host) returns (x: Log, y: Log)
    requires InstallTorn(c, k, h, a, h') && h'.up
    ensures Stores(h, x) && Stores(h', y) && (Matches(x, y) <==> !OverrulesLog(a.snap, h.node.log))
  {
    hide InstallTorn, Stores, Matches, P.Torn;
    var n, m := TornStores(c, k, h, a, h');
    BreaksExactly(n, m);
    x, y := n.log, P.Torn(n, m).log;
  }

  ghost predicate OverrulesLog(s: Snapshot, log: seq<LogEntry>) { Numbered(log) && Overrules(s, log) }

  /** The first entry beyond the snapshot is not older than it, and from there on terms do not decrease. */
  ghost predicate RisesBeyond(s: Snapshot, log: seq<LogEntry>) {
    && Numbered(log) && Base(log) <= s.lastIndex
    && forall i, j | s.lastIndex < i <= j <= LastLogIndex(log) :: s.lastTerm <= TermOf(log, i) <= TermOf(log, j)
  }

  ghost predicate OverrulesOlder(s: Snapshot, log: seq<LogEntry>) {
    OverrulesLog(s, log) && TermOf(log, s.lastIndex + 1) < s.lastTerm
  }

  /** It leaves terms in order exactly when no entry beyond the snapshot is older than it or than one
      before. On a host with no such crash behind it, they are out of order exactly when the snapshot
      overrules what comes after it, and that is older. */
  lemma TornInstallOrdered(c: C.State, k: C.Packet, h: C.Host, a: SnapshotArgs, h': C.Host) returns (x: Log, y: Log)
    requires InstallTorn(c, k, h, a, h') && h'.up
    ensures Stores(h, x) && Stores(h', y) && (Sorted(y) <==> RisesBeyond(a.snap, h.node.log))
    ensures !h.damage.Tainted? ==> Sorted(x) && (Sorted(y) <==> !OverrulesOlder(a.snap, h.node.log))
  {
    hide InstallTorn, Stores, Matches, P.Torn, Sorted, RisesBeyond, OverrulesOlder;
    var n, m := TornStores(c, k, h, a, h');
    x := n.log;
    y := P.Torn(n, m).log;
    TornIs(n, m);
    JoinSorted(m, Rest(n.log, |m|));
    OrderedExactly(h.node, n, a.snap, m);
    if !h.damage.Tainted? { OutOfOrderExactly(h.node, n, a.snap, m); }
  }

  ghost function Rest(log: Log, k: nat): Log { if k < |log| then log[k..] else [] }

  lemma TornIs(n: P.Node, m: Log)
    requires Matches(n.log, m)
    ensures P.Torn(n, m).log == m + Rest(n.log, |m|)
  {
  }

  /** Terms do not decrease from the end of m into x, nor along x. */
  ghost predicate Joins(m: Log, x: Log) {
    Sorted(x) && (x != [] ==> LastTerm(m) <= x[0].term)
  }

  lemma JoinSorted(m: Log, x: Log)
    requires Sorted(m)
    ensures Sorted(m + x) <==> Joins(m, x)
  {
    var y := m + x;
    if Sorted(y) {
      forall i, j | 0 <= i < j < |x| ensures x[i].term <= x[j].term { assert y[|m| + i].term <= y[|m| + j].term; }
      if m != [] && x != [] { assert y[|m| - 1].term <= y[|m|].term; }
    }
    if Joins(m, x) {
      forall i, j | 0 <= i < j < |y| ensures y[i].term <= y[j].term { JoinOrdered(m, x, i, j); }
    }
  }

  lemma JoinOrdered(m: Log, x: Log, i: nat, j: nat)
    requires Sorted(m) && Joins(m, x) && i < j < |m + x|
    ensures (m + x)[i].term <= (m + x)[j].term
  {
    if i < |m| <= j {
      assert m[i].term <= LastTerm(m);
      assert x[0].term <= x[j - |m|].term;
    }
  }

  ghost predicate FallsAt(log: Log, k: nat) { 0 < k < |log| && log[k].term < log[k - 1].term }

  /** The first entry in memory is not older than the sentinel. */
  ghost predicate SentinelInOrder(log: seq<LogEntry>) { |log| >= 2 ==> log[0].term <= log[1].term }

  /** Whatever crashes a host has been through, terms decrease at most once along the log behind it: right
      behind its sound part, and there exactly when the first entry in memory is older than the sentinel. */
  lemma TermsFallOnce(b: seq<C.State>, logs: seq<map<NodeId, Whole>>, i: nat, p: NodeId)
    requires LogsBehind(b, logs) && Hosted(b, i, p)
    ensures Sorted(LogAt(logs, i, p).log) <==> !FallsAt(LogAt(logs, i, p).log, LogAt(logs, i, p).sound)
    ensures Sorted(LogAt(logs, i, p).log) <==> SentinelInOrder(HostAt(b, i, p).node.log)
  {
    hide LogsBehind, Tracks, ClusterRel, Inv, NodeRel, NodeOk, HistoryOk, PastOk, Rooted, Stale, SortedFrom,
         SentinelInOrder;
    var ss := Tracking(b, logs);
    HostTracked(b, ss, i, p);
    NodeFacts(ss[i], p);
    var x, n := ss[i].h.past, ss[i].nodes[p];
    var front, tail := n.log[..n.sound], n.log[n.sound..];
    RootedSorted(x, front);
    if n.sound < |n.log| {
      StaleFact(ss[i].h, p, n);
      TailSorted(x, p, n);
    }
    assert n.log == front + tail;
    SortedTail(n.log, n.sound);
    JoinSorted(front, tail);
    FallsInMemory(b[i].hosts[p].node, n);
  }

  lemma FallsInMemory(c: Node, n: P.Node)
    requires NodeRel(c, n) && n.commit <= n.sound <= |n.log|
    requires Sorted(n.log) <==> !FallsAt(n.log, n.sound)
    ensures Sorted(n.log) <==> SentinelInOrder(c.log)
  {
    hide DiskRel, LeaderRel, ElectionRel, Compacted;
    var b := Base(c.log);
    if b < |n.log| {
      CompactedTerm(n.log, b, b);
      CompactedTerm(n.log, b, b + 1);
      if b > 0 { assert Sorted(n.log) ==> n.log[b - 1].term <= n.log[b].term; }
    }
  }

  lemma SortedTail(log: Log, k: nat)
    requires k <= |log| && SortedFrom(log, k)
    ensures Sorted(log[k..])
  {
  }

  lemma OrderedExactly(c: Node, n: P.Node, s: Snapshot, m: Log)
    requires LogRel(c, n) && n.commit < |m| == s.lastIndex && LastTerm(m) == s.lastTerm
    ensures Joins(m, Rest(n.log, |m|)) <==> RisesBeyond(s, c.log)
  {
    hide Compacted;
    var x := Rest(n.log, |m|);
    forall i | |m| < i <= |n.log| ensures TermOf(c.log, i) == n.log[i - 1].term == x[i - 1 - |m|].term {
      CompactedTerm(n.log, Base(c.log), i);
    }
    if RisesBeyond(s, c.log) {
      forall i, j | 0 <= i < j < |x| ensures x[i].term <= x[j].term {
        assert TermOf(c.log, |m| + 1 + i) <= TermOf(c.log, |m| + 1 + j);
      }
      if x != [] { assert s.lastTerm <= TermOf(c.log, |m| + 1); }
    }
  }

  lemma OutOfOrderExactly(c: Node, n: P.Node, s: Snapshot, m: Log)
    requires LogRel(c, n) && n.commit < |m| == s.lastIndex && LastTerm(m) == s.lastTerm
    requires Sorted(n.log)
    ensures Joins(m, Rest(n.log, |m|)) <==> !OverrulesOlder(s, c.log)
  {
    hide Compacted;
    var x := Rest(n.log, |m|);
    if x != [] {
      CompactedTerm(n.log, Base(c.log), |m|);
      CompactedTerm(n.log, Base(c.log), |m| + 1);
      assert TermAt(n.log, |m|) <= x[0].term;
    }
  }

  lemma ReplayedIfUp(h: C.Host, a: SnapshotArgs)
    requires Numbered(h.node.log) && C.TornHost(h, a).up
    ensures Replay(h.node.disk.wal).Some?
  {
    hide Replay, Beyond;
  }

  lemma BreaksExactly(n: P.Node, m: Log)
    requires Matches(n.log, m)
    ensures Matches(n.log, P.Torn(n, m).log) <==> !P.Overruled(n.log, m)
  {
    var x, y := n.log, P.Torn(n, m).log;
    if P.Overruled(x, m) {
      assert TermAt(x, |x|) == TermAt(y, |x|) && x[|m| - 1] != y[|m| - 1];
    }
  }

  lemma TornInstallLog(h: C.Host, o: P.Node, a: SnapshotArgs, m: P.Append)
    requires NodeRel(h.node, o) && SnapshotMatch(a, m) && Indexed(m.prefix) && Matches(o.log, m.prefix)
    requires o.commit < |m.prefix| && a.term >= o.term && Replay(h.node.disk.wal).Some?
    ensures var r := C.RecoverFrom(h, C.TornSave(h.node, a));
      && r.Some? && r.value.commitIndex == r.value.lastApplied == a.snap.lastIndex && r.value.currentTerm == a.term
      && (r.value.log == Install(h.node, a.snap).log <==> !Overrules(a.snap, h.node.log))
  {
    hide Replay, Fold, DiskRel, LeaderRel, ElectionRel, Compacted, WalRel, SnapRel, Recover, Install, SurvivingSuffix,
         Matches, P.Torn, Overrules;
    var n, t := Observe(h.node, a.term), |m.prefix|;
    var o' := o.(role := Follower, term := a.term, vote := n.votedFor);
    FollowerRel(h.node, o, a.term);
    TornDiskIs(n.(state := Follower), o', a, m);
    TornFields(o', m.prefix);
    RecoverRel(C.TornSave(h.node, a), P.Torn(o', m.prefix), t, n.id, n.peers, n.threshold);
    TornIs(o', m.prefix);
    TornReturns(o.log, m.prefix, a.snap);
    WindowKeepsStaleSuffix(h.node, o.log, a.snap);
  }

  lemma FollowerRel(n: Node, o: P.Node, t: nat)
    requires NodeRel(n, o) && t >= o.term
    ensures var m := Observe(n, t).(state := Follower);
      m.currentTerm == t && NodeRel(m, o.(role := Follower, term := t, vote := m.votedFor))
  {
    hide WalRel, SnapRel, Compacted, LeaderRel, ElectionRel;
  }

  lemma TornReturns(log: Log, m: Log, s: Snapshot)
    requires s.lastIndex == |m| && s.lastTerm == LastTerm(m) && Indexed(m + Rest(log, |m|))
    ensures Compacted(m + Rest(log, |m|), |m|) == Returned(log, s)
  {
    var y := m + Rest(log, |m|);
    assert y[|m|..] == Rest(log, |m|);
    assert |m| > 0 ==> y[|m| - 1] == m[|m| - 1];
  }

  // ---- Nothing gets in the way -----------------------------------------------------------------

  ghost predicate BackInTerm(h: C.Host, t: nat) {
    var r := C.RecoverFrom(h, h.node.disk.(hard := HardState(t, None)));
    && (h.damage.Intact? ==> r.Some?)
    && (r.Some? ==> r.value.currentTerm == t && r.value.votedFor == None && r.value.log == h.node.log)
  }

  /** A crash right after a new term was stored: the node comes back in that term, without a vote and
      with its log. */
  lemma TornTermRecovers(c: C.State, p: NodeId, t: nat)
    requires Reachable(c) && C.Can(c, C.TornTerm(p, t))
    ensures BackInTerm(c.At(p), t)
  {
    hide Reachable, Replay, Beyond;
    DiskIsMemory(c, p);
  }

  ghost predicate Unblocked(h: C.Host) {
    && Formed(h.node)
    && (h.node.state == Leader ==>
      forall q | q in h.node.peers :: 1 <= h.node.nextIndex[q] <= LastLogIndex(h.node.log) + 1)
    && (h.applier.Idle? && h.node.pending.None? ==> Base(h.node.log) <= h.node.lastApplied)
  }

  /** What the handlers take for granted holds in every reachable state: a well-formed node, cursors
      inside the log, and a next entry for the applier. So no guard of an action about the shape of
      the node ever keeps it from happening. */
  lemma NothingBlocks(c: C.State, p: NodeId)
    requires Reachable(c) && p in c.hosts
    ensures Unblocked(c.At(p))
  {
    hide Reachable, ClusterRel, Inv, DiskRel, ElectionRel, Compacted, Leads;
    var s := ReachableRel(c);
    HostFacts(c, s, p);
    RelFormed(c.hosts[p].node, s.nodes[p], p, s.h.past.members);
    ApplierInRange(c, p);
  }
}
