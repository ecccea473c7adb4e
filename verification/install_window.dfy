/**
 The one crash window the code does not cover: HandleInstallSnapshot saves the snapshot and then
 rewrites the write-ahead log, and recovery neither rewrites the old log nor compares terms at the
 boundary. Here is exactly what a crash between the two writes does to one node.
 */
module InstallWindow {
  import opened Types
  import opened SentinelLog
  import opened WalRecords
  import opened NodeState
  import opened Recovery

  /** A node whose disk describes its log, about to install a snapshot beyond its commit index. */
  ghost predicate Installing(n: Node, full: Log, lo: nat, s: Snapshot) {
    && Indexed(full) && Numbered(n.log) && Base(n.log) <= n.commitIndex <= |full|
    && n.log == Compacted(full, Base(n.log))
    && lo <= Base(n.log) && Replay(n.disk.wal) == Some(full[lo..]) && s.lastIndex > n.commitIndex
  }

  /** What is on disk when the crash comes between the two writes. */
  function WindowDisk(n: Node, s: Snapshot): Disk { n.disk.(snap := Some(s)) }

  function ComesBack(n: Node, d: Disk): Option<Node> { Recover(n.id, n.peers, n.threshold, d) }

  /** The entries of the old log beyond the snapshot, whatever they are. */
  function Leftover(full: Log, s: Snapshot): Log { if s.lastIndex <= |full| then full[s.lastIndex..] else [] }

  /** The log with which the node comes back. */
  function Returned(full: Log, s: Snapshot): seq<LogEntry> { [Sentinel(s.lastIndex, s.lastTerm)] + Leftover(full, s) }

  lemma WindowRecovers(n: Node, full: Log, lo: nat, s: Snapshot)
    requires Installing(n, full, lo, s)
    ensures Beyond(full[lo..], s.lastIndex) == Some(Leftover(full, s))
    ensures ComesBack(n, WindowDisk(n, s)).Some? && ComesBack(n, WindowDisk(n, s)).value.log == Returned(full, s)
  {
    hide Replay, Beyond, Compacted;
    if s.lastIndex <= |full| { BeyondSuffix(full, lo, s.lastIndex); } else { BeyondCovered(full[lo..], s.lastIndex); }
  }

  /** The crash is harmless for the log exactly when the snapshot does not overrule what the old log has
      beyond it; otherwise entries that the handler discards come back. */
  lemma WindowKeepsStaleSuffix(n: Node, full: Log, s: Snapshot)
    requires Indexed(full) && Numbered(n.log) && Base(n.log) <= |full| && n.log == Compacted(full, Base(n.log))
    requires Base(n.log) <= s.lastIndex
    ensures Returned(full, s) == Install(n, s).log <==> !Overrules(s, n.log)
  {
    hide Compacted;
    if s.lastIndex <= |full| {
      CompactedTerm(full, Base(n.log), s.lastIndex);
      CompactedFrom(full, Base(n.log), s.lastIndex);
    }
    assert Returned(full, s)[1..] == Leftover(full, s);
    assert Install(n, s).log[1..] == SurvivingSuffix(n.log, s);
  }

  /** After such a crash the next entry the node stores makes its disk unrecoverable exactly when the
      old write-ahead log was not empty and ended before the snapshot. */
  lemma WindowLeavesGap(n: Node, full: Log, lo: nat, s: Snapshot, e: LogEntry)
    requires Installing(n, full, lo, s)
    requires e.index == LastLogIndex(Returned(full, s)) + 1
    ensures var d := WindowDisk(n, s);
      ComesBack(n, d.(wal := d.wal + [AppendRecord(e)])) == None <==> full[lo..] != [] && |full| < s.lastIndex
  {
    hide Compacted, Beyond, Returned;
    WindowRecovers(n, full, lo, s);
    var d := WindowDisk(n, s);
    var wal := d.wal + [AppendRecord(e)];
    assert wal[..|wal| - 1] == d.wal;
    var entries := full[lo..];
    assert entries != [] ==> entries[|entries| - 1] == full[|full| - 1];
    if !(entries != [] && |full| < s.lastIndex) {
      assert (entries + [e])[..|entries|] == entries;
      assert s.lastIndex < |full| ==> full[s.lastIndex..][|full| - s.lastIndex - 1] == full[|full| - 1];
      BeyondOneMore(entries, e, s.lastIndex, Leftover(full, s));
    }
  }

  lemma BeyondOneMore(entries: seq<LogEntry>, e: LogEntry, base: nat, kept: seq<LogEntry>)
    requires Beyond(entries, base) == Some(kept) && e.index == base + 1 + |kept|
    ensures Beyond(entries + [e], base) == Some(kept + [e])
  {
    assert (entries + [e])[..|entries|] == entries;
  }
}
