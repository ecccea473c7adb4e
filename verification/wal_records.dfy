/** The write-ahead log as a stream of records, and what replaying it yields (FileStore.LoadEntries). */
module WalRecords {
  import opened Types
  import opened SentinelLog

  datatype WalRecord = AppendRecord(entry: LogEntry) | TruncateRecord(from: nat)

  /** Drop every entry with index >= from, from the end. */
  function DropFrom(entries: seq<LogEntry>, from: nat): (r: seq<LogEntry>)
    ensures r <= entries
    ensures r != [] ==> r[|r| - 1].index < from
  {
    if entries != [] && entries[|entries| - 1].index >= from then DropFrom(entries[..|entries| - 1], from) else entries
  }

  /** One record against the entries so far; None is the error the loader refuses to guess about. */
  function ReplayOne(entries: seq<LogEntry>, r: WalRecord): Option<seq<LogEntry>> {
    match r
    case AppendRecord(e) =>
      if entries != [] && e.index != entries[|entries| - 1].index + 1 then None else Some(entries + [e])
    case TruncateRecord(from) =>
      if from < 1 then None else Some(DropFrom(entries, from))
  }

  function Replay(wal: seq<WalRecord>): Option<seq<LogEntry>> {
    if wal == [] then Some([])
    else match Replay(wal[..|wal| - 1])
      case None => None
      case Some(entries) => ReplayOne(entries, wal[|wal| - 1])
  }

  /** Every entry has the index after the one before it. */
  predicate Gapless(entries: seq<LogEntry>) {
    forall i | 0 < i < |entries| :: entries[i].index == entries[i - 1].index + 1
  }

  /** Without gaps so far, an append is accepted exactly if it leaves none, and a truncation exactly if it
      names an index from 1 on; it keeps exactly the entries below that. */
  lemma ReplayOneExactly(entries: seq<LogEntry>, r: WalRecord)
    requires Gapless(entries)
    ensures match r
      case AppendRecord(e) =>
        ReplayOne(entries, r) == if Gapless(entries + [e]) then Some(entries + [e]) else None
      case TruncateRecord(from) =>
        && (ReplayOne(entries, r) == None <==> from == 0)
        && (from > 0 ==>
          && ReplayOne(entries, r).value <= entries
          && forall i | 0 <= i < |entries| :: i < |ReplayOne(entries, r).value| <==> entries[i].index < from)
  {
    match r {
      case AppendRecord(e) =>
        if entries != [] {
          var both := entries + [e];
          assert both[|entries|] == e && both[|entries| - 1] == entries[|entries| - 1];
        }
      case TruncateRecord(from) =>
        if from > 0 { DropsExactly(entries, from); }
    }
  }

  lemma {:induction false} DropsExactly(entries: seq<LogEntry>, from: nat)
    requires Gapless(entries)
    ensures forall i | 0 <= i < |entries| :: i < |DropFrom(entries, from)| <==> entries[i].index < from
    decreases |entries|
  {
    if entries != [] {
      var last := entries[|entries| - 1];
      if last.index >= from {
        DropsExactly(entries[..|entries| - 1], from);
      } else {
        forall i | 0 <= i < |entries|
          ensures entries[i].index <= last.index
        {
          Rises(entries, i, |entries| - 1);
        }
      }
    }
  }

  lemma {:induction false} Rises(entries: seq<LogEntry>, i: nat, j: nat)
    requires Gapless(entries) && i <= j < |entries|
    ensures entries[j].index == entries[i].index + (j - i)
  {
    if i < j { Rises(entries, i, j - 1); }
  }

  /** Whatever the records, what they replay to has no gaps. */
  lemma {:induction false} ReplayLeavesNoGap(wal: seq<WalRecord>)
    ensures Replay(wal).Some? ==> Gapless(Replay(wal).value)
    decreases |wal|
  {
    hide ReplayOne;
    if wal != [] {
      var before := Replay(wal[..|wal| - 1]);
      ReplayLeavesNoGap(wal[..|wal| - 1]);
      if before.Some? { ReplayOneExactly(before.value, wal[|wal| - 1]); }
    }
  }

  function AppendRecords(entries: seq<LogEntry>): (rs: seq<WalRecord>)
    ensures |rs| == |entries|
    ensures forall i | 0 <= i < |rs| :: rs[i] == AppendRecord(entries[i])
  {
    seq(|entries|, i requires 0 <= i < |entries| => AppendRecord(entries[i]))
  }

  /** One more record on top of a replayed log. */
  lemma ReplayAppend(wal: seq<WalRecord>, full: Log, lo: nat, e: LogEntry)
    requires lo <= |full| && Replay(wal) == Some(full[lo..]) && (full != [] ==> full[|full| - 1].index + 1 == e.index)
    ensures Replay(wal + [AppendRecord(e)]) == Some((full + [e])[lo..])
  {
    hide DropFrom;
    var w, before := wal + [AppendRecord(e)], full[lo..];
    assert w[..|w| - 1] == wal;
    assert before != [] ==> before[|before| - 1] == full[|full| - 1];
    assert (full + [e])[lo..] == before + [e];
  }

  lemma FirstRecord(entries: seq<LogEntry>)
    requires entries != []
    ensures entries == [entries[0]] + entries[1..]
    ensures AppendRecords(entries) == [AppendRecord(entries[0])] + AppendRecords(entries[1..])
  {
  }

  lemma OneByOne<T>(s: seq<T>, x: T, rest: seq<T>)
    ensures s + ([x] + rest) == s + [x] + rest
  {
  }

  lemma {:induction false} ReplayAppends(wal: seq<WalRecord>, full: Log, lo: nat, more: seq<LogEntry>)
    requires Indexed(full + more) && lo <= |full| && Replay(wal) == Some(full[lo..])
    ensures Replay(wal + AppendRecords(more)) == Some((full + more)[lo..])
    decreases |more|
  {
    hide Replay, AppendRecords;
    if more == [] {
      assert wal + AppendRecords(more) == wal && full + more == full;
    } else {
      var e, rest := more[0], more[1..];
      assert (full + more)[|full|] == e && (full != [] ==> (full + more)[|full| - 1] == full[|full| - 1]);
      ReplayAppend(wal, full, lo, e);
      FirstRecord(more);
      OneByOne(full, e, rest);
      OneByOne(wal, AppendRecord(e), AppendRecords(rest));
      ReplayAppends(wal + [AppendRecord(e)], full + [e], lo, rest);
    }
  }

  lemma {:induction false} DropFromIndexed(full: Log, lo: nat, c: nat)
    requires Indexed(full) && lo <= c <= |full|
    ensures DropFrom(full[lo..], c + 1) == full[lo..c]
    decreases |full|
  {
    var s := full[lo..];
    if c < |full| {
      var shorter := full[..|full| - 1];
      assert s[|s| - 1] == full[|full| - 1];
      assert s[..|s| - 1] == shorter[lo..];
      DropFromIndexed(shorter, lo, c);
      assert shorter[lo..c] == full[lo..c];
    } else {
      assert s == full[lo..c];
      assert s != [] ==> s[|s| - 1] == full[|full| - 1];
    }
  }

  lemma ReplayTruncate(wal: seq<WalRecord>, full: Log, lo: nat, c: nat)
    requires Indexed(full) && lo <= c <= |full| && Replay(wal) == Some(full[lo..])
    ensures Replay(wal + [TruncateRecord(c + 1)]) == Some(full[..c][lo..])
  {
    var w := wal + [TruncateRecord(c + 1)];
    assert w[..|w| - 1] == wal;
    DropFromIndexed(full, lo, c);
    assert full[..c][lo..] == full[lo..c];
  }

  /** A compacted write-ahead log holds exactly the suffix it was rewritten with. */
  lemma ReplayCompacted(full: Log, c: nat)
    requires Indexed(full) && c <= |full|
    ensures Replay(AppendRecords(full[c..])) == Some(full[c..])
    decreases |full|
  {
    hide AppendRecords;
    if c == |full| {
      assert AppendRecords(full[c..]) == [];
    } else {
      var shorter, w := full[..|full| - 1], AppendRecords(full[c..]);
      ReplayCompacted(shorter, c);
      assert w[..|w| - 1] == AppendRecords(shorter[c..]);
      assert full[c..] == shorter[c..] + [full[|full| - 1]];
    }
  }

  /** An error is not repaired by what comes after it. */
  lemma {:induction false} ReplayStopped(wal: seq<WalRecord>, more: seq<WalRecord>)
    requires Replay(wal) == None
    ensures Replay(wal + more) == None
  {
    if more == [] {
      assert wal + more == wal;
    } else {
      var w := wal + more;
      ReplayStopped(wal, more[..|more| - 1]);
      assert w[..|w| - 1] == wal + more[..|more| - 1];
    }
  }
}
