/**
 The in-memory log with a floating sentinel (RaftNode.log): slot 0 carries the (index, term) of the
 entry just before the first real one, so the entry with index i sits at slot i - log[0].index.
 */
module SentinelLog {
  import opened Types
  import opened Logs

  /** Slot numbers and entry indices agree, counting from the sentinel. */
  predicate Numbered(log: seq<LogEntry>) {
    |log| >= 1 && forall i | 0 <= i < |log| :: log[i].index == log[0].index + i
  }

  function Base(log: seq<LogEntry>): nat
    requires |log| >= 1
  {
    log[0].index
  }

  function LastLogIndex(log: seq<LogEntry>): nat
    requires |log| >= 1
  {
    log[|log| - 1].index
  }

  function LastLogTerm(log: seq<LogEntry>): nat
    requires |log| >= 1
  {
    log[|log| - 1].term
  }

  function TermOf(log: seq<LogEntry>, index: nat): nat
    requires Numbered(log) && Base(log) <= index <= LastLogIndex(log)
  {
    log[index - Base(log)].term
  }

  /** All entries with index >= from. */
  function EntriesFrom(log: seq<LogEntry>, from: nat): seq<LogEntry>
    requires Numbered(log) && Base(log) < from <= LastLogIndex(log) + 1
  {
    log[from - Base(log)..]
  }

  function Sentinel(index: nat, term: nat): LogEntry { LogEntry(term, index, Undecodable("")) }

  // ---- The walk over incoming entries ----------------------------------------------------------

  /** An incoming entry that the log does not hold yet, or holds with a different term. */
  predicate IsNew(log: seq<LogEntry>, e: LogEntry)
    requires Numbered(log)
  {
    e.index > Base(log) && (e.index > LastLogIndex(log) || TermOf(log, e.index) != e.term)
  }

  /** The position of the first new entry, or |entries| when there is none. */
  function FirstNew(log: seq<LogEntry>, entries: seq<LogEntry>): (i: nat)
    requires Numbered(log)
    ensures i <= |entries| && (i < |entries| ==> IsNew(log, entries[i]))
    ensures forall j | 0 <= j < i :: !IsNew(log, entries[j])
  {
    if entries == [] || IsNew(log, entries[0]) then 0 else 1 + FirstNew(log, entries[1..])
  }

  /** The first new entry collides with an entry the log already has. */
  predicate Conflicts(log: seq<LogEntry>, entries: seq<LogEntry>)
    requires Numbered(log)
  {
    var i := FirstNew(log, entries);
    i < |entries| && entries[i].index <= LastLogIndex(log)
  }

  /** The log after truncating at a conflict and appending everything from the first new entry. */
  function Written(log: seq<LogEntry>, entries: seq<LogEntry>): seq<LogEntry>
    requires Numbered(log)
  {
    var i := FirstNew(log, entries);
    if i == |entries| then log
    else if Conflicts(log, entries) then log[..entries[i].index - Base(log)] + entries[i..]
    else log + entries[i..]
  }

  // ---- The uncompacted log behind a sentinel log -----------------------------------------------

  predicate Indexed(full: Log) {
    forall i | 0 <= i < |full| :: full[i].index == i + 1
  }

  /** What is left of `full` when everything up to index b lives only in a snapshot. */
  function Compacted(full: Log, b: nat): (log: seq<LogEntry>)
    requires b <= |full| && Indexed(full)
    ensures Numbered(log) && Base(log) == b && LastLogIndex(log) == |full| && LastLogTerm(log) == LastTerm(full)
  {
    [Sentinel(b, TermAt(full, b))] + full[b..]
  }

  lemma CompactedTerm(full: Log, b: nat, i: nat)
    requires b <= i <= |full| && Indexed(full)
    ensures TermOf(Compacted(full, b), i) == TermAt(full, i)
  {
  }

  lemma CompactedFrom(full: Log, b: nat, i: nat)
    requires b <= i <= |full| && Indexed(full)
    ensures EntriesFrom(Compacted(full, b), i + 1) == full[i..]
  {
  }

  lemma CompactedInjective(full: Log, other: Log, b: nat)
    requires b <= |full| && b <= |other| && Indexed(full) && Indexed(other)
    requires Compacted(full, b) == Compacted(other, b)
    ensures full[b..] == other[b..]
  {
    assert full[b..] == Compacted(full, b)[1..];
    assert other[b..] == Compacted(other, b)[1..];
  }

  /** Compacting a compacted log further. */
  lemma CompactedFurther(log: Log, b: nat, i: nat)
    requires Indexed(log) && b < i <= |log|
    ensures var suffix := if i < |log| then EntriesFrom(Compacted(log, b), i + 1) else [];
      [Sentinel(i, TermAt(log, i))] + suffix == Compacted(log, i)
  {
    CompactedFrom(log, b, i);
  }

  lemma CompactedAppend(full: Log, b: nat, more: seq<LogEntry>)
    requires b <= |full| && Indexed(full) && Indexed(full + more)
    ensures Compacted(full + more, b) == Compacted(full, b) + more
  {
    assert (full + more)[b..] == full[b..] + more;
    assert TermAt(full + more, b) == TermAt(full, b);
  }

  lemma CompactedTruncate(full: Log, b: nat, c: nat)
    requires b <= c <= |full| && Indexed(full)
    ensures Compacted(full[..c], b) == Compacted(full, b)[..c - b + 1]
  {
    assert full[..c][b..] == full[b..c];
    assert full[b..][..c - b] == full[b..c];
    assert TermAt(full[..c], b) == TermAt(full, b);
  }
}
