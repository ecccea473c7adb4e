/** AppendEntries and InstallSnapshot on a compacted node follow the uncompacted protocol exactly. */
module AppendSimulation {
  import opened Types
  import opened Logs
  import opened SentinelLog
  import opened WalRecords
  import opened KvState
  import opened NodeState
  import opened NodeRelation
  import opened NodeSimulation
  import H = Handlers
  import P = Protocol
  import opened ProtocolInvariant
  import opened ProtocolSteps

  /** The wire form of an AppendEntries request. */
  ghost predicate AppendMatch(a: AppendArgs, m: P.Append) {
    && a.term == m.term && a.leader == m.leader && a.prevLogIndex == m.prev && a.leaderCommit == m.commit
    && m.prev <= |m.prefix| && a.entries == m.prefix[m.prev..] && a.prevLogTerm == TermAt(m.prefix, m.prev)
  }

  /** The wire form of a snapshot: what the leader's committed prefix folds to. */
  ghost predicate SnapshotMatch(a: SnapshotArgs, m: P.Append) {
    && a.term == m.term && a.leader == m.leader && m.prev == 0 && m.commit == |m.prefix|
    && a.snap == SnapshotOf(m.prefix, |m.prefix|)
  }

  ghost predicate Consistent(m: P.Append, n: P.Node) {
    && Indexed(m.prefix) && m.prev <= |m.prefix| && n.commit <= |n.log|
    && Agree(n.log, m.prefix, Min(n.commit, |m.prefix|))
  }

  /** A request of the node's own or a later term agrees with everything the node has committed. */
  lemma RequestFacts(s: P.State, p: NodeId, m: P.Append)
    requires Inv(s) && p in s.nodes && m in s.h.appends && m.term >= s.At(p).term
    ensures Rooted(s.h.past.led, m.prefix) && Sorted(m.prefix) && Consistent(m, s.At(p))
  {
    hide HistoryOk, NodeOk, PastOk, Covered, Rooted, Leads, Reaches;
    var x, n := s.h.past, s.nodes[p];
    NodeFacts(s, p);
    AppendFacts(s.h, m);
    NodeCovered(s.h, p, n);
    RootedPrefix(x.led, x.led[m.term].log, m.prefix);
    RootedSorted(x, m.prefix);
    CommittedInLeader(x, n.log, n.commit, n.term, m.term);
  }

  lemma RequestMatches(s: P.State, p: NodeId, m: P.Append)
    requires Inv(s) && p in s.nodes && m in s.h.appends && m.term >= s.At(p).term
    ensures Matches(s.At(p).log, m.prefix)
  {
    hide HistoryOk, NodeOk, Matches, Leads;
    AppendFacts(s.h, m);
    LeaderMatches(s, p, m.prefix, m.term);
  }

  lemma AppendFacts(h: P.History, m: P.Append)
    requires HistoryOk(h) && m in h.appends
    ensures m.term in h.past.led && m.prev <= |m.prefix| && Includes(h.past.Led(m.term), m.prefix)
    ensures Indexed(m.prefix) && Rooted(h.past.led, h.past.Led(m.term))
  {
    hide Covered, VotesOk;
    assert AppendOk(h.past, m) && ReignOk(h.past, m.term);
  }

  lemma NodeCovered(h: P.History, p: NodeId, n: P.Node)
    requires NodeOk(h, p, n)
    ensures Covered(h.past, n.log, n.commit, n.term) && n.commit <= |n.log|
  {
  }

  // ---- The walk --------------------------------------------------------------------------------

  /** An entry the walk skips is one the uncompacted log already has, with everything before it. */
  lemma Skipped(log: Log, b: nat, m: Log, c: nat)
    requires Matches(log, m) && Indexed(log) && Indexed(m) && b <= |log| && 0 < c <= |m|
    requires Agree(log, m, Min(b, |m|)) && !IsNew(Compacted(log, b), m[c - 1])
    ensures Agree(m, log, c)
  {
    if c > b { CompactedTerm(log, b, c); }
  }

  /** An entry the walk stops at is where the leader's prefix and the uncompacted log part. */
  lemma Stopped(log: Log, b: nat, m: Log, c: nat)
    requires Indexed(log) && Indexed(m) && b <= |log| && c < |m| && c <= |log| && IsNew(Compacted(log, b), m[c])
    ensures b <= c && !Agree(m, log, c + 1)
  {
    if c < |log| { CompactedTerm(log, b, c + 1); }
  }

  /** Where the walk stops: the end of the leader's prefix if the log already holds all of it, and
      otherwise the first index where the two part. */
  lemma WalkFacts(log: Log, b: nat, m: Log, prev: nat, c: nat)
    requires Matches(log, m) && Indexed(log) && Indexed(m) && b <= |log| && prev <= |m|
    requires Agree(m, log, prev) && Agree(log, m, Min(b, |m|))
    requires c == prev + FirstNew(Compacted(log, b), m[prev..])
    ensures c <= |m| && Agree(m, log, c)
    ensures c < |m| ==> b <= c && !Agree(m, log, c + 1) && m[prev..][c - prev] == m[c]
  {
    hide Matches, IsNew, Compacted, Agree;
    var s, entries := Compacted(log, b), m[prev..];
    if c > prev {
      assert entries[c - prev - 1] == m[c - 1];
      Skipped(log, b, m, c);
    }
    if c < |m| {
      assert entries[c - prev] == m[c];
      AgreeBounds(m, log, c);
      Stopped(log, b, m, c);
    }
  }

  lemma AgreeBounds(a: Log, b: Log, n: nat)
    requires Agree(a, b, n)
    ensures n <= |a| && n <= |b| && a[..n] == b[..n]
  {
  }

  lemma TailFrom(m: Log, prev: nat, c: nat)
    requires prev <= c < |m|
    ensures m[prev..][c - prev] == m[c] && m[prev..][c - prev..] == m[c..] && |m[prev..]| == |m| - prev
  {
  }

  /** Keeping the first c entries and appending the leader's rest. */
  lemma Spliced(log: Log, b: nat, m: Log, c: nat)
    requires Indexed(log) && Indexed(m) && b <= c <= |log| && c < |m| && Agree(m, log, c)
    ensures Compacted(log, b)[..c - b + 1] + m[c..] == Compacted(m, b)
    ensures c == |log| ==> Compacted(log, b) + m[c..] == Compacted(m, b)
  {
    hide Agree, Compacted;
    AgreeBounds(m, log, c);
    assert m == m[..c] + m[c..];
    CompactedTruncate(log, b, c);
    CompactedAppend(m[..c], b, m[c..]);
    if c == |log| { assert log == m[..c]; }
  }

  /** Where the walk stops is a conflict exactly when the log goes on there. */
  lemma StopIsConflict(log: Log, b: nat, m: Log, prev: nat, c: nat)
    requires Indexed(log) && Indexed(m) && b <= c <= |log| && prev <= c < |m|
    requires c == prev + FirstNew(Compacted(log, b), m[prev..])
    ensures c - prev < |m[prev..]| && m[prev..][c - prev].index == c + 1 && m[prev..][c - prev..] == m[c..]
    ensures Conflicts(Compacted(log, b), m[prev..]) <==> c < |log|
  {
    hide FirstNew, IsNew, Compacted;
    TailFrom(m, prev, c);
  }

  lemma WrittenIsMerge(log: Log, b: nat, m: Log, prev: nat, c: nat)
    requires Indexed(log) && Indexed(m) && b <= c <= |log| && prev <= c < |m| && Agree(m, log, c)
    requires c == prev + FirstNew(Compacted(log, b), m[prev..])
    ensures Written(Compacted(log, b), m[prev..]) == Compacted(m, b)
    ensures RecordsFor(Compacted(log, b), m[prev..]) == MergeRecords(log, m, c)
    ensures Conflicts(Compacted(log, b), m[prev..]) <==> c < |log|
    ensures m[prev..][c - prev].index == c + 1
  {
    hide *;
    StopIsConflict(log, b, m, prev, c);
    Spliced(log, b, m, c);
    WrittenAt(Compacted(log, b), m[prev..], c - prev);
    RecordsAt(log, b, m, prev, c);
  }

  /** The walk's result, when it stops at entry i. */
  lemma WrittenAt(log: seq<LogEntry>, entries: seq<LogEntry>, i: nat)
    requires Numbered(log) && i == FirstNew(log, entries) < |entries|
    ensures IsNew(log, entries[i])
    ensures Written(log, entries) ==
      (if Conflicts(log, entries) then log[..entries[i].index - Base(log)] else log) + entries[i..]
  {
    hide FirstNew;
  }

  lemma RecordsAt(log: Log, b: nat, m: Log, prev: nat, c: nat)
    requires Indexed(log) && Indexed(m) && b <= c <= |log| && prev <= c < |m|
    requires c == prev + FirstNew(Compacted(log, b), m[prev..])
    ensures RecordsFor(Compacted(log, b), m[prev..]) == MergeRecords(log, m, c)
  {
    hide FirstNew, IsNew, Compacted, Conflicts, AppendRecords;
    StopIsConflict(log, b, m, prev, c);
  }

  // ---- AppendEntries ---------------------------------------------------------------------------

  ghost predicate Checked(c: Node, n: P.Node, a: AppendArgs, m: P.Append) {
    && Numbered(c.log)
    && (Check(c.log, c.currentTerm, a).None? <==> Agree(m.prefix, n.log, m.prev))
    && (Check(c.log, c.currentTerm, a).Some? ==>
      var r := Check(c.log, c.currentTerm, a).value;
      !r.success && r.term == c.currentTerm && (r.conflictTerm > 0 ==> r.conflictIndex >= 1))
  }

  /** The consistency check on the compacted log, boundary included, accepts exactly when the
      uncompacted log holds the leader's entries up to prevLogIndex. */
  lemma CheckIsAgreement(s: P.State, p: NodeId, c: Node, a: AppendArgs, m: P.Append)
    requires Inv(s) && p in s.nodes && NodeRel(c, s.At(p))
    requires m in s.h.appends && m.term == s.At(p).term && AppendMatch(a, m)
    ensures Checked(c, s.At(p), a, m)
  {
    hide Inv, DiskRel, Rooted, Matches;
    RequestFacts(s, p, m);
    RequestMatches(s, p, m);
    CheckAgrees(c, s.nodes[p], a, m);
  }

  lemma CheckAgrees(c: Node, n: P.Node, a: AppendArgs, m: P.Append)
    requires LogRel(c, n) && AppendMatch(a, m) && Matches(n.log, m.prefix) && Consistent(m, n)
    ensures Checked(c, n, a, m)
  {
    hide Compacted;
    var b := Base(c.log);
    if b <= m.prev <= |n.log| { CompactedTerm(n.log, b, m.prev); }
  }

  /** The walk, against the uncompacted log: memory and disk both become the leader's prefix. */
  lemma WrittenRel(c: Node, n: P.Node, a: AppendArgs, m: P.Append, cut: nat)
    requires LogRel(c, n) && DiskRel(c.disk, n, Base(c.log)) && AppendMatch(a, m) && Indexed(m.prefix)
    requires n.commit <= cut <= |n.log| && m.prev <= cut < |m.prefix| && Agree(m.prefix, n.log, cut)
    requires cut == m.prev + FirstNew(c.log, a.entries)
    ensures Written(c.log, a.entries) == Compacted(m.prefix, Base(c.log))
    ensures WalRel(c.disk.wal + RecordsFor(c.log, a.entries), m.prefix, Base(c.log), !n.damage.Intact?)
    ensures SnapRel(c.disk.snap, m.prefix, Base(c.log)) && !WouldPanic(c.(commitIndex := n.commit), a.entries)
  {
    hide FirstNew, IsNew, WalRel, Written, RecordsFor, Conflicts, Compacted;
    var b := Base(c.log);
    WrittenIsMerge(n.log, b, m.prefix, m.prev, cut);
    SnapKept(c.disk.snap, n.log, m.prefix, b);
    var rs := MergeRecords(n.log, m.prefix, cut);
    var k := TornMerge(c.disk.wal, n.log, b, m.prefix, cut, |rs|, !n.damage.Intact?);
    assert rs[..|rs|] == rs && m.prefix[..k] == m.prefix;
  }

  /** What p knows about a request it is about to accept. */
  ghost predicate Acceptable(s: P.State, p: NodeId, c: Node, a: AppendArgs, m: P.Append) {
    && p in s.nodes && NodeRel(c, s.nodes[p]) && c.state == Follower
    && P.Received(s.h, p, s.nodes[p], m) && AppendMatch(a, m) && Agree(m.prefix, s.nodes[p].log, m.prev)
  }

  /** The walk stops at index `cut` of the leader's prefix. */
  ghost predicate CutAt(c: Node, a: AppendArgs, m: P.Append, cut: nat) {
    Numbered(c.log) && cut == m.prev + FirstNew(c.log, a.entries)
  }

  /** That is where the two logs part, above everything committed. */
  ghost predicate PartAt(n: P.Node, m: P.Append, cut: nat) {
    && Indexed(m.prefix) && Sorted(m.prefix) && cut <= |m.prefix| && Agree(m.prefix, n.log, cut)
    && (cut < |m.prefix| ==> n.commit <= cut && !Agree(m.prefix, n.log, cut + 1))
  }

  lemma CutFacts(s: P.State, p: NodeId, c: Node, a: AppendArgs, m: P.Append, cut: nat)
    requires Inv(s) && Acceptable(s, p, c, a, m) && CutAt(c, a, m, cut)
    ensures PartAt(s.At(p), m, cut)
  {
    hide Inv, DiskRel, FirstNew, Rooted, Matches;
    RequestFacts(s, p, m);
    RequestMatches(s, p, m);
    WalkFacts(s.nodes[p].log, Base(c.log), m.prefix, m.prev, cut);
  }

  /** Writing the entries does not panic, and leaves the node as n. */
  ghost predicate WrittenAs(c: Node, entries: seq<LogEntry>, n: P.Node) {
    && Numbered(c.log) && !WouldPanic(c, entries)
    && NodeRel(c.(log := Written(c.log, entries), disk := c.disk.(wal := c.disk.wal + RecordsFor(c.log, entries))), n)
  }

  lemma WrittenNodeRel(c: Node, n: P.Node, a: AppendArgs, m: P.Append, cut: nat)
    requires NodeRel(c, n) && c.state == Follower && AppendMatch(a, m) && Indexed(m.prefix) && Sorted(m.prefix)
    requires n.commit <= cut <= |n.log| && m.prev <= cut < |m.prefix| && Agree(m.prefix, n.log, cut)
    requires CutAt(c, a, m, cut)
    ensures WrittenAs(c, a.entries, n.(log := m.prefix, sound := |m.prefix|))
  {
    hide FirstNew, WalRel, SnapRel, Written, RecordsFor, WouldPanic;
    WrittenRel(c, n, a, m, cut);
    assert c.(commitIndex := n.commit) == c;
  }

  lemma NothingWritten(c: Node, n: P.Node, entries: seq<LogEntry>)
    requires NodeRel(c, n) && FirstNew(c.log, entries) == |entries|
    ensures WrittenAs(c, entries, n)
  {
    hide FirstNew, WalRel, SnapRel, Compacted, SortedFrom;
    assert c.disk.wal + [] == c.disk.wal;
  }

  /** The node after a leader's prefix m was written over its log. */
  ghost function Merged(n: P.Node, m: Log): P.Node {
    if Includes(n.log, m) then n else n.(log := m, sound := |m|)
  }

  lemma SimWrite(s0: P.State, s1: P.State, p: NodeId, c: Node, a: AppendArgs, m: P.Append) returns (s: P.State)
    requires Ahead(s0, s1, p) && s1.h == s0.h && Acceptable(s1, p, c, a, m)
    ensures Ahead(s0, s, p) && p in s.nodes && s.h == s1.h && WrittenAs(c, a.entries, s.At(p))
    ensures s.At(p) == Merged(s1.At(p), m.prefix) && Includes(s.At(p).log, m.prefix)
  {
    hide Inv, Onward, Ahead, FirstNew, IsNew, DiskRel, Written, RecordsFor, WouldPanic, Leads, WrittenAs;
    AheadFacts(s0, s1, p);
    s := s1;
    var cut := m.prev + FirstNew(c.log, a.entries);
    CutFacts(s1, p, c, a, m, cut);
    if cut < |m.prefix| {
      WrittenNodeRel(c, s1.nodes[p], a, m, cut);
      s := Go(s0, s1, p, P.WriteLog(p, m, |m.prefix|));
      assert m.prefix[..|m.prefix|] == m.prefix;
    } else {
      NothingWritten(c, s1.nodes[p], a.entries);
    }
  }

  ghost predicate AcceptedAs(c: Node, a: AppendArgs, n: P.Node) {
    Numbered(c.log) && !WouldPanic(c, a.entries) && NodeRel(Accept(c, a), n)
  }

  lemma SimAccept(s0: P.State, s1: P.State, p: NodeId, c: Node, a: AppendArgs, m: P.Append) returns (s: P.State)
    requires Ahead(s0, s1, p) && s1.h == s0.h && Acceptable(s1, p, c, a, m)
    ensures Ahead(s0, s, p) && AcceptedAs(c, a, s.At(p)) && AckFor(a, p) in AllAcks(s.h)
    ensures s.At(p).log == Merge(s1.At(p).log, m.prefix)
  {
    hide Inv, Onward, Ahead, NodeRel, FirstNew, IsNew, Written, RecordsFor, WouldPanic, AllAcks;
    RelNumbered(c, s1.nodes[p]);
    s := SimWrite(s0, s1, p, c, a, m);
    LearnedRel(c.(log := Written(c.log, a.entries), disk := c.disk.(wal := c.disk.wal + RecordsFor(c.log, a.entries))),
               s.nodes[p], Min(m.commit, |m.prefix|));
    s := SimAcknowledge(s0, s, p, m);
  }

  lemma RelNumbered(c: Node, n: P.Node)
    requires NodeRel(c, n)
    ensures Numbered(c.log)
  {
  }

  lemma LearnedRel(c: Node, n: P.Node, k: nat)
    requires NodeRel(c, n) && c.state == Follower && k <= |n.log|
    ensures NodeRel(c.(commitIndex := Max(c.commitIndex, k)), n.(commit := Max(n.commit, k)))
  {
    hide WalRel, SnapRel, Compacted;
  }

  /** The handler takes the node from n to where s has it; a success is on record as an acknowledgement. */
  ghost predicate AppendAnswered(c: Node, a: AppendArgs, m: P.Append, p: NodeId, n: P.Node, s: P.State) {
    && Numbered(c.log) && OnAppendEntries(c, a).Replied? && NodeRel(OnAppendEntries(c, a).node, s.At(p))
    && var r := OnAppendEntries(c, a).reply;
    && (r.success ==> AckFor(a, p) in AllAcks(s.h)) && (r.conflictTerm > 0 ==> r.conflictIndex >= 1)
    && H.Answers(c, a, OnAppendEntries(c, a).node, r)
    && (r.success <==> a.term >= n.term && Agree(m.prefix, n.log, m.prev))
    && s.At(p).log == if r.success then Merge(n.log, m.prefix) else n.log
  }

  /** HandleAppendEntries never panics, and answers success exactly when the uncompacted log holds
      the leader's entries up to prevLogIndex. */
  lemma SimAppendEntries(s0: P.State, p: NodeId, c: Node, a: AppendArgs, m: P.Append) returns (s: P.State)
    requires Inv(s0) && p in s0.nodes && NodeRel(c, s0.At(p))
    requires m in s0.h.appends && AppendMatch(a, m) && p != a.leader
    ensures Ahead(s0, s, p) && AppendAnswered(c, a, m, p, s0.At(p), s)
  {
    hide Inv, Reaches, Extends, Check, WouldPanic, Accept, Merge, Leads, DiskRel, ElectionRel, Compacted, SortedFrom,
         KeepsCommitted;
    s := SimObserve(s0, p, c, a.term);
    H.AppendAnswers(c, a);
    var o := Observe(c, a.term);
    if a.term >= o.currentTerm {
      s := SimFollow(s0, s, p, o, a.leader);
      var f := o.(state := Follower, leaderID := Some(a.leader));
      CheckIsAgreement(s, p, f, a, m);
      if Check(f.log, f.currentTerm, a).None? { s := SimAccept(s0, s, p, f, a, m); }
    }
  }

  // ---- InstallSnapshot -------------------------------------------------------------------------

  /** Installing replaces memory and disk by the compacted form of the merged log. */
  lemma InstalledRel(c: Node, n: P.Node, m: Log, s: Snapshot)
    requires LogRel(c, n) && Indexed(m) && Matches(n.log, m)
    requires s == SnapshotOf(m, |m|) && n.commit < |m|
    ensures var log := Merge(n.log, m);
      && Indexed(log) && |m| <= |log| && Includes(log, m)
      && Install(c, s).log == Compacted(log, |m|)
      && SnapRel(Some(s), log, |m|) && WalRel(AppendRecords(SurvivingSuffix(c.log, s)), log, |m|, !n.damage.Intact?)
  {
    hide Compacted, Fold, Replay, WalRel, EntriesFrom;
    var b, k, log := Base(c.log), |m|, Merge(n.log, m);
    if k <= |n.log| {
      CompactedTerm(n.log, b, k);
      CompactedFrom(n.log, b, k);
    }
    assert Agree(m, log, k);
    assert SurvivingSuffix(c.log, s) == log[k..];
    assert log[..k] == m[..k] == m;
    CompactedIs(log, k);
    WalOfSuffix(log, k, !n.damage.Intact?);
  }

  lemma CompactedIs(log: Log, k: nat)
    requires Indexed(log) && k <= |log|
    ensures Compacted(log, k) == [Sentinel(k, TermAt(log, k))] + log[k..]
  {
  }

  lemma WalOfSuffix(log: Log, k: nat, torn: bool)
    requires Indexed(log) && k <= |log|
    ensures WalRel(AppendRecords(log[k..]), log, k, torn) && Replay(AppendRecords(log[k..])).Some?
  {
    hide Replay, AppendRecords;
    ReplayCompacted(log, k);
    assert Faithful(AppendRecords(log[k..]), log, k);
    FaithfulIsLoose(AppendRecords(log[k..]), log, k);
  }

  lemma InstalledNodeRel(c: Node, n: P.Node, m: Log, s: Snapshot, n': P.Node)
    requires NodeRel(c, n) && c.state == Follower && s == SnapshotOf(m, |m|) && n.commit < |m|
    requires n' == Merged(n, m).(commit := |m|)
    requires Indexed(n'.log) && |m| <= |n'.log| && Install(c, s).log == Compacted(n'.log, |m|)
    requires SnapRel(Some(s), n'.log, |m|)
    requires WalRel(AppendRecords(SurvivingSuffix(c.log, s)), n'.log, |m|, !n.damage.Intact?)
    ensures NodeRel(Install(c, s), n')
  {
    hide WalRel, SnapRel, Merged, SurvivingSuffix, Compacted;
    MergedKeeps(n, m);
  }

  lemma MergedKeeps(n: P.Node, m: Log)
    ensures var o := Merged(n, m);
      o == n.(log := Merge(n.log, m), sound := o.sound)
  {
  }

  lemma SimMerge(s0: P.State, s1: P.State, p: NodeId, m: P.Append) returns (s: P.State)
    requires Ahead(s0, s1, p) && s1.h == s0.h && p in s1.nodes && P.Received(s1.h, p, s1.At(p), m)
    requires s1.At(p).role == Follower && m.prev == 0
    ensures Ahead(s0, s, p) && p in s.nodes && s.h == s1.h
    ensures s.At(p) == Merged(s1.At(p), m.prefix)
    ensures Includes(s.At(p).log, m.prefix)
  {
    hide Inv, Onward, Ahead;
    s := s1;
    if !Includes(s1.nodes[p].log, m.prefix) {
      s := Go(s0, s1, p, P.WriteLog(p, m, |m.prefix|));
      assert m.prefix[..|m.prefix|] == m.prefix;
    }
  }

  ghost predicate InstalledAs(c: Node, s: Snapshot, n: P.Node) {
    Numbered(c.log) && NodeRel(if s.lastIndex <= c.commitIndex then c else Install(c, s), n)
  }

  lemma SimInstall(s0: P.State, s1: P.State, p: NodeId, c: Node, a: SnapshotArgs, m: P.Append) returns (s: P.State)
    requires Ahead(s0, s1, p) && s1.h == s0.h && p in s1.nodes && NodeRel(c, s1.At(p)) && c.state == Follower
    requires P.Received(s1.h, p, s1.At(p), m) && SnapshotMatch(a, m)
    ensures Ahead(s0, s, p) && p in s.nodes
    ensures InstalledAs(c, a.snap, s.At(p)) && P.Ack(a.term, p, a.snap.lastIndex) in AllAcks(s.h)
    ensures s.At(p).log == Merge(s1.At(p).log, m.prefix)
    ensures s.At(p).commit == Max(s1.At(p).commit, a.snap.lastIndex)
  {
    hide Inv, Reaches, Extends, Install, WalRel, DiskRel, Matches, AllAcks, Leads;
    var n := s1.nodes[p];
    RequestFacts(s1, p, m);
    s := SimMerge(s0, s1, p, m);
    s := SimAcknowledge(s0, s, p, m);
    if |m.prefix| > n.commit {
      RequestMatches(s1, p, m);
      InstalledRel(c, n, m.prefix, a.snap);
      InstalledNodeRel(c, n, m.prefix, a.snap, s.nodes[p]);
    } else {
      assert Includes(n.log, m.prefix);
      assert s.nodes[p] == n;
    }
  }

  ghost predicate SnapshotAnswered(c: Node, a: SnapshotArgs, p: NodeId, s: P.State) {
    && Numbered(c.log) && NodeRel(OnInstallSnapshot(c, a).0, s.At(p))
    && H.Installs(c, a, OnInstallSnapshot(c, a).0, OnInstallSnapshot(c, a).1)
    && (OnInstallSnapshot(c, a).1.term == a.term ==> P.Ack(a.term, p, a.snap.lastIndex) in AllAcks(s.h))
  }

  /** HandleInstallSnapshot: the snapshot does to the uncompacted log what the entries it replaces
      would have done. */
  lemma SimInstallSnapshot(s0: P.State, p: NodeId, c: Node, a: SnapshotArgs, m: P.Append) returns (s: P.State)
    requires Inv(s0) && p in s0.nodes && NodeRel(c, s0.At(p))
    requires m in s0.h.appends && SnapshotMatch(a, m) && p != a.leader
    ensures Ahead(s0, s, p) && p in s.nodes && SnapshotAnswered(c, a, p, s)
    ensures s.At(p).log == if a.term >= s0.At(p).term then Merge(s0.At(p).log, m.prefix) else s0.At(p).log
  {
    hide Inv, Reaches, Extends, Install, Merge;
    s := SimObserve(s0, p, c, a.term);
    H.SnapshotInstalls(c, a);
    var o := Observe(c, a.term);
    if a.term >= o.currentTerm {
      s := SimFollow(s0, s, p, o, a.leader);
      s := SimInstall(s0, s, p, o.(state := Follower, leaderID := Some(a.leader)), a, m);
    }
  }

  ghost predicate Acknowledged(m: P.Append, p: NodeId, n: P.Node, s: P.State) {
    && P.Ack(m.term, p, |m.prefix|) in AllAcks(s.h)
    && s.At(p) == n.(commit := Max(n.commit, Min(m.commit, |m.prefix|)))
  }

  lemma SimAcknowledge(s0: P.State, s1: P.State, p: NodeId, m: P.Append) returns (s: P.State)
    requires Ahead(s0, s1, p) && p in s1.nodes && P.Received(s1.h, p, s1.At(p), m)
    requires Includes(s1.At(p).log, m.prefix)
    ensures Ahead(s0, s, p) && p in s.nodes && Acknowledged(m, p, s1.At(p), s)
  {
    hide Inv, Onward, Ahead;
    s := Go(s0, s1, p, P.Acknowledge(p, m));
    s := Go(s0, s, p, P.LearnCommit(p, m));
  }
}
