/**
 Hint-guided backtracking: how the leader's nextIndex for a follower comes down to where the two logs
 agree. Both logs are taken uncompacted, with the boundary below which each side has only a snapshot.
 */
module Backtracking {
  import opened Types
  import opened Logs
  import opened SentinelLog
  import opened NodeState
  import P = Protocol
  import opened ProtocolInvariant

  ghost predicate Real(log: Log) {
    Indexed(log) && Sorted(log) && forall i | 0 <= i < |log| :: log[i].term >= 1
  }

  /** The logs of a leader and a follower with their boundaries, and the length up to which they agree. */
  datatype Pair = Pair(led: map<nat, P.Reign>, leader: Log, lb: nat, follower: Log, fb: nat, agreed: nat)

  /** Every entry was created by the leader of its own term at its own index. */
  ghost predicate Sourced(led: map<nat, P.Reign>, log: Log) {
    forall i | 0 <= i < |log| ::
      log[i].term >= 1 && log[i].term in led && i < |led[log[i].term].log| && led[log[i].term].log[i] == log[i]
  }

  /** The logs agree up to k, and at no index beyond it have the same term. */
  ghost predicate AgreeExactly(a: Log, b: Log, k: nat) {
    Agree(a, b, k) && forall i | k < i <= |a| && i <= |b| :: TermAt(a, i) != TermAt(b, i)
  }

  /** Both consist of leaders' entries, and the follower's snapshot is in the leader's log. A follower that
      crashed in the middle of an install may have entries that are older than its snapshot, but what it
      retains is sorted. */
  ghost predicate Comparable(d: Pair) {
    && Real(d.leader) && Indexed(d.follower) && Rooted(d.led, d.leader) && Sourced(d.led, d.follower)
    && d.lb <= |d.leader| && d.fb <= d.agreed <= |d.follower| && AgreeExactly(d.leader, d.follower, d.agreed)
    && SortedFrom(d.follower, d.fb)
  }

  /** Any other follower's log descends from the leaders' logs as a whole. */
  ghost predicate Related(d: Pair) { Comparable(d) && Real(d.follower) && Rooted(d.led, d.follower) }

  /** The leader sends entries from `next`, so it still has the term of the entry before. */
  ghost predicate Sends(d: Pair, next: nat) { d.lb < next <= |d.leader| + 1 }

  function Probe(d: Pair, next: nat): AppendArgs
    requires 1 <= next <= |d.leader| + 1
  {
    AppendArgs(0, NodeId(""), next - 1, TermAt(d.leader, next - 1), d.leader[next - 1..], 0)
  }

  /** The follower's answer to a probe. */
  function Answer(d: Pair, next: nat): Option<AppendReply>
    requires 1 <= next <= |d.leader| + 1 && Indexed(d.follower) && d.fb <= |d.follower|
  {
    Check(Compacted(d.follower, d.fb), 0, Probe(d, next))
  }

  /** Where the leader tries next. */
  function Retry(d: Pair, next: nat, r: AppendReply): nat
    requires 1 <= next <= |d.leader| + 1 && Indexed(d.leader) && d.lb <= |d.leader|
  {
    NextIndexAfterRejection(Compacted(d.leader, d.lb), next - 1, r)
  }

  // ---- The leader's scan -----------------------------------------------------------------------

  /** No entry of the term after the slot that the scan returns. */
  lemma {:induction false} LastOfTermFacts(log: seq<LogEntry>, term: nat, i: nat)
    requires i < |log| && forall j, k | 1 <= j < k < |log| :: log[j].term <= log[k].term
    ensures forall j | LastOfTerm(log, term, i) < j <= i && 1 <= j :: log[j].term != term
  {
    if i > 0 && log[i].term > term { LastOfTermFacts(log, term, i - 1); }
  }

  /** Where the leader goes on after a rejection: right behind its last retained entry of the rejected term; where
      the hint says if it has none or the follower's log was too short; one lower, but not below 1, without hints. */
  predicate GoesOnAt(log: seq<LogEntry>, prev: nat, r: AppendReply, next: nat)
    requires Numbered(log)
  {
    if r.conflictTerm == 0 then next == if r.conflictIndex == 0 then Max(prev, 1) else r.conflictIndex
    else if exists e :: e in log[1..] && e.term == r.conflictTerm then
      && Base(log) + 1 < next <= LastLogIndex(log) + 1 && TermOf(log, next - 1) == r.conflictTerm
      && forall i | next <= i <= LastLogIndex(log) :: TermOf(log, i) != r.conflictTerm
    else next == r.conflictIndex
  }

  lemma RetryExactly(log: seq<LogEntry>, prev: nat, r: AppendReply)
    requires Numbered(log) && forall j, k | 1 <= j < k < |log| :: log[j].term <= log[k].term
    ensures GoesOnAt(log, prev, r, NextIndexAfterRejection(log, prev, r))
  {
    hide LastOfTerm;
    var slot := LastOfTerm(log, r.conflictTerm, |log| - 1);
    LastOfTermFacts(log, r.conflictTerm, |log| - 1);
    assert slot > 0 ==> log[1..][slot - 1] == log[slot];
    assert forall i | Base(log) <= i <= LastLogIndex(log) :: TermOf(log, i) == log[i - Base(log)].term;
  }

  /** The leader's last retained index of a term, or 0. */
  function LastIndexOf(log: Log, b: nat, term: nat): (s: nat)
    requires Indexed(log) && b <= |log|
  {
    var slot := LastOfTerm(Compacted(log, b), term, |log| - b);
    if slot == 0 then 0 else b + slot
  }

  lemma LastIndexFacts(log: Log, b: nat, term: nat)
    requires Real(log) && b <= |log|
    ensures var s := LastIndexOf(log, b, term);
      && (s != 0 ==> b < s <= |log| && TermAt(log, s) == term)
      && forall i | b < i <= |log| && i > s :: TermAt(log, i) != term
  {
    hide Numbered, Indexed;
    var c := Compacted(log, b);
    assert forall j | 1 <= j < |c| :: c[j] == log[b + j - 1];
    LastOfTermFacts(c, term, |log| - b);
    forall i | b < i <= |log| && i > LastIndexOf(log, b, term) ensures TermAt(log, i) != term {
      assert c[i - b] == log[i - 1];
    }
  }

  // ---- One rejection ---------------------------------------------------------------------------

  /** The follower's scan for the start of the run of equal terms. */
  lemma FirstFacts(log: Log, b: nat, i: nat)
    requires Indexed(log) && SortedFrom(log, b) && b <= i <= |log|
    ensures var first, t := FirstOfTerm(Compacted(log, b), i), TermAt(log, i);
      && b <= first <= i && (i > b ==> first > b) && (forall j | first <= j <= i :: TermAt(log, j) == t)
      && (first > b + 1 ==> TermAt(log, first - 1) < t)
  {
    hide FirstOfTerm, Compacted;
    var c, first := Compacted(log, b), FirstOfTerm(Compacted(log, b), i);
    CompactedTerm(log, b, i);
    forall j | first <= j <= i ensures TermAt(log, j) == TermAt(log, i) {
      CompactedTerm(log, b, j);
      assert TermOf(c, j) == TermOf(c, i);
    }
    if first > b + 1 { CompactedTerm(log, b, first - 1); }
  }

  /** The rejected index lies in a run of follower entries of one term, which starts at `first`. */
  ghost predicate TermRun(d: Pair, first: nat, prev: nat, t: nat) {
    && d.fb < first <= prev <= |d.follower| && d.agreed < prev <= |d.leader| && t >= 1 && TermAt(d.leader, prev) != t
    && (forall j | first <= j <= prev :: TermAt(d.follower, j) == t)
    && (first > d.fb + 1 ==> TermAt(d.follower, first - 1) < t)
  }

  /** The two kinds of rejection, and where the leader goes from there. */
  lemma RejectionCases(d: Pair, next: nat)
    requires Comparable(d) && Sends(d, next) && Answer(d, next).Some?
    ensures var r, prev := Answer(d, next).value, next - 1;
      if prev > |d.follower| then r.conflictTerm == 0 && r.conflictIndex == Retry(d, next, r) == |d.follower| + 1
      else
        && TermRun(d, r.conflictIndex, prev, r.conflictTerm)
        && var s := LastIndexOf(d.leader, d.lb, r.conflictTerm);
        Retry(d, next, r) == if s != 0 then s + 1 else r.conflictIndex
  {
    hide Rooted, LastOfTerm, FirstOfTerm, Compacted, Retry, LastIndexOf, TermOf;
    var prev := next - 1;
    if d.fb <= prev <= |d.follower| {
      CompactedTerm(d.follower, d.fb, prev);
      FirstFacts(d.follower, d.fb, prev);
    }
    RetryIs(d, next, Answer(d, next).value);
  }

  lemma RetryIs(d: Pair, next: nat, r: AppendReply)
    requires Real(d.leader) && d.lb <= |d.leader| && Sends(d, next) && r.conflictIndex >= 1
    ensures Retry(d, next, r) ==
      if r.conflictTerm == 0 then r.conflictIndex
      else
        var s := LastIndexOf(d.leader, d.lb, r.conflictTerm);
        if s != 0 then s + 1 else r.conflictIndex
  {
  }

  /** A rejected term that the leader also has ends, on the leader, before the rejected index. */
  lemma LastBeforeRun(d: Pair, first: nat, prev: nat, t: nat)
    requires Comparable(d) && TermRun(d, first, prev, t)
    ensures LastIndexOf(d.leader, d.lb, t) < prev
  {
    hide Rooted, Agree;
    LastIndexFacts(d.leader, d.lb, t);
    var s := LastIndexOf(d.leader, d.lb, t);
    if s >= prev { SourcedAcross(d.led, d.leader, s, d.follower, prev); }
  }

  /** A log that has a term at i has that term's entry at every index up to i where the other has one. */
  lemma SourcedAcross(led: map<nat, P.Reign>, a: Log, i: nat, b: Log, j: nat)
    requires Rooted(led, a) && Sourced(led, b) && 1 <= j <= i <= |a| && j <= |b| && TermAt(a, i) == TermAt(b, j)
    ensures TermAt(a, j) == TermAt(b, j)
  {
    assert Agree(a, led[a[i - 1].term].log, i);
    assert led[b[j - 1].term].log[j - 1] == b[j - 1];
  }

  /** Every rejection lowers nextIndex, whatever the follower's log has been through. */
  lemma RejectionLowers(d: Pair, next: nat)
    requires Comparable(d) && Sends(d, next) && Answer(d, next).Some?
    ensures 1 <= Retry(d, next, Answer(d, next).value) < next
  {
    hide Rooted, Answer, Retry, LastIndexOf;
    RejectionCases(d, next);
    var r := Answer(d, next).value;
    if next - 1 <= |d.follower| { LastBeforeRun(d, r.conflictIndex, next - 1, r.conflictTerm); }
  }

  /** The leader retries at the end of its own run of the term, or just before the follower's. */
  lemma EarlierRun(d: Pair, first: nat, prev: nat, t: nat, first': nat, prev': nat, t': nat)
    requires SortedFrom(d.follower, d.fb) && prev' < prev
    requires TermRun(d, first, prev, t) && TermRun(d, first', prev', t')
    requires TermAt(d.leader, prev') == t || prev' == first - 1
    ensures t' < t
  {
    assert TermAt(d.follower, prev') == t' && TermAt(d.follower, prev) == t;
  }

  /** After a rejection for one term, the next can only be for a smaller one. */
  lemma ConflictTermsFall(d: Pair, next: nat)
    requires Comparable(d) && Sends(d, next) && Answer(d, next).Some?
    ensures var r := Answer(d, next).value;
      var again := Retry(d, next, r);
      Sends(d, again) && Answer(d, again).Some? ==>
        var r' := Answer(d, again).value;
        1 <= r'.conflictTerm && (r.conflictTerm == 0 || r'.conflictTerm < r.conflictTerm)
  {
    hide Answer, Retry, Rooted, LastIndexOf;
    var r := Answer(d, next).value;
    var again := Retry(d, next, r);
    RejectionLowers(d, next);
    RejectionCases(d, next);
    if Sends(d, again) && Answer(d, again).Some? {
      RejectionCases(d, again);
      if next - 1 <= |d.follower| {
        LastIndexFacts(d.leader, d.lb, r.conflictTerm);
        var r' := Answer(d, again).value;
        EarlierRun(d, r.conflictIndex, next - 1, r.conflictTerm, r'.conflictIndex, again - 1, r'.conflictTerm);
      }
    }
  }

  // ---- The whole conversation ------------------------------------------------------------------

  /** How often the follower says no before it says yes or the leader falls back on a snapshot. */
  ghost function Rejections(d: Pair, next: nat): nat
    requires Comparable(d) && 1 <= next <= |d.leader| + 1
  {
    if next <= d.lb || Answer(d, next).None? then 0
    else
      RejectionLowers(d, next);
      1 + Rejections(d, Retry(d, next, Answer(d, next).value))
  }

  /** The distinct terms of the follower's entries beyond where the logs agree. */
  ghost function FollowerTerms(d: Pair): set<nat> { set i | d.agreed <= i < |d.follower| :: d.follower[i].term }

  ghost function TermsUpTo(d: Pair, t: nat): set<nat> { set u | u in FollowerTerms(d) && u <= t }

  lemma {:induction false} RejectionsFrom(d: Pair, next: nat)
    requires Comparable(d) && Sends(d, next) && Answer(d, next).Some? && next - 1 <= |d.follower|
    ensures Rejections(d, next) <= |TermsUpTo(d, Answer(d, next).value.conflictTerm)|
    decreases next
  {
    hide Rooted, Answer, Retry, Agree, LastIndexOf;
    var r := Answer(d, next).value;
    var again := Retry(d, next, r);
    RejectionCases(d, next);
    RejectionLowers(d, next);
    ConflictTermsFall(d, next);
    assert TermAt(d.follower, next - 1) == r.conflictTerm && d.follower[next - 2].term in TermsUpTo(d, r.conflictTerm);
    if Sends(d, again) && Answer(d, again).Some? {
      RejectionsFrom(d, again);
      var t' := Answer(d, again).value.conflictTerm;
      SubsetSize(TermsUpTo(d, t') + {r.conflictTerm}, TermsUpTo(d, r.conflictTerm));
    } else {
      SubsetSize({r.conflictTerm}, TermsUpTo(d, r.conflictTerm));
    }
  }

  /** However long the logs are, there are at most as many rejections as the follower has terms, plus
      one for a follower whose log is too short. */
  lemma BacktrackingIsFast(d: Pair, next: nat)
    requires Comparable(d) && 1 <= next <= |d.leader| + 1
    ensures Rejections(d, next) <= 1 + |FollowerTerms(d)|
    ensures next - 1 <= |d.follower| ==> Rejections(d, next) <= |FollowerTerms(d)|
  {
    hide Rooted, Answer, Retry, Agree;
    if next > d.lb && Answer(d, next).Some? {
      if next - 1 <= |d.follower| {
        RejectionsFrom(d, next);
        SubsetSize(TermsUpTo(d, Answer(d, next).value.conflictTerm), FollowerTerms(d));
      } else {
        RejectionLowers(d, next);
        RejectionCases(d, next);
        BacktrackingIsFast(d, Retry(d, next, Answer(d, next).value));
      }
    }
  }

  // ---- Not going too far -----------------------------------------------------------------------

  lemma AgreedIsLongest(a: Log, b: Log, k: nat, i: nat)
    requires AgreeExactly(a, b, k) && Agree(a, b, i)
    ensures i <= k
  {
    assert i > 0 ==> TermAt(a, i) == TermAt(b, i);
  }

  /** The rejected term, if the leader still has entries of it, is older than the follower's snapshot; or
      else the leader has compacted all of them away, and one of them sits where the follower's run starts. */
  ghost predicate Misleads(d: Pair, r: AppendReply) {
    && Indexed(d.leader) && d.lb <= |d.leader| && d.fb <= |d.follower| && r.conflictTerm != 0
    && if LastIndexOf(d.leader, d.lb, r.conflictTerm) != 0 then r.conflictTerm < TermAt(d.follower, d.fb)
       else r.conflictIndex <= d.lb && TermAt(d.leader, r.conflictIndex) == r.conflictTerm
  }

  /** The retry goes below an index up to which the two logs agree exactly when the hints mislead. */
  lemma OvershootsExactly(d: Pair, next: nat)
    requires Comparable(d) && Sends(d, next) && Answer(d, next).Some?
    ensures var r := Answer(d, next).value;
      && (Retry(d, next, r) - 1 < d.agreed <==> Misleads(d, r))
      && ((exists k :: Agree(d.leader, d.follower, k) && Retry(d, next, r) - 1 < k) <==> Misleads(d, r))
  {
    hide Rooted, Sourced, Answer, Retry, LastIndexOf;
    var r := Answer(d, next).value;
    RejectionCases(d, next);
    if next - 1 <= |d.follower| {
      MisleadsExactly(d, r, next - 1);
    }
    forall k: nat | Agree(d.leader, d.follower, k) ensures k <= d.agreed {
      AgreedIsLongest(d.leader, d.follower, d.agreed, k);
    }
  }

  /** On the rejected run: the leader's last entry of the term, or the start of the run, is below the
      agreed length exactly when the hints mislead. */
  lemma MisleadsExactly(d: Pair, r: AppendReply, prev: nat)
    requires Comparable(d) && TermRun(d, r.conflictIndex, prev, r.conflictTerm)
    ensures var s := LastIndexOf(d.leader, d.lb, r.conflictTerm);
      (if s != 0 then s < d.agreed else r.conflictIndex <= d.agreed) <==> Misleads(d, r)
  {
    hide Rooted, Sourced, LastIndexOf;
    LastIndexFacts(d.leader, d.lb, r.conflictTerm);
    var s, t := LastIndexOf(d.leader, d.lb, r.conflictTerm), r.conflictTerm;
    assert d.agreed > 0 ==> TermAt(d.leader, d.agreed) == TermAt(d.follower, d.agreed);
    assert d.fb > 0 ==> TermAt(d.leader, d.fb) == TermAt(d.follower, d.fb);
    if s != 0 {
      assert d.agreed > d.fb ==> TermAt(d.follower, d.agreed) <= TermAt(d.follower, prev);
    } else {
      assert TermAt(d.follower, r.conflictIndex) == t;
    }
  }

  /** As long as the leader goes on sending entries, it goes below the agreed prefix exactly when it has
      entries of the rejected term and that is older than the follower's snapshot; so it never does to a
      follower along whose log terms do not decrease. */
  lemma EntriesNeverOvershoot(d: Pair, next: nat)
    requires Comparable(d) && Sends(d, next) && Answer(d, next).Some?
    requires Sends(d, Retry(d, next, Answer(d, next).value))
    ensures var r := Answer(d, next).value;
      && (Retry(d, next, r) - 1 < d.agreed <==>
        LastIndexOf(d.leader, d.lb, r.conflictTerm) != 0 && r.conflictTerm < TermAt(d.follower, d.fb))
      && (Sorted(d.follower) ==> d.agreed <= Retry(d, next, r) - 1)
  {
    hide Rooted, Sourced, Answer, Retry, LastIndexOf;
    var r := Answer(d, next).value;
    OvershootsExactly(d, next);
    RejectionCases(d, next);
    LastIndexFacts(d.leader, d.lb, r.conflictTerm);
    if next - 1 <= |d.follower| { assert TermAt(d.follower, next - 1) == r.conflictTerm; }
  }

  /** The leader falls back on a snapshot although the logs agree at its boundary exactly when the
      rejected term is the sentinel's own, no retained entry has it, and the hint is not above the
      boundary. */
  lemma NeedlessSnapshotExactly(d: Pair, next: nat)
    requires Comparable(d) && Sends(d, next) && Answer(d, next).Some?
    ensures var r := Answer(d, next).value;
      Retry(d, next, r) <= d.lb && d.lb <= d.agreed <==>
        && r.conflictTerm == TermAt(d.leader, d.lb) && r.conflictIndex <= d.lb
        && LastIndexOf(d.leader, d.lb, r.conflictTerm) == 0
  {
    hide Rooted, Sourced, Answer, Retry, LastIndexOf;
    var r := Answer(d, next).value;
    RejectionCases(d, next);
    assert d.lb > 0 ==> TermAt(d.leader, d.lb) >= 1;
    assert 0 < d.lb <= d.agreed ==> TermAt(d.leader, d.lb) == TermAt(d.follower, d.lb);
    if next - 1 <= |d.follower| {
      LastIndexFacts(d.leader, d.lb, r.conflictTerm);
      if r.conflictIndex <= d.lb { assert TermAt(d.follower, d.lb) == r.conflictTerm; }
    }
  }

  // ---- What does not hold ----------------------------------------------------------------------

  function EntryAt(term: nat, index: nat): LogEntry { LogEntry(term, index, Delete("k")) }

  /** Log Matching between just the two logs is not enough for progress: here they agree wherever
      they have the same term, and yet a rejection sends the leader forward. What saves the protocol
      is that both logs come from the same leaders. */
  lemma PairwiseMatchingIsNotEnough() returns (d: Pair)
    ensures Real(d.leader) && Real(d.follower) && d.lb == 0 && d.fb == 0
    ensures forall i | 0 <= i <= |d.leader| && i <= |d.follower| && TermAt(d.leader, i) == TermAt(d.follower, i) ::
      Agree(d.leader, d.follower, i)
    ensures Sends(d, 2) && Answer(d, 2).Some? && Retry(d, 2, Answer(d, 2).value) > 2
  {
    hide FirstOfTerm;
    d := Pair(map[], [EntryAt(1, 1), EntryAt(2, 2)], 0, [EntryAt(2, 1)], 0, 0);
    var c := Compacted(d.leader, 0);
    assert c[1] == EntryAt(1, 1) && c[2] == EntryAt(2, 2) && |c| == 3;
    assert LastOfTerm(c, 2, 2) == 2;
    assert TermOf(Compacted(d.follower, 0), 1) == 2;
  }
}

/** Backtracking between the hosts of a running system. */
module BacktrackingOnHosts {
  import opened Types
  import opened Logs
  import opened SentinelLog
  import opened NodeState
  import opened NodeRelation
  import opened AppendSimulation
  import opened ClusterRelation
  import opened ClusterSimulation
  import opened ClusterProperties
  import opened Backtracking
  import P = Protocol
  import opened ProtocolInvariant
  import opened ProtocolSteps
  import PS = ProtocolSafety
  import C = Cluster

  lemma SourcedLog(s: P.State, p: NodeId)
    requires Inv(s) && p in s.nodes
    ensures Indexed(s.At(p).log) && Sourced(s.h.past.led, s.At(p).log)
  {
    hide Inv, NodeOk, HistoryOk, PastOk, Stale, Leads;
    NodeFacts(s, p);
    LogIndexed(s, p);
    var x, n := s.h.past, s.nodes[p];
    RootedSourced(x, n.log[..n.sound]);
    if n.sound < |n.log| {
      StaleFact(s.h, p, n);
      TailSourced(x, p, n);
    }
    forall i | 0 <= i < |n.log|
      ensures var e := n.log[i]; e.term >= 1 && e.term in x.led && i < |x.led[e.term].log| && x.led[e.term].log[i] == e
    {
      if i < n.sound { assert n.log[..n.sound][i] == n.log[i]; }
    }
  }

  lemma RootedSourced(x: P.Past, log: Log)
    requires PastOk(x) && Rooted(x.led, log)
    ensures Sourced(x.led, log)
  {
    forall i | 0 <= i < |log|
      ensures var e := log[i]; e.term >= 1 && e.term in x.led && i < |x.led[e.term].log| && x.led[e.term].log[i] == e
    {
      assert Agree(log, x.led[log[i].term].log, i + 1);
      assert ReignOk(x, log[i].term);
    }
  }

  lemma TailSourced(x: P.Past, p: NodeId, n: P.Node)
    requires PastOk(x) && Stale(x, p, n)
    ensures forall i | n.sound <= i < |n.log| ::
      var e := n.log[i]; e.term >= 1 && e.term in x.led && i < |x.Led(e.term)| && x.Led(e.term)[i] == e
  {
    hide PastOk, Rooted, SoftOk;
    var was: Log :| LeftFrom(x.led, n, was);
    RootedSourced(x, was);
  }

  lemma RealLog(log: Log, t: nat)
    requires Ordered(t, log)
    ensures Real(log)
  {
  }

  /** After a crash in the middle of an install, what the snapshot brought is part of every later leader's
      log, and beyond it no term is the same. */
  lemma StaleTail(x: P.Past, p: NodeId, n: P.Node, t: nat)
    requires PastOk(x) && LogOk(x.led, n) && Stale(x, p, n) && t in x.led && n.term <= t
    ensures AgreeExactly(x.Led(t), n.log, n.sound)
  {
    hide PastOk, AckedOwn, Bounds, Chosen, LeftFrom, LogOk;
    var u: nat, k: nat :| Outdated(x, n, u, k);
    CommittedInLeader(x, n.log, n.sound, u, t);
    forall i: nat | n.sound < i <= |n.log| && i <= |x.Led(t)| ensures TermAt(x.Led(t), i) != TermAt(n.log, i) {
      NeverMatches(x, p, n, x.Led(t), t, i);
    }
  }

  /** Two logs that descend from the leaders' logs have such a length. */
  lemma {:induction false} LongestAgreed(led: map<nat, P.Reign>, a: Log, b: Log, top: nat) returns (k: nat)
    requires Rooted(led, a) && Rooted(led, b) && top <= |a| && top <= |b|
    requires forall i | top < i <= |a| && i <= |b| :: TermAt(a, i) != TermAt(b, i)
    ensures AgreeExactly(a, b, k)
    decreases top
  {
    hide Rooted;
    k := top;
    if TermAt(a, top) == TermAt(b, top) {
      LogMatching(led, a, b, top);
    } else {
      k := LongestAgreed(led, a, b, top - 1);
    }
  }

  /** A leader's log and that of a member: the length up to which they agree. */
  lemma AgreedWith(s: P.State, p: NodeId, q: NodeId) returns (k: nat)
    requires Inv(s) && p in s.nodes && q in s.nodes && s.At(p).role == Leader && s.At(q).term <= s.At(p).term
    ensures AgreeExactly(s.At(p).log, s.At(q).log, k) && s.At(q).commit <= k
  {
    hide Inv, HistoryOk, PastOk, NodeOk, Rooted, Covered, Stale, Leads;
    var n, m, x := s.nodes[p], s.nodes[q], s.h.past;
    WholeFacts(s, p);
    NodeFacts(s, q);
    PS.LeaderAt(s, p);
    NodeCovered(s.h, q, m);
    CommittedInLeader(x, m.log, m.commit, m.term, n.term);
    if m.sound < |m.log| {
      StaleFact(s.h, q, m);
      StaleTail(x, q, m, n.term);
      k := m.sound;
    } else {
      assert m.log[..m.sound] == m.log;
      k := LongestAgreed(x.led, n.log, m.log, Min(|n.log|, |m.log|));
      AgreedIsLongest(n.log, m.log, k, m.commit);
    }
  }

  lemma PairOf(s: P.State, p: NodeId, q: NodeId, lb: nat, fb: nat) returns (d: Pair)
    requires Inv(s) && p in s.nodes && q in s.nodes && s.At(p).role == Leader && s.At(q).term <= s.At(p).term
    requires lb <= |s.At(p).log| && fb <= s.At(q).commit && SortedFrom(s.At(q).log, fb)
    ensures d.leader == s.At(p).log && d.lb == lb && d.follower == s.At(q).log && d.fb == fb
    ensures Comparable(d) && (!s.At(q).damage.Tainted? ==> Related(d)) && s.At(q).commit <= d.agreed
  {
    hide Inv, HistoryOk, PastOk, NodeOk, Rooted, Sourced, Stale, Leads;
    var n, m, x := s.nodes[p], s.nodes[q], s.h.past;
    WholeFacts(s, p);
    RealLog(n.log, n.term);
    SourcedLog(s, q);
    if !m.damage.Tainted? {
      WholeFacts(s, q);
      RealLog(m.log, m.term);
    }
    var k := AgreedWith(s, p, q);
    d := Pair(x.led, n.log, lb, m.log, fb, k);
  }

  /** A leader's log and the log of any member that has not moved on to a later term. */
  lemma RelatedOnHosts(c: C.State, p: NodeId, q: NodeId) returns (d: Pair)
    requires Reachable(c) && p in c.hosts && q in c.hosts && c.At(p).node.state == Leader
    requires c.At(q).node.currentTerm <= c.At(p).node.currentTerm
    ensures Comparable(d) && (!c.At(q).damage.Tainted? ==> Related(d)) && LogsOf(d, c.At(p).node, c.At(q).node)
    ensures c.At(q).node.commitIndex <= d.agreed
  {
    hide Reachable, ClusterRel, Inv, NodeRel, Comparable, Related, Compacted, Leads;
    var s := ReachableRel(c);
    HostFacts(c, s, p);
    HostFacts(c, s, q);
    RelLog(c.hosts[p].node, s.nodes[p]);
    RelLog(c.hosts[q].node, s.nodes[q]);
    RelSorted(c.hosts[q].node, s.nodes[q]);
    d := PairOf(s, p, q, Base(c.hosts[p].node.log), Base(c.hosts[q].node.log));
  }

  lemma RelSorted(c: Node, n: P.Node)
    requires NodeRel(c, n)
    ensures Numbered(c.log) && SortedFrom(n.log, Base(c.log))
  {
  }

  /** The two nodes hold these logs, compacted at these boundaries. */
  ghost predicate LogsOf(d: Pair, n: Node, f: Node) {
    && Indexed(d.leader) && Indexed(d.follower) && d.lb <= |d.leader| && d.fb <= |d.follower|
    && n.log == Compacted(d.leader, d.lb) && f.log == Compacted(d.follower, d.fb)
  }

  /** The follower's answer depends on prevLogIndex and prevLogTerm only. */
  lemma SameCheck(log: seq<LogEntry>, t: nat, t': nat, a: AppendArgs, a': AppendArgs)
    requires Numbered(log) && a.prevLogIndex == a'.prevLogIndex && a.prevLogTerm == a'.prevLogTerm
    ensures Check(log, t, a).Some? <==> Check(log, t', a').Some?
    ensures Check(log, t, a).Some? ==>
      var r, r' := Check(log, t, a).value, Check(log, t', a').value;
      r.term == t && r.conflictIndex == r'.conflictIndex && r.conflictTerm == r'.conflictTerm
  {
  }

  /** The leader's request to q is refused by q as it now stands. */
  ghost predicate Refused(n: Node, f: Node, q: NodeId) {
    && Formed(n) && Formed(f) && q in n.nextIndex && 1 <= n.nextIndex[q] <= LastLogIndex(n.log) + 1
    && Outbound(n, q).SendEntries? && OnAppendEntries(f, Outbound(n, q).args).Replied?
    && !OnAppendEntries(f, Outbound(n, q).args).reply.success
  }

  /** The rejection sends the leader where the pair of logs says. */
  ghost predicate Rejects(n: Node, f: Node, q: NodeId, d: Pair) {
    && Refused(n, f, q) && LogsOf(d, n, f) && Sends(d, n.nextIndex[q]) && Answer(d, n.nextIndex[q]).Some?
    && var r := OnAppendEntries(f, Outbound(n, q).args).reply;
    && var hints := Answer(d, n.nextIndex[q]).value;
    && r.term == n.currentTerm && r.conflictTerm == hints.conflictTerm && r.conflictIndex == hints.conflictIndex
    && NextIndexAfterRejection(n.log, n.nextIndex[q] - 1, r) == Retry(d, n.nextIndex[q], hints)
  }

  lemma RefusedIsRejection(n: Node, f: Node, q: NodeId, d: Pair)
    requires Refused(n, f, q) && f.currentTerm <= n.currentTerm && LogsOf(d, n, f)
    ensures Rejects(n, f, q, d)
  {
    hide FirstOfTerm, LastOfTerm, Compacted, Accept, WouldPanic, Check;
    var next, a := n.nextIndex[q], Outbound(n, q).args;
    CompactedTerm(d.leader, d.lb, next - 1);
    SameCheck(f.log, n.currentTerm, 0, a, Probe(d, next));
  }

  /** The leader still leads after the rejection, tries lower, and will soon have found where to start. */
  ghost predicate ShortWay(n: Node, f: Node, q: NodeId, d: Pair) {
    && Refused(n, f, q)
    && var after := OnAppendReply(n, q, Outbound(n, q).args, OnAppendEntries(f, Outbound(n, q).args).reply);
    && n.state == after.state && q in after.nextIndex && 1 <= after.nextIndex[q] < n.nextIndex[q]
    && Comparable(d) && after.nextIndex[q] <= |d.leader| + 1
    && Rejections(d, after.nextIndex[q]) <= |FollowerTerms(d)|
  }

  /** A rejection that is not stale always lowers the leader's nextIndex for that follower, whatever the
      follower's log has been through, and the rest of the conversation is short. */
  lemma RejectionsOnHosts(c: C.State, p: NodeId, q: NodeId) returns (d: Pair)
    requires Reachable(c) && p in c.hosts && q in c.hosts && c.At(p).node.state == Leader
    requires q in c.At(p).node.peers
    requires c.At(q).node.currentTerm <= c.At(p).node.currentTerm && Refused(c.At(p).node, c.At(q).node, q)
    ensures LogsOf(d, c.At(p).node, c.At(q).node) && ShortWay(c.At(p).node, c.At(q).node, q, d)
  {
    hide Reachable, Related, Comparable, Compacted, OnAppendEntries, NextIndexAfterRejection, Answer, Retry, Rejections;
    d := RelatedOnHosts(c, p, q);
    var n := c.hosts[p].node;
    RefusedIsRejection(n, c.hosts[q].node, q, d);
    AfterOneRejection(d, n.nextIndex[q]);
  }

  /** Where the rejection sends the leader. */
  ghost function NextTry(n: Node, f: Node, q: NodeId): nat {
    if !Refused(n, f, q) then 0 else
    var after := OnAppendReply(n, q, Outbound(n, q).args, OnAppendEntries(f, Outbound(n, q).args).reply);
    if q in after.nextIndex then after.nextIndex[q] else 0
  }

  /** Where the rejection sends the leader, against where the two logs agree: below it exactly when the
      hints mislead, and if it still sends entries, exactly when it has entries of the rejected term and
      that is older than the follower's snapshot. It falls back on a snapshot although the logs agree at its
      boundary exactly when it has none, the term is its sentinel's and the hint is not above the boundary. */
  ghost predicate OvershootsIff(n: Node, f: Node, q: NodeId, d: Pair) {
    && Refused(n, f, q) && LogsOf(d, n, f)
    && var r, next := OnAppendEntries(f, Outbound(n, q).args).reply, NextTry(n, f, q);
    && 1 <= next && (next - 1 < d.agreed <==> Misleads(d, r))
    && (next > Base(n.log) ==>
      (next - 1 < d.agreed <==>
        LastOfTerm(n.log, r.conflictTerm, |n.log| - 1) != 0 && r.conflictTerm < f.log[0].term))
    && (next <= Base(n.log) && Base(n.log) <= d.agreed <==>
      && r.conflictTerm == n.log[0].term && r.conflictIndex <= Base(n.log)
      && LastOfTerm(n.log, r.conflictTerm, |n.log| - 1) == 0)
  }

  /** In every reachable state a rejection that is not stale sends the leader below the agreed prefix
      exactly when the hints mislead. */
  lemma OvershootsOnHosts(c: C.State, p: NodeId, q: NodeId) returns (d: Pair)
    requires Reachable(c) && p in c.hosts && q in c.hosts && c.At(p).node.state == Leader
    requires q in c.At(p).node.peers
    requires c.At(q).node.currentTerm <= c.At(p).node.currentTerm && Refused(c.At(p).node, c.At(q).node, q)
    ensures Comparable(d) && (!c.At(q).damage.Tainted? ==> Related(d)) && c.At(q).node.commitIndex <= d.agreed
    ensures OvershootsIff(c.At(p).node, c.At(q).node, q, d)
  {
    hide Reachable, Related, Comparable, OnAppendEntries, NextIndexAfterRejection, Answer, Retry, Misleads, LastOfTerm,
         Agree;
    d := RelatedOnHosts(c, p, q);
    var n, f := c.hosts[p].node, c.hosts[q].node;
    RefusedIsRejection(n, f, q, d);
    var next := n.nextIndex[q];
    AfterOneRejection(d, next);
    OvershootsExactly(d, next);
    var hints := Answer(d, next).value;
    SameHints(d, OnAppendEntries(f, Outbound(n, q).args).reply, hints);
    if Retry(d, next, hints) > d.lb { EntriesNeverOvershoot(d, next); }
    NeedlessSnapshotExactly(d, next);
    SentinelTerm(d.follower, d.fb);
    SentinelTerm(d.leader, d.lb);
  }

  lemma SameHints(d: Pair, r: AppendReply, r': AppendReply)
    requires r.conflictTerm == r'.conflictTerm && r.conflictIndex == r'.conflictIndex
    ensures Misleads(d, r) <==> Misleads(d, r')
  {
    hide LastIndexOf;
  }

  lemma SentinelTerm(log: Log, b: nat)
    requires Indexed(log) && b <= |log|
    ensures Compacted(log, b)[0].term == TermAt(log, b)
  {
  }

  lemma AfterOneRejection(d: Pair, next: nat)
    requires Comparable(d) && Sends(d, next) && Answer(d, next).Some?
    ensures 1 <= Retry(d, next, Answer(d, next).value) < next
    ensures Rejections(d, Retry(d, next, Answer(d, next).value)) <= |FollowerTerms(d)|
  {
    hide Rooted, Agree, Answer, Retry, Rejections;
    RejectionLowers(d, next);
    RejectionCases(d, next);
    BacktrackingIsFast(d, Retry(d, next, Answer(d, next).value));
  }
}
