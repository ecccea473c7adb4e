/**
 AppendEntries requests of one leader may be delivered in any order and any number of times: what
 the follower ends up with depends only on which requests it accepted.
 */
module MergeOrder {
  import opened Types
  import opened Logs
  import opened SentinelLog
  import opened NodeState
  import opened NodeRelation
  import opened AppendSimulation
  import opened ClusterRelation
  import opened ClusterSimulation
  import opened ClusterProperties
  import opened Compaction
  import P = Protocol
  import opened ProtocolInvariant
  import opened ProtocolSteps
  import C = Cluster

  /** The request carries a slice of this log. */
  ghost predicate Slice(a: AppendArgs, root: Log) {
    && End(a) <= |root| && a.entries == root[a.prevLogIndex..End(a)] && a.prevLogTerm == TermAt(root, a.prevLogIndex)
  }

  /** The log after everything up to `top` has arrived from a leader with log `root`. */
  ghost function Overlaid(log: Log, root: Log, top: nat): (r: Log)
    requires top <= |root|
    ensures Indexed(log) && Indexed(root) ==> Indexed(r)
  {
    if Agree(root, log, top) then log else root[..top]
  }

  lemma OverlaidMore(log: Log, root: Log, top: nat, more: nat)
    requires top <= |root| && more <= |root|
    ensures Merge(Overlaid(log, root, top), root[..more]) == Overlaid(log, root, Max(top, more))
  {
    var m := root[..more];
    if Agree(root, log, top) {
      assert Includes(log, m) <==> Agree(root, log, more);
    } else {
      assert Includes(root[..top], m) <==> more <= top;
      var i :| 0 <= i < top && (i < |log| ==> root[i] != log[i]);
      assert !Agree(root, log, Max(top, more));
    }
  }

  /** Two logs that overlap with a leader's log stay comparable with it. */
  lemma OverlaidFacts(log: Log, root: Log, top: nat, prev: nat, commit: nat)
    requires top <= |root| && Matches(log, root) && Agree(root, log, prev) && Agree(log, root, commit)
    ensures Matches(Overlaid(log, root, top), root) && Agree(root, Overlaid(log, root, top), prev)
    ensures Agree(Overlaid(log, root, top), root, commit)
  {
    if !Agree(root, log, top) {
      var i :| 0 <= i < top && (i < |log| ==> root[i] != log[i]);
      assert prev <= i && commit <= i;
    }
  }

  /** A node that follows the leader of `t`, with this log behind its sentinel and this commit index. */
  ghost predicate Following(n0: Node, n: Node, t: nat, leader: NodeId, log: Log, commit: nat) {
    && |n0.log| >= 1 && Indexed(log) && Base(n0.log) <= commit <= |log|
    && n == Observe(n0, t).(state := Follower, leaderID := Some(leader), log := Compacted(log, Base(n0.log)),
                            commitIndex := commit, disk := n.disk)
  }

  /** The node behind whose sentinel lies `log`, facing a leader with log `root`. */
  ghost predicate Facing(n: Node, log: Log, root: Log) {
    && Indexed(log) && Indexed(root) && Matches(log, root)
    && Numbered(n.log) && Base(n.log) <= n.commitIndex <= |log| && n.log == Compacted(log, Base(n.log))
    && Agree(log, root, n.commitIndex)
  }

  lemma SliceChecked(n: Node, log: Log, root: Log, a: AppendArgs, t: nat)
    requires Facing(n, log, root) && Slice(a, root) && Agree(root, log, a.prevLogIndex)
    ensures Check(n.log, t, a).None?
  {
    hide Matches, Compacted;
    if a.prevLogIndex >= Base(n.log) { CompactedTerm(log, Base(n.log), a.prevLogIndex); }
    assert TermAt(log, a.prevLogIndex) == TermAt(root, a.prevLogIndex);
  }

  lemma MatchesPart(log: Log, root: Log, k: nat)
    requires Matches(log, root) && k <= |root|
    ensures Matches(log, root[..k])
  {
    forall i: nat | i <= |log| && i <= k && TermAt(root[..k], i) == TermAt(log, i) ensures Agree(root[..k], log, i) {
      assert TermAt(root, i) == TermAt(log, i);
    }
  }

  lemma SliceWritten(n: Node, log: Log, root: Log, a: AppendArgs)
    requires Facing(n, log, root) && Slice(a, root) && Agree(root, log, a.prevLogIndex)
    ensures !WouldPanic(n, a.entries) && Indexed(Merge(log, root[..End(a)]))
    ensures n.commitIndex <= |Merge(log, root[..End(a)])|
    ensures Written(n.log, a.entries) == Compacted(Merge(log, root[..End(a)]), Base(n.log))
    ensures Min(a.leaderCommit, End(a)) <= |Merge(log, root[..End(a)])|
  {
    hide Matches, FirstNew, Compacted, IsNew, Written, Merge;
    var m := root[..End(a)];
    assert m[a.prevLogIndex..] == a.entries;
    MatchesPart(log, root, End(a));
    WrittenMerges(log, Base(n.log), n.commitIndex, m, a.prevLogIndex);
  }

  /** One accepted slice. */
  lemma SliceAccepted(n: Node, log: Log, root: Log, a: AppendArgs)
    requires Facing(n, log, root) && Slice(a, root) && Agree(root, log, a.prevLogIndex) && a.term >= n.currentTerm
    ensures OnAppendEntries(n, a).Replied? && OnAppendEntries(n, a).reply.success
    ensures Following(n, OnAppendEntries(n, a).node, a.term, a.leader, Merge(log, root[..End(a)]),
                      Max(n.commitIndex, Min(a.leaderCommit, End(a))))
  {
    hide Facing, Slice, Agree, Compacted, RecordsFor, Written, WouldPanic, Check, Indexed, Merge;
    var f := Observe(n, a.term).(state := Follower, leaderID := Some(a.leader));
    FacingSame(n, f, log, root);
    SliceChecked(f, log, root, a, f.currentTerm);
    SliceWritten(f, log, root, a);
  }

  lemma FacingSame(n: Node, f: Node, log: Log, root: Log)
    requires Facing(n, log, root) && f.log == n.log && f.commitIndex == n.commitIndex
    ensures Facing(f, log, root) && Numbered(n.log)
  {
  }

  // ---- Any number of requests ------------------------------------------------------------------

  /** The node after the requests arrive in this order. */
  ghost function Absorb(n: Node, requests: seq<AppendArgs>): Node {
    if requests == [] then n
    else
      var m := Absorb(n, requests[..|requests| - 1]);
      if Numbered(m.log) then NodeOf(OnAppendEntries(m, requests[|requests| - 1]), m) else m
  }

  /** The highest index the requests reach. */
  function Reach(requests: seq<AppendArgs>): (top: nat)
    ensures forall a | a in requests :: End(a) <= top
    ensures top == 0 || exists a :: a in requests && End(a) == top
  {
    if requests == [] then 0 else Max(Reach(requests[..|requests| - 1]), End(requests[|requests| - 1]))
  }

  /** The commit index they lead to. */
  function Learned(commit: nat, requests: seq<AppendArgs>): (c: nat)
    ensures c >= commit && forall a | a in requests :: Min(a.leaderCommit, End(a)) <= c
    ensures c == commit || exists a :: a in requests && Min(a.leaderCommit, End(a)) == c
  {
    if requests == [] then commit
    else
      var a := requests[|requests| - 1];
      Max(Learned(commit, requests[..|requests| - 1]), Min(a.leaderCommit, End(a)))
  }

  /** The node answers the request with success. */
  ghost predicate Accepts(m: Node, a: AppendArgs) {
    Numbered(m.log) && OnAppendEntries(m, a).Replied? && OnAppendEntries(m, a).reply.success
  }

  /** Each request is accepted when its turn comes, perhaps only because of those before it. */
  ghost predicate AcceptedInTurn(n: Node, requests: seq<AppendArgs>) {
    forall k | 0 <= k < |requests| :: Accepts(Absorb(n, requests[..k]), requests[k])
  }

  /** Requests of one leader, with slices of its log. */
  ghost predicate FromLeader(requests: seq<AppendArgs>, t: nat, leader: NodeId, root: Log) {
    forall a | a in requests :: a.term == t && a.leader == leader && Slice(a, root)
  }

  /** What a node accepts, it holds up to prevLogIndex. */
  lemma AcceptedMatches(m: Node, log: Log, root: Log, a: AppendArgs)
    requires Facing(m, log, root) && Slice(a, root) && Accepts(m, a)
    ensures a.term >= m.currentTerm && Agree(root, log, a.prevLogIndex)
  {
    hide Compacted, Accept, WouldPanic, FirstOfTerm;
    if Base(m.log) <= a.prevLogIndex <= |log| {
      CompactedTerm(log, Base(m.log), a.prevLogIndex);
    }
  }

  lemma {:induction false} Absorbed(n: Node, log: Log, root: Log, requests: seq<AppendArgs>,
                                    t: nat, leader: NodeId)
    requires Facing(n, log, root) && FromLeader(requests, t, leader, root) && AcceptedInTurn(n, requests)
    requires |requests| > 0
    ensures Reach(requests) <= |root| && t >= n.currentTerm
    ensures Following(n, Absorb(n, requests), t, leader, Overlaid(log, root, Reach(requests)),
                      Learned(n.commitIndex, requests))
  {
    hide Facing, Slice, Compacted, OnAppendEntries, Following, Overlaid, Merge, Agree, Accepts, Absorb, Reach, Learned;
    var k := |requests| - 1;
    var a, before := requests[k], requests[..k];
    assert Slice(a, root) && Accepts(Absorb(n, before), a);
    SliceBounds(a, root);
    LastOne(n, requests);
    if k == 0 {
      FirstSlice(n, log, root, a);
    } else {
      BeforeInTurn(n, requests, k);
      Absorbed(n, log, root, before, t, leader);
      LearnedWithinReach(n.commitIndex, before);
      NextSlice(n, Absorb(n, before), log, root, Reach(before), Learned(n.commitIndex, before), a);
      OverlaidMore(log, root, Reach(before), End(a));
    }
  }

  /** The last request on top of those before it. */
  lemma LastOne(n: Node, requests: seq<AppendArgs>)
    requires |requests| > 0
    ensures var a, before := requests[|requests| - 1], requests[..|requests| - 1];
      && (before == [] ==>
        Absorb(n, before) == n && Reach(before) == 0 && Learned(n.commitIndex, before) == n.commitIndex)
      && (Numbered(Absorb(n, before).log) ==>
        Absorb(n, requests) == NodeOf(OnAppendEntries(Absorb(n, before), a), Absorb(n, before)))
      && Reach(requests) == Max(Reach(before), End(a))
      && Learned(n.commitIndex, requests) == Max(Learned(n.commitIndex, before), Min(a.leaderCommit, End(a)))
  {
    hide OnAppendEntries;
  }

  lemma LearnedWithinReach(commit: nat, requests: seq<AppendArgs>)
    ensures Learned(commit, requests) <= Max(commit, Reach(requests))
  {
    hide Learned;
  }

  lemma FirstSlice(n: Node, log: Log, root: Log, a: AppendArgs)
    requires Facing(n, log, root) && Slice(a, root) && Accepts(n, a)
    ensures Numbered(n.log) && End(a) <= |root| && a.term >= n.currentTerm
    ensures Following(n, NodeOf(OnAppendEntries(n, a), n), a.term, a.leader, Overlaid(log, root, End(a)),
                      Max(n.commitIndex, Min(a.leaderCommit, End(a))))
  {
    hide Facing, Slice, OnAppendEntries, Following, Overlaid, Merge, Agree, Accepts;
    SliceBounds(a, root);
    AcceptedMatches(n, log, root, a);
    SliceAccepted(n, log, root, a);
    OverlaidNone(log, root);
    OverlaidMore(log, root, 0, End(a));
    FacingSame(n, n, log, root);
  }

  lemma BeforeInTurn(n: Node, requests: seq<AppendArgs>, k: nat)
    requires AcceptedInTurn(n, requests) && k <= |requests|
    ensures AcceptedInTurn(n, requests[..k])
  {
    hide Accepts, Absorb;
    forall i | 0 <= i < k ensures Accepts(Absorb(n, requests[..k][..i]), requests[..k][i]) {
      assert requests[..k][..i] == requests[..i];
    }
  }

  lemma SliceBounds(a: AppendArgs, root: Log)
    requires Slice(a, root)
    ensures End(a) <= |root|
  {
  }

  lemma OverlaidNone(log: Log, root: Log)
    ensures Overlaid(log, root, 0) == log
  {
  }

  lemma OverlaidReaches(log: Log, root: Log, top: nat)
    requires top <= |root|
    ensures Agree(Overlaid(log, root, top), root, top)
  {
  }

  /** One more slice on top of those that arrived before. */
  lemma NextSlice(n: Node, m: Node, log: Log, root: Log, top: nat, commit: nat, a: AppendArgs)
    requires Facing(n, log, root) && top <= |root| && commit <= Max(n.commitIndex, top) && n.currentTerm <= a.term
    requires Following(n, m, a.term, a.leader, Overlaid(log, root, top), commit)
    requires Slice(a, root) && Accepts(m, a)
    ensures Numbered(m.log)
    ensures Following(n, NodeOf(OnAppendEntries(m, a), m), a.term, a.leader,
                      Merge(Overlaid(log, root, top), root[..End(a)]),
                      Max(commit, Min(a.leaderCommit, End(a))))
  {
    hide Compacted, Slice, OnAppendEntries, Overlaid, Merge, Matches, Accepts;
    var now := Overlaid(log, root, top);
    OverlaidFacts(log, root, top, 0, n.commitIndex);
    OverlaidReaches(log, root, top);
    assert Facing(m, now, root);
    AcceptedMatches(m, now, root, a);
    SliceAccepted(m, now, root, a);
  }

  lemma SameRequests(commit: nat, x: seq<AppendArgs>, y: seq<AppendArgs>)
    requires forall a :: a in x <==> a in y
    ensures Reach(x) == Reach(y) && Learned(commit, x) == Learned(commit, y)
  {
  }

  // ---- On the running system -------------------------------------------------------------------

  /** The request carries a part of its leader's log. */
  ghost predicate SliceOfReign(a: AppendArgs, led: map<nat, P.Reign>) {
    a.term in led && a.leader == led[a.term].leader && Slice(a, led[a.term].log)
  }

  /** What an AppendEntries request under way says about its leader's log. */
  lemma RequestSlice(c: C.State, s: P.State, p: NodeId, a: AppendArgs)
    requires ClusterRel(c, s) && p in c.hosts && C.AppendReqPacket(p, a) in c.net
    requires a.term >= c.At(p).node.currentTerm
    ensures p in s.nodes && SliceOfReign(a, s.h.past.led) && Facing(c.At(p).node, s.At(p).log, s.h.past.Led(a.term))
  {
    hide Inv, HistoryOk, NodeOk, PastOk, Rooted, Matches, LogOk, Covered, DiskRel, LeaderRel, ElectionRel, ApplierRel,
         RequestsRel, RecordRel, Compacted, HostRel;
    HostFacts(c, s, p);
    assert PacketRel(C.AppendReqPacket(p, a), s.h);
    var m :| m in s.h.appends && AppendMatch(a, m);
    NodeFacts(s, p);
    LeaderOf(s.h, m);
    AppendFacts(s.h, m);
    NodeCovered(s.h, p, s.nodes[p]);
    CommittedInLeader(s.h.past, s.nodes[p].log, s.nodes[p].commit, s.nodes[p].term, m.term);
    LeaderIndexed(s.h.past, m.term);
    LeaderMatches(s, p, s.h.past.led[m.term].log, m.term);
    SliceOf(a, m, s.h.past.led[m.term].log);
  }

  lemma LeaderOf(h: P.History, m: P.Append)
    requires HistoryOk(h) && m in h.appends
    ensures m.term in h.past.led && h.past.led[m.term].leader == m.leader
  {
    assert AppendOk(h.past, m);
  }

  lemma LeaderIndexed(x: P.Past, t: nat)
    requires PastOk(x) && t in x.led
    ensures Indexed(x.Led(t))
  {
    assert ReignOk(x, t);
  }

  lemma SliceOf(a: AppendArgs, m: P.Append, root: Log)
    requires AppendMatch(a, m) && Includes(root, m.prefix)
    ensures Slice(a, root)
  {
    assert m.prefix == root[..|m.prefix|];
  }

  /** Requests of one term that are accepted as they arrive can arrive in any other order in which they
      are accepted, with any repetitions: log, commit index, term, vote and role come out the same. */
  lemma MergeOrderIrrelevant(c: C.State, p: NodeId, t: nat, x: seq<AppendArgs>, y: seq<AppendArgs>)
    requires Reachable(c) && p in c.hosts
    requires forall a | a in x :: C.AppendReqPacket(p, a) in c.net && a.term == t
    requires AcceptedInTurn(c.At(p).node, x) && AcceptedInTurn(c.At(p).node, y)
    requires forall a :: a in x <==> a in y
    ensures Absorb(c.At(p).node, x) == Absorb(c.At(p).node, y).(disk := Absorb(c.At(p).node, x).disk)
  {
    hide Reachable, ClusterRel, Facing, Slice, Compacted, OnAppendEntries, Overlaid, Merge, Agree, Accepts;
    var s := ReachableRel(c);
    var n := c.hosts[p].node;
    BothOrNeither(x, y);
    if x != [] {
      assert x[0] in x && x[..0] == [] && Accepts(Absorb(n, x[..0]), x[0]);
      AcceptedIsCurrent(n, x[0]);
      RequestSlice(c, s, p, x[0]);
      var led, leader := s.h.past.led, x[0].leader;
      forall a | a in x ensures a.term == t && a.leader == leader && Slice(a, led[t].log) { RequestSlice(c, s, p, a); }
      Absorbed(n, s.nodes[p].log, led[t].log, x, t, leader);
      Absorbed(n, s.nodes[p].log, led[t].log, y, t, leader);
      SameRequests(n.commitIndex, x, y);
    }
  }

  lemma BothOrNeither(x: seq<AppendArgs>, y: seq<AppendArgs>)
    requires forall a :: a in x <==> a in y
    ensures x == [] <==> y == []
  {
    if x != [] { assert x[0] in y; }
    if y != [] { assert y[0] in x; }
  }

  lemma AcceptedIsCurrent(m: Node, a: AppendArgs)
    requires Accepts(m, a)
    ensures a.term >= m.currentTerm
  {
    hide Check, WouldPanic, Accept;
  }

  // ---- Delivered again -------------------------------------------------------------------------

  lemma NothingNew(n: Node, log: Log, root: Log, a: AppendArgs)
    requires Indexed(log) && Indexed(root) && Numbered(n.log) && Base(n.log) <= |log|
    requires n.log == Compacted(log, Base(n.log))
    requires Slice(a, root) && Agree(log, root, End(a))
    ensures FirstNew(n.log, a.entries) == |a.entries|
  {
    hide FirstNew, Compacted;
    forall j | 0 <= j < |a.entries|
      ensures !IsNew(n.log, a.entries[j])
    {
      var i := a.prevLogIndex + j + 1;
      assert a.entries[j] == root[i - 1];
      if i > Base(n.log) { CompactedTerm(log, Base(n.log), i); }
    }
  }

  lemma FacingAgain(n: Node, m: Node, log: Log, root: Log, a: AppendArgs)
    requires Facing(n, log, root) && Slice(a, root) && Agree(root, log, a.prevLogIndex)
    requires Following(n, m, a.term, a.leader, Merge(log, root[..End(a)]),
                       Max(n.commitIndex, Min(a.leaderCommit, End(a))))
    ensures var now := Merge(log, root[..End(a)]);
      Facing(m, now, root) && Agree(now, root, End(a)) && Agree(root, now, a.prevLogIndex)
  {
    hide Matches, Compacted, Overlaid, Merge;
    OverlaidNone(log, root);
    OverlaidMore(log, root, 0, End(a));
    OverlaidFacts(log, root, End(a), a.prevLogIndex, n.commitIndex);
    OverlaidReaches(log, root, End(a));
  }

  lemma AcceptedAgain(n: Node, m: Node, log: Log, root: Log, a: AppendArgs)
    requires Facing(n, log, root) && Slice(a, root) && Agree(root, log, a.prevLogIndex) && a.term >= n.currentTerm
    requires Following(n, m, a.term, a.leader, Merge(log, root[..End(a)]),
                       Max(n.commitIndex, Min(a.leaderCommit, End(a))))
    ensures Numbered(m.log) && OnAppendEntries(m, a) == Replied(m, AppendReply(a.term, true, 0, 0))
  {
    hide Matches, FirstNew, Compacted, Check, Slice, Agree, Merge, Indexed;
    SliceBounds(a, root);
    FacingAgain(n, m, log, root, a);
    SliceChecked(m, Merge(log, root[..End(a)]), root, a, m.currentTerm);
    NothingNew(m, Merge(log, root[..End(a)]), root, a);
    assert m.disk.wal + [] == m.disk.wal;
  }

  /** Handling the request a second time changes nothing and succeeds. */
  ghost predicate Settles(n: Node, a: AppendArgs) {
    && Accepts(n, a)
    && var m := OnAppendEntries(n, a).node;
    Numbered(m.log) && OnAppendEntries(m, a) == Replied(m, AppendReply(a.term, true, 0, 0))
  }

  /** An accepted request that arrives once more is answered with success and changes nothing at all,
      on disk or in memory. */
  lemma RedeliveryChangesNothing(c: C.State, p: NodeId, a: AppendArgs)
    requires Reachable(c) && p in c.hosts && C.AppendReqPacket(p, a) in c.net && Accepts(c.At(p).node, a)
    ensures Settles(c.At(p).node, a)
  {
    hide Reachable, ClusterRel, Facing, Slice, Compacted, OnAppendEntries, Following, Merge, Agree;
    var s := ReachableRel(c);
    AcceptedIsCurrent(c.hosts[p].node, a);
    RequestSlice(c, s, p, a);
    var n, log, root := c.hosts[p].node, s.nodes[p].log, s.h.past.led[a.term].log;
    AcceptedMatches(n, log, root, a);
    SliceAccepted(n, log, root, a);
    AcceptedAgain(n, OnAppendEntries(n, a).node, log, root, a);
  }

  // ---- Later entries ---------------------------------------------------------------------------

  /** Some incoming entry contradicts the term the log has at its index. */
  predicate TermConflict(log: seq<LogEntry>, entries: seq<LogEntry>)
    requires Numbered(log)
  {
    exists j | 0 <= j < |entries| ::
      Base(log) < entries[j].index <= LastLogIndex(log) && TermOf(log, entries[j].index) != entries[j].term
  }

  /** The walk keeps every entry the log has, also those beyond the request, exactly when no incoming
      entry contradicts the log; whatever the two logs look like. */
  lemma LaterEntriesKept(log: seq<LogEntry>, entries: seq<LogEntry>)
    requires Numbered(log) && forall j | 0 <= j < |entries| :: entries[j].index == entries[0].index + j
    ensures log <= Written(log, entries) <==> !TermConflict(log, entries)
  {
    hide FirstNew;
    var i := FirstNew(log, entries);
    if i < |entries| {
      var at := entries[i].index - Base(log);
      if entries[i].index <= LastLogIndex(log) {
        assert Written(log, entries)[at] == entries[i] && log[at].term != entries[i].term;
        assert TermConflict(log, entries);
      } else {
        forall j | 0 <= j < |entries| && Base(log) < entries[j].index <= LastLogIndex(log)
          ensures TermOf(log, entries[j].index) == entries[j].term
        {
          assert !IsNew(log, entries[j]);
        }
      }
    } else {
      forall j | 0 <= j < |entries| && Base(log) < entries[j].index <= LastLogIndex(log)
        ensures TermOf(log, entries[j].index) == entries[j].term
      {
        assert !IsNew(log, entries[j]);
      }
    }
  }
}
