/** Every event keeps the invariant: Leader Completeness first, then the events group by group. */
module ProtocolSteps {
  import opened Types
  import opened Logs
  import opened Protocol
  import opened ProtocolInvariant

  // ---- Consequences of the invariant -----------------------------------------------------------

  /** A committed index is in the log of every later leader. */
  lemma {:induction false} LeaderCompleteness(x: Past, t: nat, k: nat, later: nat)
    requires PastOk(x) && Chosen(x, t, k) && later in x.led && t <= later
    ensures Agree(x.Led(t), x.Led(later), k)
    decreases later
  {
    hide SoftOk, Ordered;
    if t < later {
      var q :| Backed(x, t, k, q);
      var v := QuorumsMeet(x.members, q, x.led[later].electors) by { assert ReignOk(x, later); }
      assert AckedBy(x, t, v, k);
      var a :| a in x.acks && a.term == t && a.from == v && a.len >= k;
      assert AckedOwn(x, a, k);
      if Lost(x.led, t, k, later) {
        var u: nat :| t < u < later && u in x.led && !Agree(x.led[t].log, x.led[u].log, k);
        LeaderCompleteness(x, t, k, u);
        assert false;
      }
    }
  }

  /** A committed prefix is a prefix of the log of every leader from its term on. */
  lemma CommittedInLeader(x: Past, log: Log, c: nat, hi: nat, later: nat)
    requires PastOk(x) && Covered(x, log, c, hi) && later in x.led && hi <= later
    ensures Agree(log, x.Led(later), c)
  {
    if c > 0 {
      var t: nat, k: nat :| t <= hi && CoveredBy(x, log, c, t, k);
      LeaderCompleteness(x, t, k, later);
    }
  }

  /** A log that descends from the leaders' logs is ordered, because it is a prefix of the log of the
      leader of its last term. */
  lemma LogOrdered(x: Past, log: Log, t: nat)
    requires PastOk(x) && Rooted(x.led, log) && forall i | 0 <= i < |log| :: log[i].term <= t
    ensures Ordered(t, log)
  {
    forall i, j | 0 <= i <= j < |log|
      ensures 1 <= log[i].term <= log[j].term <= t && log[i].index == i + 1
    {
      assert ReignOk(x, log[j].term);
      var root := x.led[log[j].term].log;
      assert Agree(log, root, j + 1);
      assert log[i] == root[i] && log[j] == root[j];
    }
  }

  lemma RootedSorted(x: Past, log: Log)
    requires PastOk(x) && Rooted(x.led, log)
    ensures Sorted(log)
  {
    hide AckOk, SoftOk, ElectorsRespected;
    forall i, j | 0 <= i < j < |log| ensures log[i].term <= log[j].term {
      assert ReignOk(x, log[j].term);
      assert Agree(log, x.led[log[j].term].log, j + 1);
    }
  }

  lemma WholeLog(x: Past, n: Node)
    requires PastOk(x) && LogOk(x.led, n) && n.sound == |n.log|
    ensures Rooted(x.led, n.log) && Ordered(n.term, n.log)
  {
    assert n.log[..n.sound] == n.log;
    LogOrdered(x, n.log, n.term);
  }

  /** Log Matching: equal terms at an index mean equal logs up to that index. */
  lemma LogMatching(led: map<nat, Reign>, a: Log, b: Log, i: nat)
    requires Rooted(led, a) && Rooted(led, b) && i <= |a| && i <= |b| && TermAt(a, i) == TermAt(b, i)
    ensures Agree(a, b, i)
  {
    if i > 0 {
      assert Agree(a, led[a[i - 1].term].log, i);
      assert Agree(b, led[b[i - 1].term].log, i);
    }
  }

  lemma LostLater(led: map<nat, Reign>, t: nat, k: nat, hi: nat, higher: nat)
    requires Lost(led, t, k, hi) && hi <= higher
    ensures Lost(led, t, k, higher)
  {
    var u: nat :| t < u < hi && u in led && !Agree(led[t].log, led[u].log, k);
    assert u < higher;
  }

  /** What `log` shares with the leader survives writing any long enough part of the leader's prefix. */
  lemma Retained(log: Log, m: Log, len: nat, root: Log, k: nat)
    requires Includes(root, m) && Agree(log, root, k) && !Includes(log, m)
    requires len <= |m| && (len == |m| || !Agree(m, log, len + 1))
    ensures Agree(m[..len], root, k)
  {
    var top := if len == |m| then len else len + 1;
    if top <= |log| {
      var j :| 0 <= j < top && m[j] != log[j];
      assert m[j] == root[j];
      assert k <= j;
    }
  }

  lemma CoveredPart(x: Past, log: Log, c: nat, hi: nat, log': Log, c': nat, hi': nat)
    requires Covered(x, log, c, hi) && c' <= c && hi <= hi' && Agree(log, log', c')
    ensures Covered(x, log', c', hi')
  {
    if c' > 0 {
      var t: nat, k: nat :| t <= hi && CoveredBy(x, log, c, t, k);
      assert CoveredBy(x, log', c', t, k);
    }
  }

  // ---- Events that leave the history alone -----------------------------------------------------

  /** The node may forget its role, see a higher term, or learn about votes, acks and commits. */
  ghost predicate Harmless(h: History, p: NodeId, o: Node, n: Node) {
    && n.log == o.log && n.sound == o.sound && n.damage == o.damage && o.term <= n.term && n.commit <= n.sound
    && (n.term == o.term ==> n.vote == o.vote)
    && (n.role == Follower || (n.role == o.role && n.term == o.term))
    && Covered(h.past, n.log, n.commit, n.term)
    && (n.role == Candidate ==> forall q | q in n.granted :: Vote(n.term, q, p) in h.votes)
    && (n.role == Leader ==> forall q | q in n.matched :: Ack(n.term, q, n.matched[q]) in h.past.acks + h.past.soft)
  }

  lemma HarmlessOk(h: History, p: NodeId, o: Node, n: Node)
    requires NodeOk(h, p, o) && Harmless(h, p, o, n)
    ensures NodeOk(h, p, n)
  {
    hide Covered, AcksHeld;
    AcksHeldLater(h.past, p, o, n);
    if n.sound < |n.log| { StaleLater(h.past, p, o, n); }
  }

  lemma StaleLater(x: Past, p: NodeId, o: Node, n: Node)
    requires Stale(x, p, o) && n.log == o.log && n.sound == o.sound && o.term <= n.term
    requires n.role == Follower || (n.role == Candidate && (o.term < n.term || (n.role == o.role && n.term == o.term)))
    ensures Stale(x, p, n)
  {
    hide CoveredBy, Lost, Rooted;
    var was :| LeftFrom(x.led, o, was);
    assert LeftFrom(x.led, n, was);
    var u: nat, k: nat :| Outdated(x, o, u, k);
    assert Outdated(x, n, u, k);
    forall a, k: nat | AckedOwn(x, a, k) && a.from == p
      ensures Bounds(x, VoteRequest(0, p, LastTerm(n.log), |n.log|), a, k, n.term + 1)
    {
      assert Bounds(x, VoteRequest(0, p, LastTerm(o.log), |o.log|), a, k, o.term + 1);
      if Lost(x.led, a.term, k, o.term + 1) { LostLater(x.led, a.term, k, o.term + 1, n.term + 1); }
    }
  }

  lemma AcksHeldLater(x: Past, p: NodeId, o: Node, n: Node)
    requires AcksHeld(x, p, o) && n.log == o.log && o.term <= n.term
    ensures AcksHeld(x, p, n)
  {
    forall a, k: nat | Acked(x, a, k) && a.from == p
      ensures Held(x, a, k, n)
    {
      assert Held(x, a, k, o);
      if Lost(x.led, a.term, k, o.term + 1) { LostLater(x.led, a.term, k, o.term + 1, n.term + 1); }
    }
  }

  lemma AdvanceCovered(x: Past, p: NodeId, n: Node, i: nat, q: set<NodeId>)
    requires PastOk(x) && LogOk(x.led, n) && LeaderOk(x, p, n) && n.role == Leader && n.sound == |n.log|
    requires 0 < i <= |n.log| && TermAt(n.log, i) == n.term && Quorum(x.members, q)
    requires forall v | v in q && v != p :: v in n.matched && n.matched[v] >= i
    ensures Covered(x, n.log, i, n.term)
  {
    WholeLog(x, n);
    assert LastTerm(n.log) == n.term;
    if v :| v in q && v != p && Ack(n.term, v, n.matched[v]) in x.soft {
      assert SoftOk(x, Ack(n.term, v, n.matched[v]));
      CoveredPart(x, n.log, n.matched[v], n.term, n.log, i, n.term);
    } else {
      forall v | v in q ensures AckedBy(x, n.term, v, i) {
        var a := if v == p then Ack(n.term, p, |n.log|) else Ack(n.term, v, n.matched[v]);
        assert a in x.acks;
      }
      assert Backed(x, n.term, i, q);
      assert CoveredBy(x, n.log, i, n.term, i);
    }
  }

  /** Overwriting a follower's log keeps its committed prefix and what it acknowledged. */
  lemma WriteLogOk(h: History, p: NodeId, n: Node, m: Append, len: nat)
    requires HistoryOk(h) && NodeOk(h, p, n) && Received(h, p, n, m) && n.role == Follower
    requires !Includes(n.log, m.prefix)
    requires len <= |m.prefix| && (len == |m.prefix| || !Agree(m.prefix, n.log, len + 1))
    ensures NodeOk(h, p, n.(log := m.prefix[..len], sound := len))
    ensures n.commit <= len && Agree(n.log, m.prefix[..len], n.commit)
  {
    hide Covered;
    var x, log, root := h.past, m.prefix[..len], h.past.led[m.term].log;
    assert AppendOk(x, m) && ReignOk(x, m.term);
    assert log[..len] == log;
    RootedPrefix(x.led, root, log);
    CommittedInLeader(x, n.log, n.commit, n.term, m.term);
    Retained(n.log, m.prefix, len, root, n.commit);
    CoveredPart(x, n.log, n.commit, n.term, log, n.commit, n.term);
    WriteKeepsAcks(x, p, n, m, len);
  }

  lemma WriteKeepsAcks(x: Past, p: NodeId, n: Node, m: Append, len: nat)
    requires AcksHeld(x, p, n) && AppendOk(x, m) && n.term == m.term
    requires !Includes(n.log, m.prefix)
    requires len <= |m.prefix| && (len == |m.prefix| || !Agree(m.prefix, n.log, len + 1))
    ensures AcksHeld(x, p, n.(log := m.prefix[..len], sound := len))
  {
    hide Covered, Includes;
    var root := x.led[m.term].log;
    forall a, k: nat | Acked(x, a, k) && a.from == p
      ensures Held(x, a, k, n.(log := m.prefix[..len], sound := len))
    {
      assert Held(x, a, k, n);
      if Agree(x.led[a.term].log, n.log, k) && Agree(x.led[a.term].log, root, k) {
        Retained(n.log, m.prefix, len, root, k);
      }
    }
  }

  lemma RootedPrefix(led: map<nat, Reign>, root: Log, log: Log)
    requires Rooted(led, root) && Includes(root, log)
    ensures Rooted(led, log)
  {
    forall i | 0 <= i < |log|
      ensures log[i].term in led && Agree(log, led[log[i].term].log, i + 1)
    {
      assert log[i] == root[i];
      assert Agree(root, led[root[i].term].log, i + 1);
    }
  }

  // ---- TornInstall: a crash in the middle of an install ----------------------------------------

  /** The log that the node's last entries come from: its own, or the one it had before. */
  lemma Origin(x: Past, p: NodeId, n: Node, m: Log) returns (was: Log)
    requires PastOk(x) && LogOk(x.led, n) && (n.sound < |n.log| ==> Stale(x, p, n)) && Overruled(n.log, m)
    requires Covered(x, m, |m|, n.term) && |m| > 0
    ensures Rooted(x.led, was) && |was| == |n.log| && was[|m| - 1].term != m[|m| - 1].term
    ensures forall i | |m| <= i < |was| :: was[i] == n.log[i]
  {
    hide PastOk;
    if n.sound == |n.log| {
      WholeLog(x, n);
      was := n.log;
    } else {
      var o :| LeftFrom(x.led, n, o);
      var u: nat, k: nat :| Outdated(x, n, u, k);
      BeyondSound(x, n, m, u, k);
      was := o;
    }
  }

  /** A committed prefix that overrules the log goes beyond its sound part, which is committed too. */
  lemma BeyondSound(x: Past, n: Node, m: Log, u: nat, k: nat)
    requires PastOk(x) && Outdated(x, n, u, k) && Overruled(n.log, m) && Covered(x, m, |m|, n.term) && |m| > 0
    ensures |m| > n.sound
  {
    hide PastOk;
    var t: nat, j: nat :| t <= n.term && CoveredBy(x, m, |m|, t, j);
    var last := if t <= u then u else t;
    LeaderCompleteness(x, t, j, last);
    LeaderCompleteness(x, u, k, last);
  }

  /** The overruled log ends in an earlier term than the one that committed what overrules it. */
  lemma EarlierTerm(x: Past, was: Log, m: Log, t: nat, k: nat)
    requires PastOk(x) && Rooted(x.led, was) && 0 < |m| <= |was| && was[|m| - 1].term != m[|m| - 1].term
    requires CoveredBy(x, m, |m|, t, k)
    ensures LastTerm(was) < t
  {
    var w := LastTerm(was);
    assert w in x.led && Includes(x.led[w].log, was);
    if w >= t { LeaderCompleteness(x, t, k, w); }
  }

  lemma TornStale(x: Past, p: NodeId, n: Node, m: Append, n': Node)
    requires PastOk(x) && VoterLogOk(x, p, n) && Covered(x, m.prefix, |m.prefix|, n.term) && |m.prefix| > 0
    requires Overruled(n.log, m.prefix) && n' == Torn(n, m.prefix)
    ensures Stale(x, p, n')
  {
    hide VoterLogOk, PastOk, SoftOk, ReignOk, AcksHeld, Chosen;
    var log := m.prefix;
    var was := Origin(x, p, n, log) by { assert VoterLogOk(x, p, n); VoterLogParts(x, p, n); }
    assert LeftFrom(x.led, n', was);
    var t: nat, k: nat :| t <= n.term && CoveredBy(x, log, |log|, t, k);
    EarlierTerm(x, was, log, t, k);
    assert LastTerm(n'.log) == LastTerm(was) == LastTerm(n.log) && |n'.log| == |n.log|;
    assert Outdated(x, n', t, k);
    forall a, k: nat | AckedOwn(x, a, k) && a.from == p
      ensures Bounds(x, VoteRequest(0, p, LastTerm(n'.log), |n'.log|), a, k, n'.term + 1)
    {
      LastEntryBounds(x, p, n, a, k);
    }
  }

  lemma VoterLogParts(x: Past, p: NodeId, n: Node)
    requires VoterLogOk(x, p, n)
    ensures LogOk(x.led, n) && (n.sound < |n.log| ==> Stale(x, p, n))
  {
  }

  lemma TornAcksHeld(x: Past, p: NodeId, n: Node, m: Append)
    requires AcksHeld(x, p, n) && AppendOk(x, m) && n.term == m.term
    ensures AcksHeld(x, p, Torn(n, m.prefix))
  {
    hide AppendOk;
    var n', log := Torn(n, m.prefix), m.prefix;
    if Includes(n.log, log) {
      assert n'.log == n.log;
    } else {
      WriteKeepsAcks(x, p, n, m, |log|);
      assert log[..|log|] == log;
      var o := n.(log := log[..|log|], sound := |log|);
      forall a, k: nat | Acked(x, a, k) && a.from == p ensures Held(x, a, k, n') { assert Held(x, a, k, o); }
    }
  }

  lemma TornLogOk(x: Past, n: Node, m: Append)
    requires PastOk(x) && LogOk(x.led, n) && AppendOk(x, m) && n.term == m.term
    requires Includes(n.log, m.prefix) ==> |m.prefix| <= n.sound
    ensures LogOk(x.led, Torn(n, m.prefix))
  {
    hide SoftOk, Covered;
    var n', log, root := Torn(n, m.prefix), m.prefix, x.led[m.term].log;
    assert ReignOk(x, m.term);
    RootedPrefix(x.led, root, log);
    if n'.log != n.log || n'.sound != n.sound { assert n'.log[..n'.sound] == log; }
  }

  lemma TornKeepsCommitted(h: History, p: NodeId, n: Node, m: Append)
    requires HistoryOk(h) && NodeOk(h, p, n) && Received(h, p, n, m) && n.commit < |m.prefix|
    ensures Agree(n.log, Torn(n, m.prefix).log, n.commit)
  {
    hide VotesOk, VotersRespected, ElectedBy, ElectorsRespected, Stale, SoftOk, AcksHeld, Rooted, PastOk, Covered,
         CandidateOk;
    assert AppendOk(h.past, m);
    CommittedInLeader(h.past, n.log, n.commit, n.term, m.term);
  }

  /** Coming back from a crash between the two writes of an install. */
  lemma TornOk(h: History, p: NodeId, n: Node, m: Append)
    requires HistoryOk(h) && NodeOk(h, p, n) && Received(h, p, n, m) && p in h.past.members
    requires n.commit < |m.prefix| && m.commit == |m.prefix|
    ensures NodeOk(h, p, Torn(n, m.prefix))
  {
    hide PastOk, VotesOk, VotersRespected, ElectedBy, Stale, AcksHeld, Overruled, VoterOk, CandidateOk, LeaderOk,
         Covered;
    var x, n', log := h.past, Torn(n, m.prefix), m.prefix;
    assert AppendOk(x, m);
    TornRoleOk(h, p, n, log);
    if Includes(n.log, log) && n.sound < |n.log| { SoftAck(h, p, n, m); }
    TornLogOk(x, n, m);
    TornAcksHeld(x, p, n, m);
    CoveredPart(x, log, |log|, m.term, n'.log, |log|, n'.term);
    if Overruled(n.log, log) { TornStale(x, p, n, m, n'); }
    else if n'.sound < |n'.log| { TornKeepsStale(x, p, n, n'); }
  }

  lemma TornRoleOk(h: History, p: NodeId, n: Node, m: Log)
    requires NodeOk(h, p, n)
    ensures VoterOk(h, p, Torn(n, m)) && CandidateOk(h, p, Torn(n, m)) && LeaderOk(h.past, p, Torn(n, m))
  {
    hide LogOk, AcksHeld, Covered, Stale, Overruled;
  }

  lemma TornKeepsStale(x: Past, p: NodeId, n: Node, n': Node)
    requires Stale(x, p, n)
    requires n' == n.(damage := n'.damage, role := Follower, commit := n'.commit, granted := {}, matched := map[])
    ensures Stale(x, p, n')
  {
    StaleLater(x, p, n, n');
  }

  // ---- Timeout and GrantVote: new votes --------------------------------------------------------

  /** What the votes of p have to respect. */
  ghost predicate VoterLogOk(x: Past, p: NodeId, n: Node) {
    LogOk(x.led, n) && AcksHeld(x, p, n) && (n.sound < |n.log| ==> Stale(x, p, n))
  }

  /** The last entry of a node bounds its acknowledgements, whether its log is sound or not. */
  lemma LastEntryBounds(x: Past, p: NodeId, n: Node, a: Ack, k: nat)
    requires PastOk(x) && VoterLogOk(x, p, n) && a.from == p && AckedOwn(x, a, k)
    ensures Bounds(x, VoteRequest(0, p, LastTerm(n.log), |n.log|), a, k, n.term + 1)
  {
    hide PastOk, SoftOk;
    if n.sound == |n.log| {
      assert Held(x, a, k, n);
      if Agree(x.led[a.term].log, n.log, k) {
        WholeLog(x, n);
        assert n.log[k - 1].term == a.term;
        assert LastTerm(n.log) >= a.term;
      }
    }
  }

  /** The voter compared logs: its acknowledgements are bounded by the candidate's last entry. */
  lemma ComparisonBounds(x: Past, p: NodeId, n: Node, r: VoteRequest, a: Ack, k: nat)
    requires PastOk(x) && VoterLogOk(x, p, n) && UpToDate(r.lastTerm, r.lastIndex, n.log)
    requires a.from == p && AckedOwn(x, a, k) && n.term < r.term + 1
    ensures Bounds(x, r, a, k, r.term + 1)
  {
    hide VoterLogOk, PastOk;
    LastEntryBounds(x, p, n, a, k);
    if Lost(x.led, a.term, k, n.term + 1) { LostLater(x.led, a.term, k, n.term + 1, r.term + 1); }
  }

  /** Adding a vote for r by a voter that is not yet past r's term. */
  lemma VoteKeepsVotersRespected(h: History, h': History, p: NodeId, n: Node, r: VoteRequest)
    requires PastOk(h.past) && VotersRespected(h) && VotesOk(h')
    requires VoterLogOk(h.past, p, n) && CandidateOk(h, p, n)
    requires h'.past == h.past && h'.votes == h.votes + {Vote(r.term, p, r.candidate)}
    requires h'.requests == h.requests + {r} && (r in h.requests || (r.candidate == p && r.term > n.term))
    requires UpToDate(r.lastTerm, r.lastIndex, n.log) && n.term <= r.term
    ensures VotersRespected(h')
  {
    hide VoterLogOk, PastOk, Stale;
    forall v, q, a, k: nat | v in h'.votes && q in h'.requests && AckedOwn(h'.past, a, k)
      && v.voter == a.from && a.term < v.term && q.term == v.term && q.candidate == v.candidate
      ensures Bounds(h'.past, q, a, k, v.term + 1)
    {
      if v !in h.votes {
        assert q == r;
        ComparisonBounds(h.past, p, n, r, a, k);
      }
    }
  }

  lemma TimeoutVotesOk(h: History, h': History, p: NodeId, n: Node)
    requires VotesOk(h) && VoterOk(h, p, n) && CandidateOk(h, p, n) && p in h.past.members
    requires h' == h.(requests := h.requests + {VoteRequest(n.term + 1, p, LastTerm(n.log), |n.log|)},
                      votes := h.votes + {Vote(n.term + 1, p, p)})
    ensures VotesOk(h')
  {
    hide LastTerm;
  }

  lemma TimeoutOk(h: History, h': History, p: NodeId, n: Node)
    requires HistoryOk(h) && NodeOk(h, p, n) && p in h.past.members
    requires h' == h.(requests := h.requests + {VoteRequest(n.term + 1, p, LastTerm(n.log), |n.log|)},
                      votes := h.votes + {Vote(n.term + 1, p, p)})
    ensures HistoryOk(h')
  {
    hide PastOk, Stale, Covered;
    TimeoutVotesOk(h, h', p, n);
    VoteKeepsVotersRespected(h, h', p, n, VoteRequest(n.term + 1, p, LastTerm(n.log), |n.log|));
  }

  lemma TimeoutNodeOk(h: History, h': History, p: NodeId, n: Node)
    requires NodeOk(h, p, n) && h'.past == h.past
    requires h'.requests == h.requests + {VoteRequest(n.term + 1, p, LastTerm(n.log), |n.log|)}
    requires h'.votes == h.votes + {Vote(n.term + 1, p, p)}
    ensures NodeOk(h', p, n.(term := n.term + 1, vote := Some(p), role := Candidate, granted := {p}))
  {
    hide Stale, Covered, AcksHeld;
    var n' := n.(term := n.term + 1, vote := Some(p), role := Candidate, granted := {p});
    CoveredPart(h.past, n.log, n.commit, n.term, n.log, n.commit, n.term + 1);
    AcksHeldLater(h.past, p, n, n');
    if n.sound < |n.log| { StaleLater(h.past, p, n, n'); }
  }

  lemma GrantVoteOk(h: History, h': History, p: NodeId, n: Node, r: VoteRequest)
    requires HistoryOk(h) && NodeOk(h, p, n) && p in h.past.members && r in h.requests && r.term == n.term
    requires (n.vote == None || n.vote == Some(r.candidate)) && UpToDate(r.lastTerm, r.lastIndex, n.log)
    requires h' == h.(votes := h.votes + {Vote(n.term, p, r.candidate)})
    ensures HistoryOk(h')
  {
    hide PastOk, AppendOk, LeaderOk, Covered;
    assert VotesOk(h') by { assert VotesOk(h) && VoterOk(h, p, n); }
    assert h'.requests == h.requests + {r};
    VoteKeepsVotersRespected(h, h', p, n, r);
  }

  lemma GrantNodeOk(h: History, h': History, p: NodeId, n: Node, c: NodeId)
    requires NodeOk(h, p, n) && h' == h.(votes := h.votes + {Vote(n.term, p, c)})
    requires n.vote == None || n.vote == Some(c)
    ensures NodeOk(h', p, n.(vote := Some(c)))
  {
    AcksHeldLater(h.past, p, n, n.(vote := Some(c)));
    if n.sound < |n.log| { StaleLater(h.past, p, n, n.(vote := Some(c))); }
  }

  // ---- Acknowledge, Propose and BecomeLeader: a longer past ------------------------------------

  lemma RootedForGood(led: map<nat, Reign>, led': map<nat, Reign>, log: Log)
    requires LedExtends(led, led') && Rooted(led, log)
    ensures Rooted(led', log)
  {
    forall i | 0 <= i < |log|
      ensures log[i].term in led' && Agree(log, led'[log[i].term].log, i + 1)
    {
      assert Agree(log, led[log[i].term].log, i + 1);
    }
  }

  lemma AckedOwnBefore(x: Past, x': Past, a: Ack, k: nat)
    requires PastExtends(x, x') && a in x.acks && AckOk(x, a) && AckedOwn(x', a, k)
    ensures AckedOwn(x, a, k)
  {
  }

  lemma HeldForGood(x: Past, x': Past, a: Ack, k: nat, n: Node)
    requires PastExtends(x, x') && a in x.acks && AckOk(x, a) && k <= a.len && ReignOk(x, a.term) && Held(x, a, k, n)
    ensures Held(x', a, k, n)
  {
    if Lost(x.led, a.term, k, n.term + 1) { LostForGood(x.led, x'.led, a.term, k, n.term + 1); }
  }

  /** A node that acknowledged nothing new and kept its log holds its acks. */
  lemma AcksHeldForGood(x: Past, x': Past, q: NodeId, n: Node)
    requires PastOk(x) && PastExtends(x, x') && AcksHeld(x, q, n)
    requires forall a | a in x'.acks && a !in x.acks :: a.from != q
    ensures AcksHeld(x', q, n)
  {
    hide Covered;
    forall a, k: nat | Acked(x', a, k) && a.from == q
      ensures Held(x', a, k, n)
    {
      assert a in x.acks && AckOk(x, a);
      assert Acked(x, a, k) && ReignOk(x, a.term) && Held(x, a, k, n);
      HeldForGood(x, x', a, k, n);
    }
  }

  lemma SoftForGood(x: Past, x': Past, a: Ack)
    requires PastExtends(x, x') && SoftOk(x, a)
    ensures SoftOk(x', a)
  {
    CoveredForGood(x, x', x.led[a.term].log, a.len, a.term);
    CoveredPart(x', x.led[a.term].log, a.len, a.term, x'.led[a.term].log, a.len, a.term);
  }

  /** A node that acknowledged nothing new keeps respecting what it acknowledged. */
  lemma StaleForGood(x: Past, x': Past, q: NodeId, n: Node)
    requires PastOk(x) && PastExtends(x, x') && Stale(x, q, n)
    requires forall a | a in x'.acks && a !in x.acks :: a.from != q
    ensures Stale(x', q, n)
  {
    var was :| LeftFrom(x.led, n, was);
    RootedForGood(x.led, x'.led, was);
    assert LeftFrom(x'.led, n, was);
    var u: nat, k: nat :| Outdated(x, n, u, k);
    ChosenForGood(x, x', u, k);
    assert Outdated(x', n, u, k);
    forall a, k: nat | AckedOwn(x', a, k) && a.from == q
      ensures Bounds(x', VoteRequest(0, q, LastTerm(n.log), |n.log|), a, k, n.term + 1)
    {
      assert AckOk(x, a) && ReignOk(x, a.term);
      AckedOwnBefore(x, x', a, k);
      assert Bounds(x, VoteRequest(0, q, LastTerm(n.log), |n.log|), a, k, n.term + 1);
      if Lost(x.led, a.term, k, n.term + 1) { LostForGood(x.led, x'.led, a.term, k, n.term + 1); }
    }
  }

  lemma AppendForGood(x: Past, x': Past, m: Append)
    requires PastExtends(x, x') && AppendOk(x, m)
    ensures AppendOk(x', m)
  {
    CoveredForGood(x, x', m.prefix, Min(m.commit, |m.prefix|), m.term);
  }

  lemma RespectForGood(x: Past, x': Past, t: nat, a: Ack, k: nat)
    requires PastOk(x) && PastExtends(x, x')
    requires t in x.led && a in x.acks && AckedOwn(x', a, k) && a.from in x.led[t].electors && a.term < t
    ensures Agree(x'.Led(a.term), x'.Led(t), k) || Lost(x'.led, a.term, k, t)
  {
    assert AckOk(x, a) && ReignOk(x, a.term);
    AckedOwnBefore(x, x', a, k);
    if Lost(x.led, a.term, k, t) { LostForGood(x.led, x'.led, a.term, k, t); }
  }

  lemma BoundsForGood(h: History, x': Past, v: Vote, r: VoteRequest, a: Ack, k: nat)
    requires PastOk(h.past) && VotersRespected(h) && PastExtends(h.past, x')
    requires v in h.votes && r in h.requests && a in h.past.acks && AckedOwn(x', a, k)
    requires v.voter == a.from && a.term < v.term && r.term == v.term && r.candidate == v.candidate
    ensures Bounds(x', r, a, k, v.term + 1)
  {
    hide SoftOk;
    var x := h.past;
    assert AckOk(x, a) && ReignOk(x, a.term);
    AckedOwnBefore(x, x', a, k);
    if Lost(x.led, a.term, k, v.term + 1) { LostForGood(x.led, x'.led, a.term, k, v.term + 1); }
  }

  /** The past may grow by acknowledgements from p in its current term and by p's own log. */
  ghost predicate Grown(h: History, x': Past, p: NodeId, n: Node) {
    && PastExtends(h.past, x') && x'.led.Keys == h.past.led.Keys
    && (forall t | t in x'.led :: ReignOk(x', t))
    && (forall a | a in x'.acks && a !in h.past.acks :: AckOk(x', a) && a.from == p && a.term == n.term)
    && (forall a | a in x'.soft && a !in h.past.soft :: SoftOk(x', a))
    && (forall t | t in x'.led && x'.led[t].leader != p :: x'.led[t].log == h.past.led[t].log)
  }

  lemma GrownHistoryOk(h: History, x': Past, p: NodeId, n: Node)
    requires HistoryOk(h) && VoterOk(h, p, n) && Grown(h, x', p, n)
    ensures HistoryOk(h.(past := x'))
  {
    hide SoftOk, ReignOk;
    GrownPastOk(h, x', p, n);
    GrownVotersRespected(h, x', p, n);
    forall m | m in h.appends ensures AppendOk(x', m) { AppendForGood(h.past, x', m); }
    forall t | t in x'.led ensures ElectedBy(h.(past := x'), t) { assert ElectedBy(h, t); }
    assert VotesOk(h.(past := x')) by { assert VotesOk(h); }
  }

  lemma GrownPastOk(h: History, x': Past, p: NodeId, n: Node)
    requires HistoryOk(h) && VoterOk(h, p, n) && Grown(h, x', p, n)
    ensures PastOk(x')
  {
    var x := h.past;
    forall a | a in x'.acks ensures AckOk(x', a) { assert a in x.acks ==> AckOk(x, a); }
    forall a | a in x'.soft ensures SoftOk(x', a) { if a in x.soft { SoftForGood(x, x', a); } }
    forall t, a, k: nat | t in x'.led && AckedOwn(x', a, k) && a.from in x'.led[t].electors && a.term < t
      ensures Agree(x'.led[a.term].log, x'.led[t].log, k) || Lost(x'.led, a.term, k, t)
    {
      assert ElectedBy(h, t);
      assert Vote(t, a.from, x.led[t].leader) in h.votes;
      RespectForGood(x, x', t, a, k);
    }
  }

  lemma GrownVotersRespected(h: History, x': Past, p: NodeId, n: Node)
    requires HistoryOk(h) && VoterOk(h, p, n) && Grown(h, x', p, n)
    ensures VotersRespected(h.(past := x'))
  {
    hide PastOk, AppendOk, ReignOk, VotesOk;
    forall v, r, a, k: nat | v in h.votes && r in h.requests && AckedOwn(x', a, k)
      && v.voter == a.from && a.term < v.term && r.term == v.term && r.candidate == v.candidate
      ensures Bounds(x', r, a, k, v.term + 1)
    {
      BoundsForGood(h, x', v, r, a, k);
    }
  }

  lemma AcknowledgeGrows(h: History, x': Past, p: NodeId, n: Node, m: Append)
    requires HistoryOk(h) && p in h.past.members && m in h.appends && m.term == n.term
    requires x' == h.past.(acks := h.past.acks + {Ack(n.term, p, |m.prefix|)})
    ensures Grown(h, x', p, n)
  {
    hide SoftOk;
    assert AppendOk(h.past, m);
    forall t | t in x'.led ensures ReignOk(x', t) { assert ReignOk(h.past, t); }
  }

  lemma AcknowledgeNodeOk(h: History, h': History, p: NodeId, n: Node, m: Append)
    requires HistoryOk(h) && NodeOk(h, p, n) && Received(h, p, n, m) && Includes(n.log, m.prefix)
    requires n.sound == |n.log|
    requires h' == h.(past := h.past.(acks := h.past.acks + {Ack(n.term, p, |m.prefix|)}))
    ensures NodeOk(h', p, n)
  {
    hide PastOk, VotesOk, VotersRespected, ElectedBy, Chosen, Stale, CoveredBy;
    var x, x', root := h.past, h'.past, h.past.led[m.term].log;
    assert AppendOk(x, m);
    CoveredForGood(x, x', n.log, n.commit, n.term);
    forall a, k: nat | Acked(x', a, k) && a.from == p
      ensures Held(x', a, k, n)
    {
      if a in x.acks {
        assert Acked(x, a, k) && Held(x, a, k, n);
      } else {
        assert Agree(root, n.log, k);
      }
    }
  }

  // A node with unsound entries.

  /** A leader of the node's term or later has no entry in common with the unsound part. */
  lemma NeverMatches(x: Past, p: NodeId, n: Node, m: Log, t: nat, i: nat)
    requires PastOk(x) && LogOk(x.led, n) && Stale(x, p, n) && t in x.led && n.term <= t && Includes(x.Led(t), m)
    requires n.sound < i <= |n.log| && i <= |m|
    ensures TermAt(m, i) != TermAt(n.log, i)
  {
    hide SoftOk;
    var was :| LeftFrom(x.led, n, was);
    var u: nat, k: nat :| Outdated(x, n, u, k);
    LeaderCompleteness(x, u, k, t);
    assert m[n.sound - 1] == n.log[n.sound - 1];
    assert ReignOk(x, t);
    RootedPrefix(x.led, x.led[t].log, m);
    if TermAt(m, i) == TermAt(n.log, i) { LogMatching(x.led, m, was, i); }
  }

  /** So what it acknowledges is in its sound part, and committed. */
  lemma SoftAck(h: History, p: NodeId, n: Node, m: Append)
    requires HistoryOk(h) && NodeOk(h, p, n) && m in h.appends && m.term == n.term && Includes(n.log, m.prefix)
    requires n.sound < |n.log| && p in h.past.members
    ensures |m.prefix| <= n.sound && SoftOk(h.past, Ack(n.term, p, |m.prefix|))
  {
    hide VotesOk, VotersRespected, ElectedBy, AcksHeld, PastOk, CoveredBy;
    var x, root := h.past, h.past.led[m.term].log;
    assert AppendOk(x, m);
    if |m.prefix| > n.sound { NeverMatches(x, p, n, m.prefix, m.term, |m.prefix|); }
    var u: nat, k: nat :| Outdated(x, n, u, k);
    assert Covered(x, n.log, n.sound, n.term);
    CoveredPart(x, n.log, n.sound, n.term, root, |m.prefix|, n.term);
  }

  lemma SoftGrows(h: History, x': Past, p: NodeId, n: Node, a: Ack)
    requires HistoryOk(h) && SoftOk(h.past, a) && x' == h.past.(soft := h.past.soft + {a})
    ensures Grown(h, x', p, n)
  {
    hide Covered, ElectorsRespected, SoftOk;
    forall t | t in x'.led ensures ReignOk(x', t) { assert ReignOk(h.past, t); }
    SoftForGood(h.past, x', a);
  }

  lemma SoftNodeOk(h: History, h': History, p: NodeId, n: Node)
    requires HistoryOk(h) && NodeOk(h, p, n) && h' == h.(past := h'.past) && PastExtends(h.past, h'.past)
    requires h'.past == h.past.(soft := h'.past.soft)
    ensures NodeOk(h', p, n)
  {
    hide VotesOk, VotersRespected, ElectedBy, ElectorsRespected, AppendOk, Covered, Stale, PastOk, SoftOk, CoveredBy,
         AcksHeld;
    CoveredForGood(h.past, h'.past, n.log, n.commit, n.term);
    AcksHeldForGood(h.past, h'.past, p, n);
    if n.sound < |n.log| { StaleForGood(h.past, h'.past, p, n); }
  }

  ghost function Appended(n: Node, c: Command): Log { n.log + [LogEntry(n.term, |n.log| + 1, c)] }

  lemma ProposeGrows(h: History, x': Past, p: NodeId, n: Node, c: Command)
    requires HistoryOk(h) && LogOk(h.past.led, n) && LeaderOk(h.past, p, n) && n.role == Leader && p in h.past.members
    requires n.sound == |n.log|
    requires x' == h.past.(led := h.past.led[n.term := h.past.led[n.term].(log := Appended(n, c))],
                           acks := h.past.acks + {Ack(n.term, p, |n.log| + 1)})
    ensures Grown(h, x', p, n)
  {
    hide VotersRespected, VotesOk, AppendOk, ElectorsRespected, ReignOk, LedExtends, Rooted, SoftOk;
    assert n.log[..n.sound] == n.log;
    ProposeLedExtends(h.past.led, x'.led, n, c);
    ProposeReignsOk(h.past, x', n, c);
  }

  lemma ProposeLedExtends(led: map<nat, Reign>, led': map<nat, Reign>, n: Node, c: Command)
    requires n.term in led && led[n.term].log == n.log && led' == led[n.term := led[n.term].(log := Appended(n, c))]
    ensures LedExtends(led, led') && led'.Keys == led.Keys
  {
  }

  lemma ProposeReignsOk(x: Past, x': Past, n: Node, c: Command)
    requires PastOk(x) && Rooted(x.led, n.log) && n.term in x.led && x.Led(n.term) == n.log
    requires x'.members == x.members && x'.led == x.led[n.term := x.led[n.term].(log := Appended(n, c))]
    requires LedExtends(x.led, x'.led)
    ensures forall t | t in x'.led :: ReignOk(x', t)
  {
    hide SoftOk, ElectorsRespected, LedExtends;
    forall t | t in x'.led ensures ReignOk(x', t) {
      assert ReignOk(x, t);
      if t == n.term {
        RootedForGood(x.led, x'.led, n.log);
        AppendedRooted(x'.led, n, c);
        AppendedOrdered(n, c);
      } else {
        RootedForGood(x.led, x'.led, x.led[t].log);
      }
    }
  }

  lemma AppendedOrdered(n: Node, c: Command)
    requires Ordered(n.term, n.log) && n.term >= 1
    ensures Ordered(n.term, Appended(n, c))
  {
  }

  lemma AppendedRooted(led: map<nat, Reign>, n: Node, c: Command)
    requires Rooted(led, n.log) && n.term in led && led[n.term].log == Appended(n, c)
    ensures Rooted(led, Appended(n, c))
  {
    var log := Appended(n, c);
    forall i | 0 <= i < |log|
      ensures log[i].term in led && Agree(log, led[log[i].term].log, i + 1)
    {
      if i < |n.log| { assert Agree(n.log, led[n.log[i].term].log, i + 1); }
    }
  }

  lemma ProposeNodeOk(h: History, x': Past, p: NodeId, n: Node, c: Command)
    requires HistoryOk(h) && NodeOk(h, p, n) && n.role == Leader && Grown(h, x', p, n)
    requires n.term in h.past.led
    requires x' == h.past.(led := h.past.led[n.term := h.past.led[n.term].(log := Appended(n, c))],
                           acks := h.past.acks + {Ack(n.term, p, |n.log| + 1)})
    ensures NodeOk(h.(past := x'), p, n.(log := Appended(n, c), sound := |n.log| + 1))
  {
    hide Stale, VotesOk, VotersRespected, ElectedBy, AppendOk, SoftOk, ElectorsRespected, Rooted, Covered, AcksHeld,
         ReignOk, AckOk, Outdated;
    var x, n' := h.past, n.(log := Appended(n, c), sound := |n.log| + 1);
    LeaderIsWhole(h, p, n);
    assert n.log[..n.sound] == n.log && n'.log[..n'.sound] == n'.log;
    assert Includes(n'.log, n.log);
    RootedForGood(x.led, x'.led, n.log);
    AppendedRooted(x'.led, n, c);
    CoveredForGood(x, x', n.log, n.commit, n.term);
    CoveredPart(x', n.log, n.commit, n.term, n'.log, n.commit, n.term);
    ProposeKeepsAcks(x, x', p, n, n');
    assert LeaderOk(x', p, n') by { assert LeaderOk(x, p, n); }
  }

  lemma ProposeKeepsAcks(x: Past, x': Past, p: NodeId, n: Node, n': Node)
    requires PastOk(x) && PastExtends(x, x') && AcksHeld(x, p, n) && n'.term == n.term && Includes(n'.log, n.log)
    requires n.term in x'.led && x'.Led(n.term) == n'.log
    requires forall a | a in x'.acks && a !in x.acks :: a.term == n.term && a.len <= |n'.log|
    ensures AcksHeld(x', p, n')
  {
    hide SoftOk, ReignOk, PastExtends;
    forall a, k: nat | Acked(x', a, k) && a.from == p
      ensures Held(x', a, k, n')
    {
      if a in x.acks {
        assert AckOk(x, a) && ReignOk(x, a.term);
        assert Acked(x, a, k) && Held(x, a, k, n);
        HeldForGood(x, x', a, k, n);
      }
    }
  }

  lemma LeaderIsWhole(h: History, p: NodeId, n: Node)
    requires NodeOk(h, p, n) && n.role == Leader
    ensures n.sound == |n.log|
  {
  }

  // BecomeLeader: a new reign.

  /** A candidate with unsound entries never wins: the majority behind its committed part refuses it. */
  lemma WinnerIsWhole(h: History, p: NodeId, n: Node)
    requires HistoryOk(h) && NodeOk(h, p, n) && n.role == Candidate && Quorum(h.past.members, n.granted)
    ensures n.sound == |n.log|
  {
    hide PastOk, Covered;
    if n.sound < |n.log| {
      var x, r := h.past, VoteRequest(n.term, p, LastTerm(n.log), |n.log|);
      var u: nat, k: nat :| Outdated(x, n, u, k);
      var q :| Backed(x, u, k, q);
      var v := QuorumsMeet(x.members, q, n.granted);
      assert AckedBy(x, u, v, k);
      var a :| a in x.acks && a.term == u && a.from == v && a.len >= k;
      assert AckedOwn(x, a, k) && Vote(n.term, v, p) in h.votes && r in h.requests;
      assert Bounds(x, r, a, k, n.term + 1);
      var w: nat :| u < w < n.term + 1 && w in x.led && !Agree(x.led[u].log, x.led[w].log, k);
      LeaderCompleteness(x, u, k, w);
      assert false;
    }
  }

  /** A candidate whose granted votes are a majority is the first leader of its term. */
  lemma NoEarlierLeader(h: History, p: NodeId, n: Node)
    requires HistoryOk(h) && CandidateOk(h, p, n) && LeaderOk(h.past, p, n)
    requires n.role == Candidate && Quorum(h.past.members, n.granted)
    ensures n.term !in h.past.led
  {
    hide AppendOk;
    var t, x := n.term, h.past;
    if t in x.led {
      assert ReignOk(x, t) && ElectedBy(h, t);
      var q := QuorumsMeet(x.members, n.granted, x.led[t].electors);
      assert false;
    }
  }

  /** What the electors acknowledged is in the winner's log, unless an earlier leader lost it. */
  lemma WinnerRespectsElectors(h: History, p: NodeId, n: Node, a: Ack, k: nat)
    requires HistoryOk(h) && LogOk(h.past.led, n) && CandidateOk(h, p, n) && n.sound == |n.log|
    requires n.role == Candidate && n.term !in h.past.led
    requires AckedOwn(h.past, a, k) && a.from in n.granted && a.term < n.term
    ensures Agree(h.past.Led(a.term), n.log, k) || Lost(h.past.led, a.term, k, n.term)
  {
    hide VotesOk;
    var x, r := h.past, VoteRequest(n.term, p, LastTerm(n.log), |n.log|);
    assert Vote(n.term, a.from, p) in h.votes && r in h.requests;
    assert Bounds(x, r, a, k, n.term + 1);
    if Lost(x.led, a.term, k, n.term + 1) {
      var u: nat :| a.term < u < n.term + 1 && u in x.led && !Agree(x.led[a.term].log, x.led[u].log, k);
      assert u < n.term;
    } else {
      assert ReignOk(x, a.term);
      var last := LastTerm(n.log);
      WholeLog(x, n);
      assert last in x.led && Includes(x.led[last].log, n.log) && ReignOk(x, last);
      if last != a.term && Agree(x.led[a.term].log, x.led[last].log, k) {
        assert x.led[last].log[k - 1].term == a.term && x.led[last].log[|n.log| - 1].term == last;
        assert k <= |n.log|;
      }
    }
  }

  lemma LeadPastOk(h: History, x': Past, p: NodeId, n: Node)
    requires HistoryOk(h) && LogOk(h.past.led, n) && CandidateOk(h, p, n) && n.sound == |n.log|
    requires n.role == Candidate && Quorum(h.past.members, n.granted) && n.term !in h.past.led && p in h.past.members
    requires x' == h.past.(led := h.past.led[n.term := Reign(p, n.log, n.granted)])
    ensures PastExtends(h.past, x') && PastOk(x')
  {
    var x := h.past;
    WholeLog(x, n);
    RootedForGood(x.led, x'.led, n.log);
    forall t | t in x'.led ensures ReignOk(x', t) {
      if t != n.term {
        assert ReignOk(x, t);
        RootedForGood(x.led, x'.led, x.led[t].log);
      }
    }
    forall a | a in x'.acks ensures AckOk(x', a) { assert AckOk(x, a); }
    forall a | a in x'.soft ensures SoftOk(x', a) { SoftForGood(x, x', a); }
    LeadElectorsRespected(h, x', p, n);
  }

  lemma LeadElectorsRespected(h: History, x': Past, p: NodeId, n: Node)
    requires HistoryOk(h) && LogOk(h.past.led, n) && CandidateOk(h, p, n) && n.sound == |n.log|
    requires n.role == Candidate && n.term !in h.past.led
    requires x' == h.past.(led := h.past.led[n.term := Reign(p, n.log, n.granted)]) && PastExtends(h.past, x')
    ensures ElectorsRespected(x')
  {
    hide AppendOk;
    var x := h.past;
    forall t, a, k: nat | t in x'.led && AckedOwn(x', a, k) && a.from in x'.led[t].electors && a.term < t
      ensures Agree(x'.led[a.term].log, x'.led[t].log, k) || Lost(x'.led, a.term, k, t)
    {
      assert AckOk(x, a) && ReignOk(x, a.term);
      AckedOwnBefore(x, x', a, k);
      if t == n.term {
        WinnerRespectsElectors(h, p, n, a, k);
        if Lost(x.led, a.term, k, t) { LostForGood(x.led, x'.led, a.term, k, t); }
      } else {
        RespectForGood(x, x', t, a, k);
      }
    }
  }

  lemma LeadHistoryOk(h: History, h': History, p: NodeId, n: Node)
    requires HistoryOk(h) && NodeOk(h, p, n) && p in h.past.members
    requires n.role == Candidate && Quorum(h.past.members, n.granted)
    requires h' == h.(past := h.past.(led := h.past.led[n.term := Reign(p, n.log, n.granted)]))
    ensures Extends(h, h') && HistoryOk(h')
  {
    var x, x' := h.past, h'.past;
    NoEarlierLeader(h, p, n);
    WinnerIsWhole(h, p, n);
    LeadPastOk(h, x', p, n);
    forall m | m in h.appends ensures AppendOk(x', m) { AppendForGood(x, x', m); }
    LeadVotersRespected(h, h');
    forall t | t in x'.led ensures ElectedBy(h', t) {
      if t != n.term { assert ElectedBy(h, t); }
    }
    assert VotesOk(h') by { assert VotesOk(h); }
  }

  lemma LeadVotersRespected(h: History, h': History)
    requires PastOk(h.past) && VotersRespected(h) && PastExtends(h.past, h'.past) && h'.past.acks == h.past.acks
    requires h' == h.(past := h'.past)
    ensures VotersRespected(h')
  {
    hide PastOk;
    forall v, r, a, k: nat | v in h.votes && r in h.requests && AckedOwn(h'.past, a, k)
      && v.voter == a.from && a.term < v.term && r.term == v.term && r.candidate == v.candidate
      ensures Bounds(h'.past, r, a, k, v.term + 1)
    {
      BoundsForGood(h, h'.past, v, r, a, k);
    }
  }

  lemma LeadNodeOk(h: History, h': History, p: NodeId, n: Node)
    requires HistoryOk(h) && NodeOk(h, p, n) && n.role == Candidate && n.term !in h.past.led && n.sound == |n.log|
    requires h' == h.(past := h.past.(led := h.past.led[n.term := Reign(p, n.log, n.granted)]))
    requires Extends(h, h')
    ensures NodeOk(h', p, n.(role := Leader, matched := map[]))
  {
    hide VotesOk, VotersRespected, ElectedBy, AppendOk, Covered, AcksHeld, Rooted, ElectorsRespected, SoftOk, Stale,
         PastOk;
    var x, x', n' := h.past, h'.past, n.(role := Leader, matched := map[]);
    assert n.log[..n.sound] == n.log;
    RootedForGood(x.led, x'.led, n.log);
    CoveredForGood(x, x', n.log, n.commit, n.term);
    AcksHeldForGood(x, x', p, n);
    AcksHeldLater(x', p, n, n');
    assert CandidateOk(h', p, n') && VoterOk(h', p, n');
    NotYetLed(x.led, n);
    assert LeaderOk(x', p, n') by { assert LeaderOk(x, p, n); }
  }

  lemma NotYetLed(led: map<nat, Reign>, n: Node)
    requires Rooted(led, n.log) && n.term !in led && n.term >= 1
    ensures LastTerm(n.log) != n.term
  {
  }

  // ---- All together ----------------------------------------------------------------------------

  /** Nothing new in the history is about node q. */
  ghost predicate Unconcerned(h: History, h': History, q: NodeId, n: Node) {
    && (forall v | v in h'.votes && v !in h.votes :: v.voter != q && (v.candidate == q ==> v.term <= n.term))
    && (forall r | r in h'.requests && r !in h.requests :: r.candidate != q)
    && (forall a | a in h'.past.acks && a !in h.past.acks :: a.from != q)
    && (forall t | t in h'.past.led && h'.past.led[t].leader == q ::
      t in h.past.led && h'.past.led[t].log == h.past.led[t].log)
  }

  lemma BystanderOk(h: History, h': History, q: NodeId, n: Node)
    requires PastOk(h.past) && Extends(h, h') && NodeOk(h, q, n) && Unconcerned(h, h', q, n)
    ensures NodeOk(h', q, n)
  {
    hide Stale, Covered, AcksHeld, ElectorsRespected, SoftOk, PastOk, Outdated, Next;
    RootedForGood(h.past.led, h'.past.led, n.log[..n.sound]);
    CoveredForGood(h.past, h'.past, n.log, n.commit, n.term);
    AcksHeldForGood(h.past, h'.past, q, n);
    if n.sound < |n.log| { StaleForGood(h.past, h'.past, q, n); }
  }

  lemma OthersOk(s: State, p: NodeId, h: History)
    requires PastOk(s.h.past) && Extends(s.h, h)
    requires forall q | q in s.nodes && q != p :: NodeOk(s.h, q, s.At(q))
    requires forall q | q in s.nodes && q != p :: Unconcerned(s.h, h, q, s.At(q))
    ensures forall q | q in s.nodes && q != p :: NodeOk(h, q, s.At(q))
  {
    hide Next, NodeOk, PastOk;
    forall q | q in s.nodes && q != p ensures NodeOk(h, q, s.nodes[q]) {
      assert NodeOk(s.h, q, s.nodes[q]) && Unconcerned(s.h, h, q, s.nodes[q]);
      BystanderOk(s.h, h, q, s.nodes[q]);
    }
  }

  ghost predicate Kept(s: State, s': State) { Inv(s') && Extends(s.h, s'.h) }

  lemma QuietKept(s: State, p: NodeId, n: Node)
    requires Inv(s) && p in s.nodes && NodeOk(s.h, p, n)
    ensures Kept(s, State(s.nodes[p := n], s.h))
  {
    hide HistoryOk, NodeOk;
  }

  /** Putting the acting node, the history and the bystanders back together. */
  lemma Assemble(s: State, p: NodeId, n: Node, h: History)
    requires Inv(s) && p in s.nodes && Extends(s.h, h) && HistoryOk(h) && NodeOk(h, p, n)
    requires forall q | q in s.nodes && q != p :: NodeOk(h, q, s.At(q))
    ensures Kept(s, State(s.nodes[p := n], h))
  {
    hide HistoryOk, NodeOk;
  }

  lemma TimeoutKept(s: State, p: NodeId)
    requires Inv(s) && Enabled(s, Timeout(p))
    ensures Kept(s, Do(s, Timeout(p)))
  {
    hide HistoryOk, NodeOk, PastOk, Kept, Stale;
    var h', n := HistoryAfter(s, Timeout(p)), s.nodes[p];
    TimeoutOk(s.h, h', p, n);
    TimeoutNodeOk(s.h, h', p, n);
    InvPast(s);
    OthersOk(s, p, h');
    Assemble(s, p, NodeAfter(s, Timeout(p)), h');
  }

  lemma InvPast(s: State)
    requires Inv(s)
    ensures PastOk(s.h.past)
  {
    hide NodeOk;
  }

  lemma GrantKept(s: State, p: NodeId, r: VoteRequest)
    requires Inv(s) && Enabled(s, GrantVote(p, r))
    ensures Kept(s, Do(s, GrantVote(p, r)))
  {
    hide HistoryOk, NodeOk, PastOk, Kept, Stale;
    var h', n := HistoryAfter(s, GrantVote(p, r)), s.nodes[p];
    RequestsFromThePast(s, r);
    GrantVoteOk(s.h, h', p, n, r);
    GrantNodeOk(s.h, h', p, n, r.candidate);
    InvPast(s);
    OthersOk(s, p, h');
    Assemble(s, p, NodeAfter(s, GrantVote(p, r)), h');
  }

  lemma RequestsFromThePast(s: State, r: VoteRequest)
    requires Inv(s) && r in s.h.requests
    ensures r.candidate in s.nodes && r.term <= s.At(r.candidate).term
  {
    hide PastOk, Stale;
    assert VotesOk(s.h);
    assert NodeOk(s.h, r.candidate, s.nodes[r.candidate]);
  }

  lemma SendKept(s: State, p: NodeId, prev: nat, upTo: nat, c: nat)
    requires Inv(s) && Enabled(s, SendAppend(p, prev, upTo, c))
    ensures Kept(s, Do(s, SendAppend(p, prev, upTo, c)))
  {
    hide HistoryOk, NodeOk, PastOk, AppendOk, Kept, Stale;
    var h', n := HistoryAfter(s, SendAppend(p, prev, upTo, c)), s.nodes[p];
    SentAppendOk(s.h, p, n, prev, upTo, c);
    SendHistoryOk(s.h, h');
    InvPast(s);
    OthersOk(s, p, h');
    NodeOkForMoreAppends(s.h, h', p, n);
    Assemble(s, p, n, h');
  }

  lemma SentAppendOk(h: History, p: NodeId, n: Node, prev: nat, upTo: nat, c: nat)
    requires NodeOk(h, p, n) && n.role == Leader && prev <= upTo <= |n.log| && c <= n.commit
    ensures AppendOk(h.past, Append(n.term, p, prev, n.log[..upTo], c))
  {
    hide Stale, Covered, CandidateOk, LogOk;
    CoveredPart(h.past, n.log, n.commit, n.term, n.log[..upTo], Min(c, upTo), n.term);
  }

  lemma NodeOkForMoreAppends(h: History, h': History, p: NodeId, n: Node)
    requires NodeOk(h, p, n) && h' == h.(appends := h'.appends)
    ensures NodeOk(h', p, n)
  {
    hide Stale, Covered;
  }

  lemma SendHistoryOk(h: History, h': History)
    requires HistoryOk(h) && h' == h.(appends := h'.appends)
    requires forall m | m in h'.appends && m !in h.appends :: AppendOk(h.past, m)
    ensures HistoryOk(h')
  {
    hide AppendOk, PastOk;
    forall t | t in h'.past.led ensures ElectedBy(h', t) { assert ElectedBy(h, t); }
    assert VotesOk(h') by { assert VotesOk(h); }
    assert VotersRespected(h') by { assert VotersRespected(h); }
  }

  lemma AcknowledgeKept(s: State, p: NodeId, m: Append)
    requires Inv(s) && Enabled(s, Acknowledge(p, m)) && s.At(p).sound == |s.At(p).log|
    ensures Kept(s, Do(s, Acknowledge(p, m)))
  {
    hide HistoryOk, NodeOk, PastOk, VoterOk, Next, Kept;
    var h', n := HistoryAfter(s, Acknowledge(p, m)), s.nodes[p];
    AcknowledgeGrows(s.h, h'.past, p, n, m);
    NodeVoter(s.h, p, n);
    GrownHistoryOk(s.h, h'.past, p, n);
    AcknowledgeNodeOk(s.h, h', p, n, m);
    InvPast(s);
    OthersOk(s, p, h');
    Assemble(s, p, n, h');
  }

  lemma SoftAcknowledgeKept(s: State, p: NodeId, m: Append)
    requires Inv(s) && Enabled(s, Acknowledge(p, m)) && s.At(p).sound < |s.At(p).log|
    ensures Kept(s, Do(s, Acknowledge(p, m)))
  {
    hide HistoryOk, NodeOk, PastOk, VoterOk, SoftOk, Next, Kept;
    var h', n := HistoryAfter(s, Acknowledge(p, m)), s.nodes[p];
    SoftAck(s.h, p, n, m);
    SoftGrows(s.h, h'.past, p, n, Ack(n.term, p, |m.prefix|));
    NodeVoter(s.h, p, n);
    GrownHistoryOk(s.h, h'.past, p, n);
    SoftNodeOk(s.h, h', p, n);
    InvPast(s);
    OthersOk(s, p, h');
    Assemble(s, p, n, h');
  }

  lemma NodeVoter(h: History, p: NodeId, n: Node)
    requires NodeOk(h, p, n)
    ensures VoterOk(h, p, n) && LogOk(h.past.led, n) && LeaderOk(h.past, p, n)
  {
  }

  lemma ProposeKept(s: State, p: NodeId, c: Command)
    requires Inv(s) && Enabled(s, Propose(p, c))
    ensures Kept(s, Do(s, Propose(p, c)))
  {
    hide HistoryOk, NodeOk, PastOk, VoterOk, LogOk, LeaderOk, Kept, Grown;
    var h', n := HistoryAfter(s, Propose(p, c)), s.nodes[p];
    NodeVoter(s.h, p, n);
    LeaderIsWhole(s.h, p, n);
    ProposeGrows(s.h, h'.past, p, n, c);
    GrownHistoryOk(s.h, h'.past, p, n);
    ProposeNodeOk(s.h, h'.past, p, n, c);
    InvPast(s);
    LeaderReigns(s.h.past, p, n);
    OthersOk(s, p, h');
    Assemble(s, p, NodeAfter(s, Propose(p, c)), h');
  }

  lemma LeaderReigns(x: Past, p: NodeId, n: Node)
    requires LeaderOk(x, p, n) && n.role == Leader
    ensures n.term in x.led && x.led[n.term].leader == p && x.Led(n.term) == n.log
  {
  }

  lemma LeadKept(s: State, p: NodeId)
    requires Inv(s) && Enabled(s, BecomeLeader(p))
    ensures Kept(s, Do(s, BecomeLeader(p)))
  {
    hide HistoryOk, NodeOk, PastOk, Kept, Stale;
    var h', n := HistoryAfter(s, BecomeLeader(p)), s.nodes[p];
    LeadHistoryOk(s.h, h', p, n);
    NodeFirstLeader(s.h, p, n);
    WinnerIsWhole(s.h, p, n);
    LeadNodeOk(s.h, h', p, n);
    InvPast(s);
    OthersOk(s, p, h');
    Assemble(s, p, NodeAfter(s, BecomeLeader(p)), h');
  }

  lemma NodeFirstLeader(h: History, p: NodeId, n: Node)
    requires HistoryOk(h) && NodeOk(h, p, n) && n.role == Candidate && Quorum(h.past.members, n.granted)
    ensures n.term !in h.past.led
  {
    hide HistoryOk;
    NoEarlierLeader(h, p, n);
  }

  lemma HarmlessKept(s: State, e: Event)
    requires Inv(s) && Enabled(s, e) && Harmless(s.h, e.p, s.At(e.p), NodeAfter(s, e)) && HistoryAfter(s, e) == s.h
    ensures Kept(s, Do(s, e))
  {
    hide HistoryOk, NodeOk, Next, Kept, NodeAfter, Harmless;
    HarmlessOk(s.h, e.p, s.nodes[e.p], NodeAfter(s, e));
    QuietKept(s, e.p, NodeAfter(s, e));
  }

  lemma LearnHarmless(h: History, p: NodeId, n: Node, m: Append)
    requires HistoryOk(h) && NodeOk(h, p, n) && m in h.appends && m.term == n.term && p in h.past.members
    requires Includes(n.log, m.prefix)
    ensures Harmless(h, p, n, n.(commit := Max(n.commit, Min(m.commit, |m.prefix|))))
  {
    hide PastOk, Stale, Covered;
    assert AppendOk(h.past, m);
    CoveredPart(h.past, m.prefix, Min(m.commit, |m.prefix|), m.term, n.log, Min(m.commit, |m.prefix|), n.term);
    if n.sound < |n.log| { SoftAck(h, p, n, m); }
  }

  lemma AdvanceHarmless(h: History, p: NodeId, n: Node, i: nat, q: set<NodeId>)
    requires HistoryOk(h) && NodeOk(h, p, n) && n.role == Leader
    requires 0 < i <= |n.log| && TermAt(n.log, i) == n.term && Quorum(h.past.members, q)
    requires forall v | v in q && v != p :: v in n.matched && n.matched[v] >= i
    ensures Harmless(h, p, n, n.(commit := i))
  {
    hide PastOk, CoveredBy;
    AdvanceCovered(h.past, p, n, i, q);
  }

  lemma RestartHarmless(h: History, p: NodeId, n: Node, c: nat)
    requires NodeOk(h, p, n) && c <= n.commit
    ensures Harmless(h, p, n, n.(role := Follower, commit := c, granted := {}, matched := map[]))
  {
    hide CoveredBy;
    CoveredPart(h.past, n.log, n.commit, n.term, n.log, c, n.term);
  }

  lemma TermHarmless(h: History, p: NodeId, n: Node, t: nat)
    requires NodeOk(h, p, n) && t > n.term
    ensures Harmless(h, p, n, n.(term := t, vote := None, role := Follower))
  {
    CoveredPart(h.past, n.log, n.commit, n.term, n.log, n.commit, t);
  }

  lemma RoleHarmless(s: State, e: Event)
    requires Enabled(s, e) && NodeOk(s.h, e.p, s.At(e.p)) && (e.StepDown? || e.CountVote? || e.CountAck?)
    ensures Harmless(s.h, e.p, s.At(e.p), NodeAfter(s, e))
  {
    hide Next, Stale;
  }

  lemma SoftOrWhole(s: State, p: NodeId)
    requires Inv(s) && p in s.nodes
    ensures s.At(p).sound <= |s.At(p).log|
  {
    hide HistoryOk;
    assert NodeOk(s.h, p, s.nodes[p]);
  }

  /** Every event keeps the invariant and only adds to the history. */
  lemma EventKept(s: State, e: Event)
    requires Inv(s) && Enabled(s, e)
    ensures Kept(s, Do(s, e))
  {
    hide HistoryOk, NodeOk, Kept, PastOk, Harmless;
    match e
    case Timeout(p) => TimeoutKept(s, p);
    case GrantVote(p, r) => GrantKept(s, p, r);
    case BecomeLeader(p) => LeadKept(s, p);
    case Propose(p, c) => ProposeKept(s, p, c);
    case SendAppend(p, prev, upTo, c) => SendKept(s, p, prev, upTo, c);
    case Acknowledge(p, m) =>
      if s.nodes[p].sound == |s.nodes[p].log| {
        AcknowledgeKept(s, p, m);
      } else {
        SoftOrWhole(s, p);
        SoftAcknowledgeKept(s, p, m);
      }
    case TornInstall(p, m) =>
      TornOk(s.h, p, s.nodes[p], m);
      QuietKept(s, p, NodeAfter(s, e));
    case WriteLog(p, m, len) =>
      WriteLogOk(s.h, p, s.nodes[p], m, len);
      QuietKept(s, p, NodeAfter(s, e));
    case ObserveTerm(p, t) =>
      TermHarmless(s.h, p, s.nodes[p], t);
      HarmlessKept(s, e);
    case StepDown(p) =>
      RoleHarmless(s, e);
      HarmlessKept(s, e);
    case CountVote(p, q) =>
      RoleHarmless(s, e);
      HarmlessKept(s, e);
    case CountAck(p, a) =>
      RoleHarmless(s, e);
      HarmlessKept(s, e);
    case LearnCommit(p, m) =>
      LearnHarmless(s.h, p, s.nodes[p], m);
      HarmlessKept(s, e);
    case AdvanceCommit(p, i, q) =>
      AdvanceHarmless(s.h, p, s.nodes[p], i, q);
      HarmlessKept(s, e);
    case Restart(p, c) =>
      RestartHarmless(s.h, p, s.nodes[p], c);
      HarmlessKept(s, e);
  }
}
