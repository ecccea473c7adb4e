/** The inductive invariant behind Raft's safety, one named conjunct per idea. */
module ProtocolInvariant {
  import opened Types
  import opened Logs
  import opened Protocol

  // ---- About the past --------------------------------------------------------------------------

  /** A leader's log: positions numbered from 1, terms nondecreasing and at most the leader's. */
  ghost predicate Ordered(t: nat, log: Log) {
    && (forall i | 0 <= i < |log| :: 1 <= log[i].term <= t && log[i].index == i + 1)
    && (forall i, j | 0 <= i < j < |log| :: log[i].term <= log[j].term)
  }

  /** Every prefix that ends in an entry of term t is a prefix of the log of the leader of t. */
  ghost predicate Rooted(led: map<nat, Reign>, log: Log) {
    forall i | 0 <= i < |log| :: log[i].term in led && Agree(log, led[log[i].term].log, i + 1)
  }

  ghost predicate ReignOk(x: Past, t: nat) {
    t in x.led && t >= 1 && x.led[t].leader in x.members && Quorum(x.members, x.led[t].electors)
    && Ordered(t, x.led[t].log) && Rooted(x.led, x.led[t].log)
  }

  /** Index k of the log of term t's leader was created by that leader itself. */
  ghost predicate Own(led: map<nat, Reign>, t: nat, k: nat) {
    t in led && 1 <= k <= |led[t].log| && led[t].log[k - 1].term == t
  }

  /** Some leader after t and before hi does not have the first k entries of term t's leader. */
  ghost predicate Lost(led: map<nat, Reign>, t: nat, k: nat, hi: nat) {
    t in led && exists u: nat :: t < u < hi && u in led && !Agree(led[t].log, led[u].log, k)
  }

  ghost predicate Acked(x: Past, a: Ack, k: nat) {
    a in x.acks && k <= a.len
  }

  /** The acknowledgement reaches index k, which the leader of its term created. */
  ghost predicate AckedOwn(x: Past, a: Ack, k: nat) {
    Acked(x, a, k) && Own(x.led, a.term, k)
  }

  ghost predicate AckOk(x: Past, a: Ack) {
    a.term in x.led && a.from in x.members && a.len <= |x.led[a.term].log|
  }

  /** What an elector acknowledged before is in the log of the leader it elected, unless an earlier
      leader had already lost it. */
  ghost predicate ElectorsRespected(x: Past) {
    forall t, a, k: nat | t in x.led && AckedOwn(x, a, k) && a.from in x.led[t].electors && a.term < t ::
      Agree(x.led[a.term].log, x.led[t].log, k) || Lost(x.led, a.term, k, t)
  }

  ghost predicate PastOk(x: Past) {
    && (forall t | t in x.led :: ReignOk(x, t)) && (forall a | a in x.acks :: AckOk(x, a)) && ElectorsRespected(x)
    && (forall a | a in x.soft :: SoftOk(x, a))
  }

  /** What a node with an unsound log acknowledged had been committed before. */
  ghost predicate SoftOk(x: Past, a: Ack) {
    AckOk(x, a) && Covered(x, x.led[a.term].log, a.len, a.term)
  }

  ghost predicate AckedBy(x: Past, t: nat, q: NodeId, k: nat) {
    exists a :: a in x.acks && a.term == t && a.from == q && a.len >= k
  }

  ghost predicate Backed(x: Past, t: nat, k: nat, q: set<NodeId>) {
    Quorum(x.members, q) && forall v | v in q :: AckedBy(x, t, v, k)
  }

  /** Index k is committed by the current-term majority rule in term t. */
  ghost predicate Chosen(x: Past, t: nat, k: nat) {
    Own(x.led, t, k) && exists q :: Backed(x, t, k, q)
  }

  /** The first c entries of `log` are committed by the majority behind index k of term t. */
  ghost predicate CoveredBy(x: Past, log: Log, c: nat, t: nat, k: nat) {
    c <= k && Chosen(x, t, k) && Agree(log, x.led[t].log, c)
  }

  /** The first c entries of `log` are committed, by a majority of some term up to hi. */
  ghost predicate Covered(x: Past, log: Log, c: nat, hi: nat) {
    c <= |log| && (c == 0 || exists t: nat, k: nat :: t <= hi && CoveredBy(x, log, c, t, k))
  }

  // ---- About messages --------------------------------------------------------------------------

  /** One vote per node and term, one candidacy per node and term. */
  ghost predicate VotesOk(h: History) {
    && (forall v | v in h.votes :: v.voter in h.past.members && v.candidate in h.past.members)
    && (forall r | r in h.requests :: r.candidate in h.past.members)
    && (forall v, w | v in h.votes && w in h.votes && v.term == w.term && v.voter == w.voter :: v == w)
    && (forall r, q | r in h.requests && q in h.requests && r.term == q.term && r.candidate == q.candidate :: r == q)
  }

  ghost predicate ElectedBy(h: History, t: nat) {
    t in h.past.led && forall q | q in h.past.led[t].electors :: Vote(t, q, h.past.led[t].leader) in h.votes
  }

  /** The election restriction: a voter's acknowledgements bound the candidate it voted for. */
  ghost predicate Bounds(x: Past, r: VoteRequest, a: Ack, k: nat, hi: nat) {
    r.lastTerm > a.term || (r.lastTerm == a.term && r.lastIndex >= k) || Lost(x.led, a.term, k, hi)
  }

  ghost predicate VotersRespected(h: History) {
    forall v, r, a, k: nat | v in h.votes && r in h.requests && AckedOwn(h.past, a, k)
      && v.voter == a.from && a.term < v.term && r.term == v.term && r.candidate == v.candidate ::
      Bounds(h.past, r, a, k, v.term + 1)
  }

  ghost predicate AppendOk(x: Past, m: Append) {
    && m.term in x.led && x.led[m.term].leader == m.leader && m.prev <= |m.prefix|
    && Includes(x.led[m.term].log, m.prefix)
    && Covered(x, m.prefix, Min(m.commit, |m.prefix|), m.term)
  }

  ghost predicate HistoryOk(h: History) {
    && PastOk(h.past) && VotesOk(h) && VotersRespected(h)
    && (forall t | t in h.past.led :: ElectedBy(h, t))
    && (forall m | m in h.appends :: AppendOk(h.past, m))
  }

  // ---- About one node --------------------------------------------------------------------------

  ghost predicate LogOk(led: map<nat, Reign>, n: Node) {
    && n.commit <= n.sound <= |n.log| && Rooted(led, n.log[..n.sound]) && (!n.damage.Tainted? ==> n.sound == |n.log|)
    && forall i | 0 <= i < |n.log| :: n.log[i].term <= n.term
  }

  /** The unsound entries come from a log `old` that differs from this one where they begin. */
  ghost predicate LeftFrom(led: map<nat, Reign>, n: Node, was: Log) {
    && 1 <= n.sound < |n.log| == |was| && Rooted(led, was)
    && was[n.sound - 1].term != n.log[n.sound - 1].term
    && forall i | n.sound <= i < |n.log| :: was[i] == n.log[i]
  }

  /** The sound part is committed, by a term later than all the rest of the log. */
  ghost predicate Outdated(x: Past, n: Node, u: nat, k: nat) {
    && u <= n.term && (n.role == Candidate ==> u < n.term)
    && CoveredBy(x, n.log, n.sound, u, k) && LastTerm(n.log) < u
  }

  /** A node with unsound entries does not lead, and still respects what it acknowledged when voting. */
  ghost predicate Stale(x: Past, p: NodeId, n: Node) {
    && n.role != Leader && (exists was :: LeftFrom(x.led, n, was))
    && (exists u: nat, k: nat :: Outdated(x, n, u, k))
    && forall a, k: nat | AckedOwn(x, a, k) && a.from == p ::
      Bounds(x, VoteRequest(0, p, LastTerm(n.log), |n.log|), a, k, n.term + 1)
  }

  ghost predicate VoterOk(h: History, p: NodeId, n: Node) {
    forall v | v in h.votes && v.voter == p ::
      v.term <= n.term && (v.term == n.term ==> n.vote == Some(v.candidate))
  }

  ghost predicate CandidateOk(h: History, p: NodeId, n: Node) {
    && (forall v | v in h.votes && v.candidate == p :: v.term <= n.term)
    && (forall r | r in h.requests && r.candidate == p :: r.term <= n.term)
    && (n.role == Candidate ==>
      && n.term >= 1
      && VoteRequest(n.term, p, LastTerm(n.log), |n.log|) in h.requests
      && forall q | q in n.granted :: Vote(n.term, q, p) in h.votes)
  }

  ghost predicate LeaderOk(x: Past, p: NodeId, n: Node) {
    && (forall t | t in x.led && x.led[t].leader == p :: t <= n.term && (t == n.term ==> n.role != Candidate))
    && (n.role == Leader ==>
      && n.term in x.led && x.led[n.term].leader == p && x.led[n.term].log == n.log
      && (forall q | q in n.matched :: Ack(n.term, q, n.matched[q]) in x.acks + x.soft)
      && (LastTerm(n.log) == n.term ==> Ack(n.term, p, |n.log|) in x.acks))
  }

  /** The log still holds the acknowledged index k, unless a later leader lacked it. */
  ghost predicate Held(x: Past, a: Ack, k: nat, n: Node) {
    a.term in x.led && (Agree(x.led[a.term].log, n.log, k) || Lost(x.led, a.term, k, n.term + 1))
  }

  ghost predicate AcksHeld(x: Past, p: NodeId, n: Node) {
    && (forall a | a in x.acks && a.from == p :: a.term <= n.term)
    && (forall a, k: nat | Acked(x, a, k) && a.from == p :: Held(x, a, k, n))
  }

  ghost predicate NodeOk(h: History, p: NodeId, n: Node) {
    && LogOk(h.past.led, n) && VoterOk(h, p, n) && CandidateOk(h, p, n)
    && LeaderOk(h.past, p, n) && AcksHeld(h.past, p, n) && Covered(h.past, n.log, n.commit, n.term)
    && (n.sound < |n.log| ==> Stale(h.past, p, n))
  }

  ghost predicate Inv(s: State) {
    s.nodes.Keys == s.h.past.members && HistoryOk(s.h) && forall p | p in s.nodes :: NodeOk(s.h, p, s.nodes[p])
  }

  // ---- History only grows ----------------------------------------------------------------------

  ghost predicate LedExtends(led: map<nat, Reign>, led': map<nat, Reign>) {
    forall t | t in led ::
      && t in led' && led'[t].leader == led[t].leader && led'[t].electors == led[t].electors
      && Agree(led[t].log, led'[t].log, |led[t].log|)
      && forall i | |led[t].log| <= i < |led'[t].log| :: led'[t].log[i].term == t
  }

  ghost predicate PastExtends(x: Past, x': Past) {
    x'.members == x.members && x.acks <= x'.acks && x.soft <= x'.soft && LedExtends(x.led, x'.led)
  }

  ghost predicate Extends(h: History, h': History) {
    h.requests <= h'.requests && h.votes <= h'.votes && h.appends <= h'.appends && PastExtends(h.past, h'.past)
  }

  lemma LostForGood(led: map<nat, Reign>, led': map<nat, Reign>, t: nat, k: nat, hi: nat)
    requires LedExtends(led, led') && t in led && k <= |led[t].log| && Ordered(t, led[t].log) && Lost(led, t, k, hi)
    ensures Lost(led', t, k, hi)
  {
    var u: nat :| t < u < hi && u in led && !Agree(led[t].log, led[u].log, k);
    var i := if k <= |led[u].log| then var j :| 0 <= j < k && led[t].log[j] != led[u].log[j]; j else |led[u].log|;
    assert i < |led'[u].log| ==> led'[t].log[i] != led'[u].log[i];
    assert !Agree(led'[t].log, led'[u].log, k);
  }

  lemma ChosenForGood(x: Past, x': Past, t: nat, k: nat)
    requires PastExtends(x, x') && Chosen(x, t, k)
    ensures Chosen(x', t, k)
  {
    var q :| Backed(x, t, k, q);
    assert Backed(x', t, k, q);
  }

  lemma CoveredForGood(x: Past, x': Past, log: Log, c: nat, hi: nat)
    requires PastExtends(x, x') && Covered(x, log, c, hi)
    ensures Covered(x', log, c, hi)
  {
    if c > 0 {
      var t: nat, k: nat :| t <= hi && CoveredBy(x, log, c, t, k);
      ChosenForGood(x, x', t, k);
      assert CoveredBy(x', log, c, t, k);
    }
  }
}
