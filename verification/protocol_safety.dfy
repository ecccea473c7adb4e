/** The safety properties of Raft (Figure 3 of the paper), over whole runs of the protocol. */
module ProtocolSafety {
  import opened Types
  import opened Logs
  import opened Protocol
  import opened ProtocolInvariant
  import opened ProtocolSteps

  ghost predicate Run(b: seq<State>) {
    |b| > 0 && Init(b[0]) && forall i | 0 <= i < |b| - 1 :: Next(b[i], b[i + 1])
  }

  /** The state at moment i. */
  ghost function Then(b: seq<State>, i: nat): State {
    if i < |b| then b[i] else State(map[], History({}, {}, {}, Past({}, {}, {}, map[])))
  }

  lemma InitInv(s: State)
    requires Init(s)
    ensures Inv(s)
  {
    hide Stale;
  }

  lemma {:induction false} RunInv(b: seq<State>, i: nat)
    requires Run(b) && i < |b|
    ensures Inv(Then(b, i))
  {
    hide Inv, Next, HistoryOk;
    if i == 0 {
      InitInv(b[0]);
    } else {
      RunInv(b, i - 1);
      assert Next(b[i - 1], b[i - 1 + 1]);
      NextKept(b[i - 1], b[i]);
    }
  }

  lemma NextKept(s: State, s': State)
    requires Inv(s) && Next(s, s')
    ensures Inv(s') && Extends(s.h, s'.h)
  {
    hide Inv, Extends, Do, Enabled;
    var e :| Enabled(s, e) && Do(s, e) == s';
    EventKept(s, e);
  }

  lemma {:induction false} RunExtends(b: seq<State>, i: nat, j: nat)
    requires Run(b) && i <= j < |b|
    ensures Extends(Then(b, i).h, Then(b, j).h)
    decreases j - i
  {
    hide Inv, PastExtends, Next;
    if i < j {
      RunExtends(b, i, j - 1);
      RunInv(b, j - 1);
      assert Next(b[j - 1], b[j - 1 + 1]);
      NextKept(b[j - 1], b[j]);
      ExtendsTransitive(b[i].h, b[j - 1].h, b[j].h);
    } else {
      ExtendsReflexive(b[i].h);
    }
  }

  lemma ExtendsReflexive(h: History)
    ensures Extends(h, h)
  {
  }

  lemma ExtendsTransitive(a: History, b: History, c: History)
    requires Extends(a, b) && Extends(b, c)
    ensures Extends(a, c)
  {
    var x, y, z := a.past.led, b.past.led, c.past.led;
    forall t | t in x
      ensures t in z && z[t].leader == x[t].leader && z[t].electors == x[t].electors
      ensures Agree(x[t].log, z[t].log, |x[t].log|)
      ensures forall i | |x[t].log| <= i < |z[t].log| :: z[t].log[i].term == t
    {
      assert t in y && Agree(x[t].log, y[t].log, |x[t].log|) && Agree(y[t].log, z[t].log, |y[t].log|);
    }
  }

  /** Election Safety: however far apart in the run, two leaders of one term are the same node. */
  lemma ElectionSafety(b: seq<State>, i: nat, j: nat, p: NodeId, q: NodeId)
    requires Run(b) && i <= j < |b| && p in Then(b, i).nodes && q in Then(b, j).nodes
    requires Then(b, i).At(p).role == Leader && Then(b, j).At(q).role == Leader
    requires Then(b, i).At(p).term == Then(b, j).At(q).term
    ensures p == q
  {
    hide Inv, PastOk, Run;
    RunInv(b, i);
    RunInv(b, j);
    RunExtends(b, i, j);
    LeaderAt(b[i], p);
    LeaderAt(b[j], q);
  }

  /** Leader Append-Only: while a node leads a term it only ever appends. */
  lemma LeaderAppendOnly(b: seq<State>, i: nat, j: nat, p: NodeId)
    requires Run(b) && i <= j < |b| && p in Then(b, i).nodes && p in Then(b, j).nodes
    requires Then(b, i).At(p).role == Leader && Then(b, j).At(p).role == Leader
    requires Then(b, i).At(p).term == Then(b, j).At(p).term
    ensures Agree(Then(b, i).At(p).log, Then(b, j).At(p).log, |Then(b, i).At(p).log|)
  {
    hide Inv, PastOk, Run;
    RunInv(b, i);
    RunInv(b, j);
    RunExtends(b, i, j);
    LeaderAt(b[i], p);
    LeaderAt(b[j], p);
  }

  /** Log Matching, across nodes and across time, on all that is sound. */
  lemma LogMatchingInRuns(b: seq<State>, i: nat, j: nat, p: NodeId, q: NodeId, k: nat)
    requires Run(b) && i <= j < |b| && p in Then(b, i).nodes && q in Then(b, j).nodes
    requires k <= Then(b, i).At(p).sound && k <= Then(b, j).At(q).sound
    requires SameTerm(Then(b, i).At(p).log, Then(b, j).At(q).log, k)
    ensures Agree(Then(b, i).At(p).log, Then(b, j).At(q).log, k)
  {
    hide Run, Inv, Rooted, Extends, Next;
    RunInv(b, i);
    RunInv(b, j);
    RunExtends(b, i, j);
    SoundPart(b[i], p);
    SoundPart(b[j], q);
    LedLater(b[i].h, b[j].h);
    var x, y := b[i].nodes[p], b[j].nodes[q];
    RootedForGood(b[i].h.past.led, b[j].h.past.led, x.log[..x.sound]);
    LogMatching(b[j].h.past.led, x.log[..x.sound], y.log[..y.sound], k);
    SoundAgree(x.log, x.sound, y.log, y.sound, k);
  }

  ghost predicate SoundIn(led: map<nat, Reign>, n: Node) { n.sound <= |n.log| && Rooted(led, n.log[..n.sound]) }

  lemma SoundPart(s: State, p: NodeId)
    requires Inv(s) && p in s.nodes
    ensures SoundIn(s.h.past.led, s.At(p))
  {
    hide HistoryOk;
    assert NodeOk(s.h, p, s.nodes[p]);
  }

  lemma SoundAgree(x: Log, i: nat, y: Log, j: nat, k: nat)
    requires i <= |x| && j <= |y| && Agree(x[..i], y[..j], k)
    ensures Agree(x, y, k)
  {
    forall e | 0 <= e < k ensures x[e] == y[e] { assert x[..i][e] == y[..j][e]; }
  }

  lemma LedLater(h: History, h': History)
    requires Extends(h, h')
    ensures LedExtends(h.past.led, h'.past.led)
  {
  }

  lemma LeaderCompletenessAcross(x: Past, y: Past, z: Past, t: nat, k: nat, later: nat)
    requires PastExtends(x, z) && PastExtends(y, z) && PastOk(z) && Chosen(x, t, k) && later in y.led && t < later
    ensures Agree(x.Led(t), y.Led(later), k)
  {
    hide PastOk;
    ChosenForGood(x, z, t, k);
    LeaderCompleteness(z, t, k, later);
    assert z.led[later].log[k - 1].term == t != later;
    assert k <= |y.led[later].log|;
  }

  /** Leader Completeness: an index that a majority acknowledged in its own term t is in the log of
      every leader of a later term, at any moment of its reign and whichever came first. */
  lemma LeaderCompletenessInRuns(b: seq<State>, i: nat, j: nat, t: nat, k: nat, q: NodeId)
    requires Run(b) && i < |b| && j < |b| && Chosen(Then(b, i).h.past, t, k)
    requires q in Then(b, j).nodes && Then(b, j).At(q).role == Leader && Then(b, j).At(q).term > t
    ensures Agree(Then(b, i).h.past.Led(t), Then(b, j).At(q).log, k)
  {
    hide Inv, PastOk, Run;
    var m := Max(i, j);
    RunInv(b, j);
    RunInv(b, m);
    RunExtends(b, i, m);
    RunExtends(b, j, m);
    LeaderAt(b[j], q);
    LeaderCompletenessAcross(b[i].h.past, b[j].h.past, b[m].h.past, t, k, b[j].nodes[q].term) by { InvPast(b[m]); }
  }

  /** The leader of term t, with its log. */
  ghost predicate Reigns(led: map<nat, Reign>, p: NodeId, t: nat, log: Log) {
    t in led && led[t].leader == p && led[t].log == log
  }

  lemma LeaderAt(s: State, p: NodeId)
    requires Inv(s) && p in s.nodes && s.At(p).role == Leader
    ensures Reigns(s.h.past.led, p, s.At(p).term, s.At(p).log)
  {
    hide HistoryOk;
    assert NodeOk(s.h, p, s.nodes[p]);
  }

  /** Two committed prefixes never disagree, because both are prefixes of the later leader's log. */
  lemma CoveredAgree(x: Past, a: Log, c: nat, hi: nat, b: Log, d: nat, hi': nat, k: nat)
    requires PastOk(x) && Covered(x, a, c, hi) && Covered(x, b, d, hi') && k <= c && k <= d
    ensures Agree(a, b, k)
  {
    hide PastOk, Backed;
    if k > 0 {
      var t: nat, i: nat :| t <= hi && CoveredBy(x, a, c, t, i);
      var u: nat, j: nat :| u <= hi' && CoveredBy(x, b, d, u, j);
      var last := Max(t, u);
      LeaderCompleteness(x, t, i, last);
      LeaderCompleteness(x, u, j, last);
    }
  }

  /** State Machine Safety: whatever two nodes have committed at an index, at any two moments of the
      run, is the same entry, and so are all entries before it. */
  lemma StateMachineSafety(b: seq<State>, i: nat, j: nat, p: NodeId, q: NodeId, k: nat)
    requires Run(b) && i <= j < |b| && p in Then(b, i).nodes && q in Then(b, j).nodes
    requires k <= Then(b, i).At(p).commit && k <= Then(b, j).At(q).commit
    ensures Agree(Then(b, i).At(p).log, Then(b, j).At(q).log, k)
  {
    hide Run, PastOk, Stale;
    RunInv(b, i);
    RunInv(b, j);
    RunExtends(b, i, j);
    var n, m := b[i].nodes[p], b[j].nodes[q];
    assert NodeOk(b[i].h, p, n) && NodeOk(b[j].h, q, m);
    CoveredForGood(b[i].h.past, b[j].h.past, n.log, n.commit, n.term);
    CoveredAgree(b[j].h.past, n.log, n.commit, n.term, m.log, m.commit, m.term, k);
  }

  /** No step removes or changes a committed entry, and only a restart lowers a commit index. */
  lemma CommittedIsKept(s: State, e: Event, p: NodeId)
    requires Inv(s) && Enabled(s, e) && p in s.nodes
    ensures Agree(s.At(p).log, Do(s, e).At(p).log, s.At(p).commit)
    ensures !e.Restart? ==> s.At(p).commit <= Do(s, e).At(p).commit
  {
    hide HistoryOk, NodeOk, Next, HistoryAfter;
    CommitInLog(s, p);
    if e.WriteLog? && e.p == p { WriteLogOk(s.h, p, s.nodes[p], e.append, e.len); }
    if e.TornInstall? && e.p == p { TornKeepsCommitted(s.h, p, s.nodes[p], e.append); }
  }

  lemma CommitInLog(s: State, p: NodeId)
    requires Inv(s) && p in s.nodes
    ensures s.At(p).commit <= |s.At(p).log|
  {
    hide HistoryOk;
    assert NodeOk(s.h, p, s.nodes[p]);
  }

  /** Every acknowledgement is true: at some moment not later, its sender was in that term and held
      the log of that term's leader up to the acknowledged index. */
  lemma {:induction false} AckWitnessed(b: seq<State>, j: nat, a: Ack) returns (i: nat)
    requires Run(b) && j < |b| && a in Then(b, j).h.past.acks + Then(b, j).h.past.soft
    ensures i <= j && a.from in Then(b, i).nodes && Then(b, i).At(a.from).term == a.term
    ensures a.term in Then(b, j).h.past.led
    ensures Agree(Then(b, j).h.past.Led(a.term), Then(b, i).At(a.from).log, a.len)
    decreases j
  {
    hide Inv, Extends, Next;
    i := j;
    if j > 0 && a in b[j - 1].h.past.acks + b[j - 1].h.past.soft {
      i := AckWitnessed(b, j - 1, a);
      RunExtends(b, j - 1, j);
      WitnessStays(b[j - 1].h, b[j].h, a, b[i].nodes[a.from].log);
    } else if j > 0 {
      RunInv(b, j - 1);
      assert Next(b[j - 1], b[j - 1 + 1]);
      NewAckHeld(b[j - 1], b[j], a);
    }
  }

  lemma WitnessStays(h: History, h': History, a: Ack, log: Log)
    requires Extends(h, h') && a.term in h.past.led && Agree(h.past.Led(a.term), log, a.len)
    ensures a.term in h'.past.led && Agree(h'.past.Led(a.term), log, a.len)
  {
  }

  lemma NewAckHeld(s: State, s': State, a: Ack)
    requires Inv(s) && Next(s, s') && a in s'.h.past.acks + s'.h.past.soft && a !in s.h.past.acks + s.h.past.soft
    ensures a.from in s'.nodes && s'.At(a.from).term == a.term && a.term in s'.h.past.led
    ensures Agree(s'.h.past.Led(a.term), s'.At(a.from).log, a.len)
  {
    hide PastOk, VotesOk, VotersRespected, NodeOk;
    var e :| Enabled(s, e) && Do(s, e) == s';
    if e.Acknowledge? { assert AppendOk(s.h.past, e.append); }
  }

  /** The sender of an acknowledgement is in its term or a later one, and in its term it still holds
      what it acknowledged, whether its log is sound or not. */
  ghost predicate InForce(s: State, a: Ack) {
    && a.from in s.nodes && a.term in s.h.past.led && a.term <= s.nodes[a.from].term
    && (a.term == s.nodes[a.from].term ==> Agree(s.h.past.led[a.term].log, s.nodes[a.from].log, a.len))
  }

  ghost predicate AcksInForce(s: State) {
    forall a | a in s.h.past.acks + s.h.past.soft :: InForce(s, a)
  }

  lemma AcksStayInForce(s: State, e: Event)
    requires Inv(s) && AcksInForce(s) && Enabled(s, e)
    ensures AcksInForce(Do(s, e))
  {
    hide Inv, InForce, NodeAfter, HistoryAfter;
    var s' := Do(s, e);
    assert Next(s, s');
    forall a | a in s'.h.past.acks + s'.h.past.soft ensures InForce(s', a) {
      if a in s.h.past.acks + s.h.past.soft { StaysInForce(s, e, a); } else { ComesInForce(s, s', a); }
    }
  }

  lemma ComesInForce(s: State, s': State, a: Ack)
    requires Inv(s) && Next(s, s') && a in s'.h.past.acks + s'.h.past.soft && a !in s.h.past.acks + s.h.past.soft
    ensures InForce(s', a)
  {
    hide Inv, Next;
    NewAckHeld(s, s', a);
  }

  lemma StaysInForce(s: State, e: Event, a: Ack)
    requires Inv(s) && Enabled(s, e) && InForce(s, a)
    ensures InForce(Do(s, e), a)
  {
    hide Inv;
    var s' := Do(s, e);
    var log := s.nodes[a.from].log;
    EventKept(s, e);
    if a.term == s.nodes[a.from].term {
      WitnessStays(s.h, s'.h, a, log);
      if e.p == a.from && (e.WriteLog? || e.TornInstall?) { OverwriteHolds(s, e, a); }
    }
  }

  /** A leader's requests never take back what was acknowledged to it. */
  lemma OverwriteHolds(s: State, e: Event, a: Ack)
    requires Inv(s) && Enabled(s, e) && (e.WriteLog? || e.TornInstall?) && e.p == a.from
    requires a.term == s.At(a.from).term && a.term in s.h.past.led
    requires Agree(s.h.past.Led(a.term), s.At(a.from).log, a.len)
    ensures Agree(s.h.past.Led(a.term), NodeAfter(s, e).log, a.len)
  {
    hide HistoryOk, NodeOk, Next;
    RequestFromLog(s.h, e.append);
  }

  lemma RequestFromLog(h: History, m: Append)
    requires HistoryOk(h) && m in h.appends
    ensures m.term in h.past.led && Includes(h.past.Led(m.term), m.prefix)
  {
    hide PastOk, VotersRespected, VotesOk;
    assert AppendOk(h.past, m);
  }
}
