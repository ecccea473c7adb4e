/** How the running system corresponds to the uncompacted protocol. */
module ClusterRelation {
  import opened Types
  import opened Logs
  import opened SentinelLog
  import opened KvState
  import opened NodeRelation
  import opened AppendSimulation
  import P = Protocol
  import opened ProtocolInvariant
  import C = Cluster

  // ---- Packets ---------------------------------------------------------------------------------

  /** A packet says nothing that the protocol's messages do not say. */
  ghost predicate PacketRel(k: C.Packet, h: P.History) {
    match k
    case VoteReqPacket(_, a) => P.VoteRequest(a.term, a.candidate, a.lastLogTerm, a.lastLogIndex) in h.requests
    case VoteRepPacket(to, from, t, r) => r.granted ==> P.Vote(t, from, to) in h.votes
    case AppendReqPacket(to, a) => to != a.leader && exists m :: m in h.appends && AppendMatch(a, m)
    case AppendRepPacket(_, from, a, r) =>
      && (r.success ==> AckFor(a, from) in AllAcks(h))
      && (r.conflictTerm > 0 ==> r.conflictIndex >= 1)
    case SnapReqPacket(to, a) => to != a.leader && exists m :: m in h.appends && SnapshotMatch(a, m)
    case SnapRepPacket(_, from, a, r) =>
      r.term >= a.term && (r.term == a.term ==> P.Ack(a.term, from, a.snap.lastIndex) in AllAcks(h))
  }

  lemma PacketForGood(k: C.Packet, h: P.History, h': P.History)
    requires PacketRel(k, h) && Extends(h, h')
    ensures PacketRel(k, h')
  {
  }

  // ---- The applier -----------------------------------------------------------------------------

  /** The applier's phase, against the uncompacted log. */
  ghost predicate PhaseRel(a: C.Applier, applied: nat, n: P.Node) {
    match a
    case Idle => true
    case Restoring(s) => applied < s.lastIndex <= n.commit && n.commit <= |n.log| && s == SnapshotOf(n.log, s.lastIndex)
    case Applying(batch, done) =>
      && done <= |batch| && applied + |batch| <= n.commit && n.commit <= |n.log|
      && batch == n.log[applied..applied + |batch|]
    case Capturing(i, t) => i == applied && i <= |n.log| && t == TermAt(n.log, i)
  }

  /** How far the applier will have got when its current phase is over. */
  function Horizon(h: C.Host): nat {
    match h.applier
    case Restoring(s) => s.lastIndex
    case Applying(batch, _) => h.node.lastApplied + |batch|
    case _ => h.node.lastApplied
  }

  /** A parked snapshot is at the log's boundary and ahead of the applier; without one, the boundary
      has been applied or is being restored. */
  ghost predicate PendingRel(h: C.Host, n: P.Node, b: nat) {
    match h.node.pending
    case Some(s) => Horizon(h) < b <= |n.log| && s == SnapshotOf(n.log, b)
    case None => if h.applier.Restoring? then b <= h.applier.snap.lastIndex else b <= h.node.lastApplied
  }

  /** The state machine holds exactly the fold of the log up to the applier's position. */
  ghost predicate KvRel(h: C.Host, n: P.Node) {
    C.Position(h) <= n.commit && n.commit <= |n.log| && h.kv == Fold(n.log[..C.Position(h)])
  }

  ghost predicate ApplierRel(h: C.Host, n: P.Node) {
    |h.node.log| >= 1 && PhaseRel(h.applier, h.node.lastApplied, n) && PendingRel(h, n, Base(h.node.log)) && KvRel(h, n)
  }

  // ---- Client requests -------------------------------------------------------------------------

  function EntryOf(r: C.Request): LogEntry { LogEntry(r.term, r.index, r.command) }

  /** The entry was created by the leader of its own term at its own index. */
  ghost predicate Created(led: map<nat, P.Reign>, e: LogEntry) {
    e.term in led && 1 <= e.index <= |led[e.term].log| && led[e.term].log[e.index - 1] == e
  }

  /** The entry is committed. */
  ghost predicate Settled(x: P.Past, e: LogEntry) {
    exists t: nat, k: nat :: Chosen(x, t, k) && 1 <= e.index <= k && x.led[t].log[e.index - 1] == e
  }

  ghost predicate RequestsRel(h: C.Host, led: map<nat, P.Reign>) {
    && (forall r | r in h.proposed :: r.host == h.node.id && Created(led, EntryOf(r)))
    && (forall i | i in h.waiters ::
      h.waiters[i].host == h.node.id && h.waiters[i].index == i && Created(led, EntryOf(h.waiters[i])))
  }

  lemma SettledForGood(x: P.Past, x': P.Past, e: LogEntry)
    requires Settled(x, e) && PastExtends(x, x')
    ensures Settled(x', e)
  {
    var t: nat, k: nat :| Chosen(x, t, k) && 1 <= e.index <= k && x.led[t].log[e.index - 1] == e;
    ChosenForGood(x, x', t, k);
  }

  lemma RequestsForGood(h: C.Host, led: map<nat, P.Reign>, led': map<nat, P.Reign>)
    requires RequestsRel(h, led) && LedExtends(led, led')
    ensures RequestsRel(h, led')
  {
    forall e: LogEntry | Created(led, e) ensures Created(led', e) {}
  }

  // ---- The whole system ------------------------------------------------------------------------

  ghost predicate HostRel(h: C.Host, p: NodeId, n: P.Node, past: P.Past) {
    && ConfigRel(h.node, p, past.members) && NodeRel(h.node, n) && h.damage == n.damage && (!h.up ==> !h.damage.Intact?)
    && ApplierRel(h, n) && RequestsRel(h, past.led)
  }

  ghost predicate RecordRel(c: C.State, past: P.Past) {
    && (forall r | r in c.acked :: Settled(past, EntryOf(r)) && C.Applied(r.host, EntryOf(r)) in c.applied)
    && (forall a | a in c.applied :: Settled(past, a.entry))
  }

  ghost predicate ClusterRel(c: C.State, s: P.State) {
    && Inv(s) && c.hosts.Keys == s.nodes.Keys && !c.panicked
    && (forall p | p in c.hosts :: HostRel(c.hosts[p], p, s.nodes[p], s.h.past))
    && (forall k | k in c.net :: PacketRel(k, s.h))
    && RecordRel(c, s.h.past)
  }

  /** The protocol moved from s to s' while the system moved from c to c'. */
  ghost predicate Followed(c': C.State, s: P.State, s': P.State) {
    ClusterRel(c', s') && Leads(s, s')
  }

  lemma BystanderRel(h: C.Host, p: NodeId, n: P.Node, past: P.Past, past': P.Past)
    requires HostRel(h, p, n, past) && PastExtends(past, past')
    ensures HostRel(h, p, n, past')
  {
    hide NodeRel, ApplierRel, RequestsRel;
    RequestsForGood(h, past.led, past'.led);
  }

  lemma RecordForGood(c: C.State, past: P.Past, past': P.Past)
    requires RecordRel(c, past) && PastExtends(past, past')
    ensures RecordRel(c, past')
  {
    hide Settled;
    forall e: LogEntry | Settled(past, e) ensures Settled(past', e) { SettledForGood(past, past', e); }
  }

  /** One host acted, sent some packets, and nothing else changed. */
  lemma Assembled(c: C.State, c': C.State, s: P.State, s': P.State, p: NodeId)
    requires ClusterRel(c, s) && Onward(s, s', p) && p in c.hosts && p in c'.hosts
    requires c'.hosts == c.hosts[p := c'.hosts[p]] && c'.panicked == c.panicked
    requires HostRel(c'.hosts[p], p, s'.nodes[p], s'.h.past)
    requires forall k | k in c'.net && k !in c.net :: PacketRel(k, s'.h)
    requires RecordRel(c', s'.h.past)
    ensures Followed(c', s, s')
  {
    hide Inv, Reaches, HostRel, PacketRel, RecordRel, PastExtends, FreshAcks, FreshVotes;
    forall q | q in c'.hosts ensures HostRel(c'.hosts[q], q, s'.nodes[q], s'.h.past) {
      if q != p { BystanderRel(c.hosts[q], q, s.nodes[q], s.h.past, s'.h.past); }
    }
    forall k | k in c'.net ensures PacketRel(k, s'.h) {
      if k in c.net { PacketForGood(k, s.h, s'.h); }
    }
  }
}
