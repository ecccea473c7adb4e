/**
 Raft without compaction, as a state machine over atomic events.

 Logs are whole logs, an AppendEntries request carries the leader's entire prefix, and messages
 stay in the network for ever, so the sets of votes and acknowledgements double as their history.
 One locked region of the Go node corresponds to a short sequence of these events, and a crash in
 the middle of a handler corresponds to a prefix of that sequence followed by `Restart`.
 */
module Protocol {
  import opened Types
  import opened Logs

  datatype VoteRequest = VoteRequest(term: nat, candidate: NodeId, lastTerm: nat, lastIndex: nat)

  /** `voter` granted `candidate` its vote in `term`. */
  datatype Vote = Vote(term: nat, voter: NodeId, candidate: NodeId)

  /** `prefix` is the leader's log up to the last entry sent; the entries on the wire are
      prefix[prev..]. An installed snapshot is the request with prev == 0 and commit == |prefix|. */
  datatype Append = Append(term: nat, leader: NodeId, prev: nat, prefix: Log, commit: nat)

  /** `from` durably held the first `len` entries of the log of the leader of `term`. */
  datatype Ack = Ack(term: nat, from: NodeId, len: nat)

  /** The first `sound` entries of a log descend from the leaders' logs. That is all of it, unless a
      crash hit the node while it was installing a snapshot: then entries that the snapshot had overruled
      may still follow the snapshot's. */
  datatype Node = Node(
    term: nat,
    vote: Option<NodeId>,
    log: Log,
    sound: nat,
    damage: Damage,
    role: Role,
    commit: nat,
    granted: set<NodeId>,
    matched: map<NodeId, nat>)

  /** Everything there is to remember about a term that had a leader: who it was, its log (as far
      as it grew while leading) and the quorum that elected it. */
  datatype Reign = Reign(leader: NodeId, log: Log, electors: set<NodeId>)

  /** Who acknowledged what, and who led. Acknowledgements of nodes whose log was not sound are kept
      apart (`soft`): such a node may vote against them later. */
  datatype Past = Past(members: set<NodeId>, acks: set<Ack>, soft: set<Ack>, led: map<nat, Reign>) {
    /** The log of the leader of term t; empty if there was none. */
    ghost function Led(t: nat): Log { if t in led then led[t].log else [] }
  }

  /** What the network and the past remember; nothing in it is ever removed. */
  datatype History = History(requests: set<VoteRequest>, votes: set<Vote>, appends: set<Append>, past: Past)

  datatype State = State(nodes: map<NodeId, Node>, h: History) {
    /** Node p; a blank one if there is none. */
    ghost function At(p: NodeId): Node { if p in nodes then nodes[p] else Blank() }
  }

  ghost function Blank(): Node { Node(0, None, [], 0, Intact, Follower, 0, {}, map[]) }

  datatype Event =
    | Timeout(p: NodeId)
    | ObserveTerm(p: NodeId, term: nat)
    | StepDown(p: NodeId)
    | GrantVote(p: NodeId, request: VoteRequest)
    | CountVote(p: NodeId, voter: NodeId)
    | BecomeLeader(p: NodeId)
    | Propose(p: NodeId, command: Command)
    | SendAppend(p: NodeId, prev: nat, upTo: nat, commit: nat)
    | WriteLog(p: NodeId, append: Append, len: nat)
    | TornInstall(p: NodeId, append: Append)
    | Acknowledge(p: NodeId, append: Append)
    | LearnCommit(p: NodeId, append: Append)
    | CountAck(p: NodeId, ack: Ack)
    | AdvanceCommit(p: NodeId, index: nat, backers: set<NodeId>)
    | Restart(p: NodeId, commit: nat)

  ghost predicate Init(s: State) {
    && s.nodes.Keys == s.h.past.members != {}
    && (forall p | p in s.nodes :: s.nodes[p] == Blank())
    && s.h == History({}, {}, {}, Past(s.nodes.Keys, {}, {}, map[]))
  }

  /** The node has the leader's request in hand, in the request's own term, and is not its author. */
  ghost predicate Received(h: History, p: NodeId, n: Node, m: Append) {
    m in h.appends && n.term == m.term && p != m.leader
  }

  ghost predicate Enabled(s: State, e: Event) {
    e.p in s.nodes &&
    var n, h := s.nodes[e.p], s.h;
    match e
    case Timeout(p) => n.role != Leader
    case ObserveTerm(p, t) => t > n.term
    case StepDown(p) => true
    case GrantVote(p, r) =>
      r in h.requests && r.term == n.term && (n.vote == None || n.vote == Some(r.candidate))
      && UpToDate(r.lastTerm, r.lastIndex, n.log)
    case CountVote(p, q) => n.role == Candidate && Vote(n.term, q, p) in h.votes
    case BecomeLeader(p) => n.role == Candidate && Quorum(h.past.members, n.granted)
    case Propose(p, c) => n.role == Leader && n.term in h.past.led
    case SendAppend(p, prev, upTo, c) => n.role == Leader && prev <= upTo <= |n.log| && c <= n.commit
    case WriteLog(p, m, len) =>
      Received(h, p, n, m) && n.role == Follower && Agree(m.prefix, n.log, m.prev)
      && !Includes(n.log, m.prefix)
      && len <= |m.prefix| && (len == |m.prefix| || !Agree(m.prefix, n.log, len + 1))
    case TornInstall(p, m) =>
      Received(h, p, n, m) && n.role == Follower && m.prev == 0 && n.commit < |m.prefix| && m.commit == |m.prefix|
    case Acknowledge(p, m) => Received(h, p, n, m) && Includes(n.log, m.prefix)
    case LearnCommit(p, m) => Received(h, p, n, m) && Includes(n.log, m.prefix)
    case CountAck(p, a) => n.role == Leader && a in h.past.acks + h.past.soft && a.term == n.term
    case AdvanceCommit(p, i, q) =>
      n.role == Leader && n.commit < i <= |n.log| && TermAt(n.log, i) == n.term
      && Quorum(h.past.members, q) && forall v | v in q && v != p :: v in n.matched && n.matched[v] >= i
    case Restart(p, c) => c <= n.commit
  }

  /** The old log goes beyond the snapshot and differs from it at the snapshot's last index. */
  ghost predicate Overruled(log: Log, m: Log) {
    |m| < |log| && TermAt(log, |m|) != LastTerm(m)
  }

  /** Recovered between saving a snapshot of m and rewriting the write-ahead log: what the old log has
      beyond the snapshot comes back, whether the snapshot overruled it or not. */
  ghost function Torn(n: Node, m: Log): Node {
    var o := n.(damage := Damaged(n.damage, Overruled(n.log, m)), role := Follower, commit := |m|, granted := {},
                matched := map[]);
    if Overruled(n.log, m) then o.(log := m + n.log[|m|..], sound := |m|)
    else if Includes(n.log, m) then o
    else o.(log := m, sound := |m|)
  }

  /** The acting node after the event. */
  ghost function NodeAfter(s: State, e: Event): Node
    requires Enabled(s, e)
  {
    var n := s.nodes[e.p];
    match e
    case Timeout(p) => n.(term := n.term + 1, vote := Some(p), role := Candidate, granted := {p})
    case ObserveTerm(_, t) => n.(term := t, vote := None, role := Follower)
    case StepDown(_) => n.(role := Follower)
    case GrantVote(_, r) => n.(vote := Some(r.candidate))
    case CountVote(_, q) => n.(granted := n.granted + {q})
    case BecomeLeader(_) => n.(role := Leader, matched := map[])
    case Propose(_, c) => n.(log := n.log + [LogEntry(n.term, |n.log| + 1, c)], sound := |n.log| + 1)
    case SendAppend(_, _, _, _) => n
    case WriteLog(_, m, len) => n.(log := m.prefix[..len], sound := len)
    case TornInstall(_, m) => Torn(n, m.prefix)
    case Acknowledge(_, m) => n
    case LearnCommit(_, m) => n.(commit := Max(n.commit, Min(m.commit, |m.prefix|)))
    case CountAck(_, a) => n.(matched := n.matched[a.from := a.len])
    case AdvanceCommit(_, i, _) => n.(commit := i)
    case Restart(_, c) => n.(role := Follower, commit := c, granted := {}, matched := map[])
  }

  /** The history after the event. */
  ghost function HistoryAfter(s: State, e: Event): History
    requires Enabled(s, e)
  {
    var n, h := s.nodes[e.p], s.h;
    match e
    case Timeout(p) =>
      h.(requests := h.requests + {VoteRequest(n.term + 1, p, LastTerm(n.log), |n.log|)},
         votes := h.votes + {Vote(n.term + 1, p, p)})
    case GrantVote(p, r) => h.(votes := h.votes + {Vote(n.term, p, r.candidate)})
    case BecomeLeader(p) => h.(past := h.past.(led := h.past.led[n.term := Reign(p, n.log, n.granted)]))
    case Propose(p, c) =>
      h.(past := h.past.(
           led := h.past.led[n.term := h.past.led[n.term].(log := NodeAfter(s, e).log)],
           acks := h.past.acks + {Ack(n.term, p, |n.log| + 1)}))
    case SendAppend(p, prev, upTo, c) =>
      h.(appends := h.appends + {Append(n.term, p, prev, n.log[..upTo], c)})
    case Acknowledge(p, m) =>
      var a := Ack(n.term, p, |m.prefix|);
      if n.sound == |n.log| then h.(past := h.past.(acks := h.past.acks + {a}))
      else h.(past := h.past.(soft := h.past.soft + {a}))
    case _ => h
  }

  /** The state after the event; what is not enabled changes nothing. */
  ghost function Do(s: State, e: Event): State {
    if !Enabled(s, e) then s else State(s.nodes[e.p := NodeAfter(s, e)], HistoryAfter(s, e))
  }

  ghost predicate Next(s: State, s': State) {
    exists e :: Enabled(s, e) && Do(s, e) == s'
  }
}
