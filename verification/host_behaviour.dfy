/** What every handler does on every host of every run, when each action can happen, and what clients see. */
module HostBehaviour {
  import opened Types
  import opened Logs
  import opened SentinelLog
  import WalRecords
  import opened KvState
  import opened NodeState
  import opened Handlers
  import opened NodeRelation
  import opened NodeSimulation
  import opened Recovery
  import opened ClusterRelation
  import opened ClusterSimulation
  import opened ClusterSafety
  import opened ClusterProperties
  import opened ClusterGuarantees
  import opened Durability
  import opened ProtocolInvariant
  import PS = ProtocolSafety
  import C = Cluster

  // ---- Handlers --------------------------------------------------------------------------------

  /** The answers to everything that others may ask, for a node behind which is the whole log `full`. */
  ghost predicate AnswersPeers(n: Node, full: Log) {
    && Numbered(n.log)
    && (forall a :: Decides(n, full, a, OnRequestVote(n, a).0, OnRequestVote(n, a).1))
    && (forall a | OnAppendEntries(n, a).Replied? ::
      Answers(n, a, OnAppendEntries(n, a).node, OnAppendEntries(n, a).reply))
    && (forall a :: Installs(n, a, OnInstallSnapshot(n, a).0, OnInstallSnapshot(n, a).1))
  }

  /** What replies do to the node. */
  ghost predicate HandlesReplies(n: Node) {
    && Formed(n)
    && (forall from, term, r :: Counts(n, from, term, r, OnVoteReply(n, from, term, r)))
    && (forall peer, a, r :: Tallies(n, peer, a, r, OnAppendReply(n, peer, a, r)))
    && (forall peer, a, r :: TalliesSnapshot(n, peer, a, r, OnSnapshotReply(n, peer, a, r)))
  }

  /** Any request and any reply, recent or stale, on any host at any moment of any run. */
  lemma HandlersOnHosts(b: seq<C.State>, logs: seq<map<NodeId, Whole>>, i: nat, p: NodeId)
    requires LogsBehind(b, logs) && Hosted(b, i, p)
    ensures AnswersPeers(HostAt(b, i, p).node, LogAt(logs, i, p).log) && HandlesReplies(HostAt(b, i, p).node)
  {
    hide LogsBehind, Tracks, ClusterRel, Inv, NodeRel, ConfigRel, Stores, SoundFor, AnswersPeers, HandlesReplies,
         Formed;
    HostStores(b, logs, i, p);
    StoredAnswers(HostAt(b, i, p), LogAt(logs, i, p).log);
    var ss := Tracking(b, logs);
    HostTracked(b, ss, i, p);
    HostFacts(b[i], ss[i], p);
    RelFormed(b[i].hosts[p].node, ss[i].nodes[p], p, ss[i].h.past.members);
    FormedHandles(b[i].hosts[p].node);
  }

  lemma StoredAnswers(h: C.Host, full: Log)
    requires Stores(h, full)
    ensures AnswersPeers(h.node, full)
  {
    hide Decides, Answers, Installs, OnRequestVote, OnAppendEntries, OnInstallSnapshot, SnapRel, WalRel;
    forall a ensures Decides(h.node, full, a, OnRequestVote(h.node, a).0, OnRequestVote(h.node, a).1) {
      VoteDecided(h.node, full, a);
    }
    forall a | OnAppendEntries(h.node, a).Replied?
      ensures Answers(h.node, a, OnAppendEntries(h.node, a).node, OnAppendEntries(h.node, a).reply)
    {
      AppendAnswers(h.node, a);
    }
    forall a ensures Installs(h.node, a, OnInstallSnapshot(h.node, a).0, OnInstallSnapshot(h.node, a).1) {
      SnapshotInstalls(h.node, a);
    }
  }

  lemma FormedHandles(n: Node)
    requires Formed(n)
    ensures HandlesReplies(n)
  {
    hide Counts, Tallies, TalliesSnapshot, OnVoteReply, OnAppendReply, OnSnapshotReply;
    forall from, term, r ensures Counts(n, from, term, r, OnVoteReply(n, from, term, r)) {
      VoteReplyCounted(n, from, term, r);
    }
    forall peer, a, r ensures Tallies(n, peer, a, r, OnAppendReply(n, peer, a, r)) {
      AppendReplyTallied(n, peer, a, r);
    }
    forall peer, a, r ensures TalliesSnapshot(n, peer, a, r, OnSnapshotReply(n, peer, a, r)) {
      SnapshotReplyTallied(n, peer, a, r);
    }
  }

  /** Nothing volatile survives a restart, and the state machine is what the snapshot says. */
  ghost predicate StartsAfresh(h: C.Host, d: Disk) {
    && h.node.state == Follower && h.node.leaderID == None && h.node.pending == None && h.node.disk == d
    && h.node.votes == 0 && h.node.unanswered == {} && h.node.nextIndex == h.node.matchIndex == map[]
    && h.node.currentTerm == d.hard.term && h.node.votedFor == d.hard.vote
    && h.applier == C.Idle && h.proposed == {} && h.waiters == map[]
    && h.kv == (if d.snap.Some? then d.snap.value.data else map[])
  }

  /** A process that is started on any disk either starts afresh or is down for good. */
  lemma RestartsAfresh(h: C.Host, d: Disk)
    ensures C.Reboot(h, d).up <==> C.RecoverFrom(h, d).Some?
    ensures C.Reboot(h, d).up ==> StartsAfresh(C.Reboot(h, d), d)
    ensures !C.Reboot(h, d).up ==> C.Reboot(h, d) == h.(up := false)
  {
    hide WalRecords.Replay, Beyond;
  }

  // ---- The applier -----------------------------------------------------------------------------

  /** Apart from the node and the applier's phase, nothing about the host has changed. */
  ghost predicate SameServer(h: C.Host, h': C.Host) {
    h'.kv == h.kv && h'.proposed == h.proposed && h'.waiters == h.waiters && h'.damage == h.damage && h'.up == h.up
  }

  /** The node behind which is `full` holds a snapshot of the state machine at index i, in the place of the entries
      up to there. */
  ghost predicate Captured(h: C.Host, i: nat, full: Log) {
    && i <= |full| && Indexed(full) && h.node.log == Compacted(full, i)
    && h.node.disk.snap == Some(Snapshot(i, TermAt(full, i), h.kv))
    && h.node.disk.wal == WalRecords.AppendRecords(full[i..])
  }

  /** A capture beyond the boundary is saved and the log cut there; one that an install has overtaken is dropped. */
  ghost predicate SavesCapture(h: C.Host, full: Log) {
    && Numbered(h.node.log) && h.applier.Capturing?
    && var h' := C.CaptureFinished(h);
    && h'.applier == C.Idle && SameServer(h, h')
    && if h.applier.index > Base(h.node.log) then Captured(h', h.applier.index, full) else h'.node == h.node
  }

  lemma CaptureSaved(h: C.Host, full: Log)
    requires Stores(h, full) && h.applier.Capturing? && h.applier.index <= |full|
    requires h.applier.term == TermAt(full, h.applier.index)
    ensures SavesCapture(h, full)
  {
    hide SnapRel, WalRel, Compacted, SaveAndCompact, Indexed;
    if h.applier.index > Base(h.node.log) {
      SaveIs(h.node, full, Snapshot(h.applier.index, h.applier.term, h.kv));
    }
  }

  lemma CapturesOnHosts(b: seq<C.State>, logs: seq<map<NodeId, Whole>>, i: nat, p: NodeId)
    requires LogsBehind(b, logs) && Hosted(b, i, p) && HostAt(b, i, p).applier.Capturing?
    ensures SavesCapture(HostAt(b, i, p), LogAt(logs, i, p).log)
  {
    hide LogsBehind, Tracks, ClusterRel, Inv, NodeRel, ConfigRel, Stores, SoundFor, SavesCapture, KvRel, PendingRel;
    HostStores(b, logs, i, p);
    var ss := Tracking(b, logs);
    HostTracked(b, ss, i, p);
    HostFacts(b[i], ss[i], p);
    CaptureSaved(HostAt(b, i, p), LogAt(logs, i, p).log);
  }

  // ---- When actions can happen -----------------------------------------------------------------

  /** Guards say what the code checks and no more: the shape of the node never keeps an action from happening. */
  lemma GuardsAreExact(c: C.State, p: NodeId)
    requires Reachable(c) && p in c.hosts && c.At(p).up
    ensures C.Can(c, C.ElectionTimeout(p)) <==> c.At(p).node.state != Leader
    ensures forall k: C.Packet | k.to == p :: C.Can(c, C.Deliver(k)) <==> k in c.net
    ensures forall q :: C.Can(c, C.ReplicateTo(p, q)) <==> c.At(p).node.state == Leader && q in c.At(p).node.peers
    ensures forall cmd :: C.Can(c, C.ClientPropose(p, cmd)) <==> c.At(p).node.state == Leader
    ensures C.Can(c, C.TakeBatch(p)) <==>
      c.At(p).applier.Idle? && c.At(p).node.pending.None? && c.At(p).node.lastApplied < c.At(p).node.commitIndex
    ensures C.Can(c, C.FinishCapture(p)) <==> c.At(p).applier.Capturing?
  {
    hide Reachable;
    NothingBlocks(c, p);
  }

  // ---- Clients ---------------------------------------------------------------------------------

  /** What the state machine of the host has applied of the history. */
  ghost function Seen(h: C.Host, history: Log): Log {
    if C.Position(h) <= |history| then history[..C.Position(h)] else history
  }

  /** On every host at every moment of every run, a key has the value of the last write to it in the part of the
      one history that the host has applied. */
  lemma ReadsAreLastWrites(b: seq<C.State>, hs: seq<Log>, i: nat, p: NodeId, k: string)
    requires ExplainsRun(b, hs) && Hosted(b, i, p) && i < |hs|
    ensures C.Position(HostAt(b, i, p)) <= |hs[i]|
    ensures LastWriteWins(Seen(HostAt(b, i, p), hs[i]), k, HostAt(b, i, p).kv)
  {
    hide Fold, LastWriteWins;
    assert Explains(b[i], hs[i]);
    FoldIsLastWrite(Seen(b[i].hosts[p], hs[i]), k);
  }

  /** The part of what the host has applied that comes after index i. */
  ghost function SeenAfter(h: C.Host, history: Log, i: nat): Log {
    if i <= |Seen(h, history)| then Seen(h, history)[i..] else []
  }

  /** A write that was acknowledged is what every host reads once it has got there, unless a later entry of the
      history writes the same key. */
  lemma AckedWriteIsRead(b: seq<C.State>, i: nat, j: nat, r: C.Request, p: NodeId) returns (history: Log)
    requires C.Run(b) && i <= j && Hosted(b, j, p) && r in Now(b, i).acked && !r.command.Undecodable?
    requires C.Position(HostAt(b, j, p)) >= r.index
    ensures Explains(Now(b, j), history)
    ensures NeverWritten(SeenAfter(HostAt(b, j, p), history, r.index), r.command.key) ==>
      Lookup(HostAt(b, j, p).kv, r.command.key) == if r.command.Put? then Some(r.command.value) else None
  {
    hide C.Run, Fold, Lookup;
    history := AckedWritesSurvive(b, i, j, r);
    var h, k := b[j].hosts[p], r.command.key;
    var seen := Seen(h, history);
    assert KvIsFold(h, history);
    assert seen[r.index - 1] == EntryOf(r);
    FoldIsLastWrite(seen, k);
    if NeverWritten(SeenAfter(h, history, r.index), k) {
      assert LastWrite(seen, k, r.command);
      assert r.command.Put? ==> r.command == Put(k, r.command.value);
      assert r.command.Delete? ==> r.command == Delete(k);
    }
  }
}
