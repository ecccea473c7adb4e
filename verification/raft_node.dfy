/**
 RaftNode as the object it is: fields updated in place, one method per locked region. Each method is
 proved to do to the fields what the corresponding function of NodeState does to the value, so every
 property of the running system is a property of these methods.
 */
module RaftNodeObject {
  import opened Types
  import opened SentinelLog
  import opened WalRecords
  import opened NodeState
  import C = Cluster

  class RaftNode {
    const id: NodeId
    const peers: seq<NodeId>
    const threshold: nat
    var currentTerm: nat
    var votedFor: Option<NodeId>
    var log: seq<LogEntry>
    var commitIndex: nat
    var lastApplied: nat
    var nextIndex: map<NodeId, nat>
    var matchIndex: map<NodeId, nat>
    var state: Role
    var leaderID: Option<NodeId>
    var votes: nat
    var unanswered: set<NodeId>
    var pending: Option<Snapshot>
    var disk: Disk

    /** The node as a value. */
    function View(): Node
      reads this
    {
      Node(id, peers, threshold, currentTerm, votedFor, log, commitIndex, lastApplied, nextIndex, matchIndex, state,
           leaderID, votes, unanswered, pending, disk)
    }

    constructor (id: NodeId, peers: seq<NodeId>, threshold: nat, d: Disk, log: seq<LogEntry>, base: nat)
      ensures View() == Node(id, peers, threshold, d.hard.term, d.hard.vote, log, base, base, map[], map[], Follower,
                             None, 0, {}, None, d)
    {
      this.id, this.peers, this.threshold := id, peers, threshold;
      currentTerm, votedFor := d.hard.term, d.hard.vote;
      this.log, commitIndex, lastApplied := log, base, base;
      nextIndex, matchIndex, state, leaderID := map[], map[], Follower, None;
      votes, unanswered, pending, disk := 0, {}, None, d;
    }

    // ---- Recovery ------------------------------------------------------------------------------

    /** NewNode's walk over the recovered entries. */
    static method FilterEntries(entries: seq<LogEntry>, base: nat) returns (kept: Option<seq<LogEntry>>)
      ensures kept == Beyond(entries, base)
      ensures kept.Some? ==> forall i | 0 <= i < |kept.value| :: kept.value[i].index == base + 1 + i
    {
      var log: seq<LogEntry> := [];
      var want := base + 1;
      for i := 0 to |entries|
        invariant Beyond(entries[..i], base) == Some(log) && want == base + 1 + |log|
        invariant forall j | 0 <= j < |log| :: log[j].index == base + 1 + j
      {
        var e := entries[i];
        assert entries[..i + 1][..i] == entries[..i];
        if e.index > base {
          if e.index != want {
            GapsStay(entries, i + 1, base);
            return None;
          }
          log, want := log + [e], want + 1;
        }
      }
      assert entries[..|entries|] == entries;
      return Some(log);
    }

    /** A gap is not repaired by what comes after it. */
    static lemma GapsStay(entries: seq<LogEntry>, i: nat, base: nat)
      requires i <= |entries| && Beyond(entries[..i], base) == None
      ensures Beyond(entries, base) == None
      decreases |entries| - i
    {
      if i < |entries| {
        assert entries[..i + 1][..i] == entries[..i];
        GapsStay(entries, i + 1, base);
      } else {
        assert entries[..i] == entries;
      }
    }

    /** NewNode, given what the log store loaded. */
    static method NewNode(id: NodeId, peers: seq<NodeId>, threshold: nat, d: Disk, loaded: Option<seq<LogEntry>>)
      returns (node: RaftNode?)
      requires loaded == Replay(d.wal)
      ensures node == null <==> Recover(id, peers, threshold, d) == None
      ensures node != null ==>
        fresh(node) && Some(node.View()) == Recover(id, peers, threshold, d) && Numbered(node.log)
    {
      var base, term := 0, 0;
      if d.snap.Some? { base, term := d.snap.value.lastIndex, d.snap.value.lastTerm; }
      if loaded == None { return null; }
      var kept := FilterEntries(loaded.value, base);
      if kept == None { return null; }
      node := new RaftNode(id, peers, threshold, d, [Sentinel(base, term)] + kept.value, base);
    }

    // ---- The log -------------------------------------------------------------------------------

    method PersistHardState()
      modifies `disk
      ensures View() == Persist(old(View()))
    {
      disk := disk.(hard := HardState(currentTerm, votedFor));
    }

    /** Durable first, then visible. */
    method AppendLog(entries: seq<LogEntry>)
      modifies `log, `disk
      ensures log == old(log) + entries && disk == old(disk).(wal := old(disk).wal + AppendRecords(entries))
    {
      disk := disk.(wal := disk.wal + AppendRecords(entries));
      log := log + entries;
    }

    method TruncateLog(from: nat)
      requires Numbered(log) && Base(log) < from <= LastLogIndex(log)
      modifies `log, `disk
      ensures log == old(log)[..from - Base(old(log))]
      ensures disk == old(disk).(wal := old(disk).wal + [TruncateRecord(from)])
      ensures Numbered(log) && Base(log) == Base(old(log)) && LastLogIndex(log) == from - 1
    {
      disk := disk.(wal := disk.wal + [TruncateRecord(from)]);
      log := log[..from - log[0].index];
    }

    method CompactLog(index: nat, term: nat)
      requires Numbered(log)
      modifies `log, `disk
      ensures index <= Base(old(log)) ==> View() == old(View())
      ensures index > Base(old(log)) ==>
        var suffix := if index < LastLogIndex(old(log)) then EntriesFrom(old(log), index + 1) else [];
        log == [Sentinel(index, term)] + suffix && disk == old(disk).(wal := AppendRecords(suffix))
    {
      if index <= log[0].index { return; }
      var suffix: seq<LogEntry> := [];
      if index < LastLogIndex(log) { suffix := EntriesFrom(log, index + 1); }
      disk := disk.(wal := AppendRecords(suffix));
      log := [Sentinel(index, term)] + suffix;
    }

    // ---- Elections -----------------------------------------------------------------------------

    method StepDown(term: nat)
      modifies this
      ensures View() == BecomeFollower(old(View()), term)
    {
      if term > currentTerm {
        currentTerm := term;
        votedFor := None;
        leaderID := None;
        PersistHardState();
      }
      state := Follower;
    }

    /** The cursors of a fresh leader: optimistic nextIndex, pessimistic matchIndex. */
    method InitialCursors(next: nat) returns (nexts: map<NodeId, nat>, matches: map<NodeId, nat>)
      ensures nexts == map q | q in peers :: next
      ensures matches == map q | q in peers :: 0
    {
      nexts, matches := map[], map[];
      for i := 0 to |peers|
        invariant nexts == map q | q in peers[..i] :: next
        invariant matches == map q | q in peers[..i] :: 0
      {
        assert peers[..i + 1] == peers[..i] + [peers[i]];
        nexts, matches := nexts[peers[i] := next], matches[peers[i] := 0];
      }
      assert peers[..|peers|] == peers;
    }

    /** becomeLeaderLocked. */
    method Lead()
      requires |log| >= 1
      modifies this
      ensures View() == BecomeLeader(old(View()))
    {
      state := Leader;
      leaderID := Some(id);
      nextIndex, matchIndex := InitialCursors(LastLogIndex(log) + 1);
    }

    /** The first half of startElectionLocked: a new term and a durable vote for itself. */
    method BecomeCandidate()
      modifies this
      ensures View() == Persist(old(View()).(state := Candidate, currentTerm := old(currentTerm) + 1,
                                             votedFor := Some(id), leaderID := None))
    {
      state := Candidate;
      currentTerm := currentTerm + 1;
      votedFor := Some(id);
      leaderID := None;
      PersistHardState();
    }

    /** startElectionLocked; returns the request to send to every peer. */
    method Campaign() returns (request: VoteArgs)
      requires |log| >= 1
      modifies this
      ensures View() == StartElection(old(View())) && request == VoteRequestOf(View())
    {
      hide QuorumSize;
      BecomeCandidate();
      request := VoteArgs(currentTerm, id, LastLogIndex(log), LastLogTerm(log));
      votes := 1;
      unanswered := set q | q in peers;
      if votes >= QuorumSize(peers) { Lead(); }
    }

    /** The reply goroutine of one peer. */
    method HandleVoteReply(from: NodeId, term: nat, r: VoteReply)
      requires |log| >= 1
      modifies this
      ensures View() == OnVoteReply(old(View()), from, term, r)
    {
      if r.term > currentTerm {
        StepDown(r.term);
        return;
      }
      if state != Candidate || currentTerm != term || from !in unanswered { return; }
      unanswered := unanswered - {from};
      if r.granted {
        votes := votes + 1;
        if votes == QuorumSize(peers) { Lead(); }
      }
    }

    method HandleRequestVote(a: VoteArgs) returns (reply: VoteReply)
      requires |log| >= 1
      modifies this
      ensures (View(), reply) == OnRequestVote(old(View()), a)
    {
      if a.term > currentTerm { StepDown(a.term); }
      reply := VoteReply(currentTerm, false);
      if a.term < currentTerm { return; }
      var upToDate := a.lastLogTerm > LastLogTerm(log)
        || (a.lastLogTerm == LastLogTerm(log) && a.lastLogIndex >= LastLogIndex(log));
      if !upToDate { return; }
      if votedFor == None || votedFor == Some(a.candidate) {
        votedFor := Some(a.candidate);
        PersistHardState();
        reply := VoteReply(currentTerm, true);
      }
    }
  
    // ---- AppendEntries -------------------------------------------------------------------------

    /** The hint scan: first index of the run of the rejected term, not below the boundary. */
    method ScanBack(prev: nat) returns (first: nat)
      requires Numbered(log) && Base(log) <= prev <= LastLogIndex(log)
      ensures first == FirstOfTerm(log, prev)
    {
      var base, have := log[0].index, TermOf(log, prev);
      first := prev;
      while first > base + 1 && TermOf(log, first - 1) == have
        invariant base <= first <= prev && TermOf(log, first) == have
        invariant FirstOfTerm(log, prev) == FirstOfTerm(log, first)
      {
        first := first - 1;
      }
    }

    /** The part of the walk that skips what the log already holds. */
    method SkipKnown(entries: seq<LogEntry>) returns (i: nat)
      requires Numbered(log)
      ensures i == FirstNew(log, entries)
    {
      var base := log[0].index;
      i := 0;
      while i < |entries|
        invariant i <= |entries| && FirstNew(log, entries) == i + FirstNew(log, entries[i..])
      {
        var e := entries[i];
        assert entries[i..][1..] == entries[i + 1..];
        if e.index <= base {
        } else if e.index <= LastLogIndex(log) && TermOf(log, e.index) == e.term {
        } else {
          return;
        }
        i := i + 1;
      }
    }

    /** The whole walk: truncate at a conflict, append the rest; false stands for the panic. */
    method WriteEntries(entries: seq<LogEntry>) returns (ok: bool)
      requires Numbered(log)
      modifies `log, `disk
      ensures ok <==> !WouldPanic(old(View()), entries)
      ensures ok ==>
        log == Written(old(log), entries) && disk == old(disk).(wal := old(disk).wal + RecordsFor(old(log), entries))
    {
      hide FirstNew, AppendRecords, Written, RecordsFor;
      var i := SkipKnown(entries);
      WalkResult(log, disk.wal, entries, i);
      if i == |entries| { return true; }
      var e := entries[i];
      if e.index <= LastLogIndex(log) {
        if e.index <= commitIndex { return false; }
        TruncateLog(e.index);
      }
      AppendLog(entries[i..]);
      return true;
    }

    /** What the walk leaves in memory and on disk, by where it stops. */
    static lemma WalkResult(log: seq<LogEntry>, wal: seq<WalRecord>, entries: seq<LogEntry>, i: nat)
      requires Numbered(log) && i == FirstNew(log, entries)
      ensures i == |entries| ==> Written(log, entries) == log && wal + RecordsFor(log, entries) == wal
      ensures i < |entries| ==>
        var conflict := entries[i].index <= LastLogIndex(log);
        && Base(log) < entries[i].index && (conflict <==> Conflicts(log, entries))
        && Written(log, entries) == (if conflict then log[..entries[i].index - Base(log)] else log) + entries[i..]
        && wal + RecordsFor(log, entries) ==
          (if conflict then wal + [TruncateRecord(entries[i].index)] else wal) + AppendRecords(entries[i..])
    {
      hide FirstNew, AppendRecords;
    }

    /** Leader contact of the node's own term: follow it. */
    method Follow(leader: NodeId)
      modifies this
      ensures View() == old(View()).(state := Follower, leaderID := Some(leader))
    {
      if state != Follower { StepDown(currentTerm); }
      leaderID := Some(leader);
    }

    /** The consistency check: None to go on, or the rejection with its hints. */
    method CheckPrevious(a: AppendArgs) returns (rejection: Option<AppendReply>)
      requires Numbered(log)
      ensures rejection == Check(log, currentTerm, a)
    {
      if a.prevLogIndex > LastLogIndex(log) { return Some(AppendReply(currentTerm, false, LastLogIndex(log) + 1, 0)); }
      if a.prevLogIndex >= log[0].index {
        var have := TermOf(log, a.prevLogIndex);
        if have != a.prevLogTerm {
          var first := ScanBack(a.prevLogIndex);
          return Some(AppendReply(currentTerm, false, first, have));
        }
      }
      return None;
    }

    /** HandleAppendEntries; None stands for the panic. */
    method HandleAppendEntries(a: AppendArgs) returns (reply: Option<AppendReply>)
      requires Numbered(log)
      modifies this
      ensures match OnAppendEntries(old(View()), a)
        case Panicked => reply == None
        case Replied(n, r) => View() == n && reply == Some(r)
    {
      hide Check, Written, RecordsFor, WouldPanic;
      if a.term > currentTerm { StepDown(a.term); }
      if a.term < currentTerm { return Some(AppendReply(currentTerm, false, 0, 0)); }
      Follow(a.leader);

      var rejection := CheckPrevious(a);
      if rejection.Some? { return rejection; }

      var ok := WriteEntries(a.entries);
      if !ok { return None; }
      if a.leaderCommit > commitIndex {
        var newCommit := Min(a.leaderCommit, a.prevLogIndex + |a.entries|);
        if newCommit > commitIndex { commitIndex := newCommit; }
      }
      return Some(AppendReply(currentTerm, true, 0, 0));
    }

    /** The entries that survive a snapshot. */
    method SuffixBeyond(s: Snapshot) returns (suffix: seq<LogEntry>)
      requires Numbered(log)
      ensures suffix == SurvivingSuffix(log, s)
    {
      hide EntriesFrom, TermOf;
      suffix := [];
      if s.lastIndex <= LastLogIndex(log) && s.lastIndex >= log[0].index && TermOf(log, s.lastIndex) == s.lastTerm {
        suffix := EntriesFrom(log, s.lastIndex + 1);
      }
    }

    method HandleInstallSnapshot(a: SnapshotArgs) returns (reply: SnapshotReply)
      requires Numbered(log)
      modifies this
      ensures (View(), reply) == OnInstallSnapshot(old(View()), a)
    {
      hide SurvivingSuffix;
      if a.term > currentTerm { StepDown(a.term); }
      reply := SnapshotReply(currentTerm);
      if a.term < currentTerm { return; }
      Follow(a.leader);
      if a.snap.lastIndex <= commitIndex { return; }

      var suffix := SuffixBeyond(a.snap);
      disk := disk.(snap := Some(a.snap));
      disk := disk.(wal := AppendRecords(suffix));
      log := [Sentinel(a.snap.lastIndex, a.snap.lastTerm)] + suffix;
      commitIndex := a.snap.lastIndex;
      pending := Some(a.snap);
    }

    // ---- The leader ----------------------------------------------------------------------------

    /** advanceCommitIndexLocked. */
    method AdvanceCommitIndex()
      requires Numbered(log) && Base(log) <= commitIndex
      modifies `commitIndex
      ensures View() == AdvanceCommit(old(View()))
    {
      if state != Leader { return; }
      var n := LastLogIndex(log);
      while n > commitIndex
        invariant commitIndex == old(commitIndex) && 0 <= n <= LastLogIndex(log)
        invariant CommitScan(View(), LastLogIndex(log)) == CommitScan(View(), n)
      {
        if TermOf(log, n) != currentTerm { return; }
        var count := CountHolders(n);
        if count >= QuorumSize(peers) {
          commitIndex := n;
          return;
        }
        n := n - 1;
      }
    }

    /** How many members hold index n, this one included. */
    method CountHolders(n: nat) returns (count: nat)
      ensures count == 1 + CountMatching(peers, matchIndex, n)
    {
      count := 1;
      for i := 0 to |peers|
        invariant count == 1 + CountMatching(peers[..i], matchIndex, n)
      {
        assert peers[..i + 1][..i] == peers[..i];
        if peers[i] in matchIndex && matchIndex[peers[i]] >= n { count := count + 1; }
      }
      assert peers[..|peers|] == peers;
    }

    /** Propose; None when this node is not the leader. */
    method ProposeCommand(command: Command) returns (at: Option<(nat, nat)>)
      requires Numbered(log) && Base(log) <= commitIndex
      modifies `log, `disk, `commitIndex
      ensures state != Leader ==> at == None && View() == old(View())
      ensures state == Leader ==>
        View() == Propose(old(View()), command) && at == Some((LastLogIndex(old(log)) + 1, currentTerm))
    {
      if state != Leader { return None; }
      var index, term := LastLogIndex(log) + 1, currentTerm;
      var e := LogEntry(term, index, command);
      OneRecord(e);
      AppendLog([e]);
      AdvanceCommitIndex();
      return Some((index, term));
    }

    static lemma OneRecord(e: LogEntry)
      ensures AppendRecords([e]) == [AppendRecord(e)]
    {
    }

    /** replicationRound: the request to each peer, None where the peer gets a snapshot; and nothing at
        all when this node no longer leads `term`. */
    method ReplicationRound(term: nat) returns (sent: Option<seq<Option<AppendArgs>>>)
      requires Formed(View())
      requires state == Leader ==> forall q | q in peers :: 1 <= nextIndex[q] <= LastLogIndex(log) + 1
      ensures sent.Some? <==> state == Leader && currentTerm == term
      ensures sent.Some? ==>
        && |sent.value| == |peers|
        && forall i | 0 <= i < |peers| ::
          match Outbound(View(), peers[i])
          case SendEntries(args) => sent.value[i] == Some(args)
          case _ => sent.value[i] == None
    {
      if state != Leader || currentTerm != term { return None; }
      var base := log[0].index;
      var msgs: seq<Option<AppendArgs>> := [];
      for i := 0 to |peers|
        invariant |msgs| == i
        invariant forall j | 0 <= j < i ::
          match Outbound(View(), peers[j])
          case SendEntries(args) => msgs[j] == Some(args)
          case _ => msgs[j] == None
      {
        var next := nextIndex[peers[i]];
        if next <= base {
          msgs := msgs + [None];
        } else {
          var prev := next - 1;
          msgs := msgs + [Some(AppendArgs(term, id, prev, TermOf(log, prev), EntriesFrom(log, next), commitIndex))];
        }
      }
      return Some(msgs);
    }

    /** The first half of sendSnapshot: whatever snapshot is on disk now, under the given term. While the
        node leads that term, this is what the running system sends to a peer below the boundary. */
    method LoadForSend(term: nat) returns (args: Option<SnapshotArgs>)
      ensures args.Some? <==> disk.snap.Some?
      ensures args.Some? ==> args.value.term == term && args.value.leader == id && disk.snap == Some(args.value.snap)
      ensures forall q | Numbered(log) && q in nextIndex && 1 <= nextIndex[q] <= Base(log) && currentTerm == term ::
        Outbound(View(), q) == match args case None => Nothing case Some(a) => SendSnapshot(a)
    {
      match disk.snap {
        case None => return None;
        case Some(s) => return Some(SnapshotArgs(term, id, s));
      }
    }

    /** nextIndexAfterRejection. */
    static method RetryIndex(log: seq<LogEntry>, prevLogIndex: nat, r: AppendReply) returns (next: nat)
      requires |log| >= 1
      ensures next == NextIndexAfterRejection(log, prevLogIndex, r)
    {
      if r.conflictTerm == 0 {
        if r.conflictIndex >= 1 { return r.conflictIndex; }
        if prevLogIndex >= 1 { return prevLogIndex; }
        return 1;
      }
      var i := |log| - 1;
      while i >= 1
        invariant 0 <= i < |log| && LastOfTerm(log, r.conflictTerm, |log| - 1) == LastOfTerm(log, r.conflictTerm, i)
      {
        if log[i].term == r.conflictTerm { return log[i].index + 1; }
        if log[i].term < r.conflictTerm { break; }
        i := i - 1;
      }
      return r.conflictIndex;
    }

    method HandleAppendEntriesReply(peer: NodeId, a: AppendArgs, r: AppendReply)
      requires Formed(View())
      modifies this
      ensures View() == OnAppendReply(old(View()), peer, a, r)
    {
      if r.term > currentTerm {
        StepDown(r.term);
        return;
      }
      if state != Leader || currentTerm != a.term || peer !in peers { return; }
      if r.success {
        var matched := a.prevLogIndex + |a.entries|;
        if matched > matchIndex[peer] {
          matchIndex := matchIndex[peer := matched];
          nextIndex := nextIndex[peer := matched + 1];
          AdvanceCommitIndex();
        }
        return;
      }
      var next := RetryIndex(log, a.prevLogIndex, r);
      if next < nextIndex[peer] { nextIndex := nextIndex[peer := next]; }
    }

    method HandleSnapshotReply(peer: NodeId, a: SnapshotArgs, r: SnapshotReply)
      requires Formed(View())
      modifies this
      ensures View() == OnSnapshotReply(old(View()), peer, a, r)
    {
      if r.term > currentTerm {
        StepDown(r.term);
        return;
      }
      if state != Leader || currentTerm != a.term || peer !in peers { return; }
      if a.snap.lastIndex > matchIndex[peer] {
        matchIndex := matchIndex[peer := a.snap.lastIndex];
        nextIndex := nextIndex[peer := a.snap.lastIndex + 1];
      }
    }
  
    // ---- The applier's locked stretches --------------------------------------------------------

    /** Takes the parked snapshot; the result is what has to be restored, if anything. */
    method TakePending() returns (restore: Option<Snapshot>)
      requires pending.Some?
      modifies `pending
      ensures var h := C.SnapshotTaken(C.Host(old(View()), map[], C.Idle, {}, map[], Intact, true));
        View() == h.node && h.applier == (match restore case None => C.Idle case Some(s) => C.Restoring(s))
    {
      var s := pending.value;
      pending := None;
      return if s.lastIndex > lastApplied then Some(s) else None;
    }

    method FinishRestore(s: Snapshot)
      modifies `lastApplied
      ensures View() == C.Restored(C.Host(old(View()), map[], C.Restoring(s), {}, map[], Intact, true)).node
    {
      lastApplied := s.lastIndex;
    }

    /** The committed entries that have not been applied yet, in order. */
    method TakeBatch() returns (batch: seq<LogEntry>)
      requires Numbered(log) && Base(log) <= lastApplied <= commitIndex <= LastLogIndex(log)
      ensures batch == C.Batch(View()) && |batch| == commitIndex - lastApplied
      ensures forall i | 0 <= i < |batch| :: batch[i].index == lastApplied + 1 + i
    {
      batch := EntriesFrom(log, lastApplied + 1);
      batch := batch[..commitIndex - lastApplied];
    }

    /** Accounts for the batch and decides whether to snapshot; OutOfRange is the index panic. */
    method FinishBatch(batch: seq<LogEntry>) returns (trigger: Trigger)
      requires Numbered(log)
      modifies `lastApplied
      ensures View() == old(View()).(lastApplied := old(lastApplied) + |batch|) && trigger == SnapshotTrigger(View())
      ensures !trigger.OutOfRange? ==>
        C.BatchFinished(C.Host(old(View()), map[], C.Applying(batch, |batch|), {}, map[], Intact, true)).node == View()
    {
      lastApplied := lastApplied + |batch|;
      if threshold == 0 || WrappingSub(lastApplied, log[0].index) < threshold { return Skip; }
      if log[0].index <= lastApplied <= LastLogIndex(log) { return Capture(lastApplied, TermOf(log, lastApplied)); }
      return OutOfRange;
    }

    /** The rest of maybeSnapshotLocked, with the serialized state machine. */
    method FinishCapture(index: nat, term: nat, data: map<string, string>)
      requires Numbered(log)
      modifies `log, `disk
      ensures View() ==
        C.CaptureFinished(C.Host(old(View()), data, C.Capturing(index, term), {}, map[], Intact, true)).node
    {
      hide AppendRecords, EntriesFrom;
      if index <= log[0].index { return; }
      disk := disk.(snap := Some(Snapshot(index, term, data)));
      CompactLog(index, term);
    }
  }
}
