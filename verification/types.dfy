/** The values RaftDB passes around: node names, commands, log entries. */
module Types {

  datatype Option<+T> = None | Some(value: T)

  /** A member's ID from the cluster configuration. */
  datatype NodeId = NodeId(name: string)

  /** What Raft replicates. A payload that does not decode to a known operation is `Undecodable`;
      it still occupies its slot in the log and is skipped when applied. */
  datatype Command =
    | Put(key: string, value: string)
    | Delete(key: string)
    | Undecodable(payload: string)

  datatype LogEntry = LogEntry(term: nat, index: nat, command: Command)

  /** The entry with log index i sits at position i - 1: a log that was never compacted. */
  type Log = seq<LogEntry>

  datatype Role = Follower | Candidate | Leader

  function Min(a: nat, b: nat): nat { if a <= b then a else b }

  function Max(a: nat, b: nat): nat { if a <= b then b else a }

  /** What crashes between the two writes of an install have done to a node: nothing; perhaps a gap
      between its snapshot and its write-ahead log; or entries that the snapshot overruled are back. */
  datatype Damage = Intact | Gapped | Tainted

  /** After one more such crash. */
  function Damaged(d: Damage, overruled: bool): Damage { if overruled || d.Tainted? then Tainted else Gapped }
}
