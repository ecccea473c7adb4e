/** The replicated state machine: a map, and the value it has after a sequence of commands. */
module KvState {
  import opened Types

  type Kv = map<string, string>

  /** One committed command; a payload that does not decode changes nothing. */
  function ApplyCommand(m: Kv, c: Command): Kv {
    match c
    case Put(k, v) => m[k := v]
    case Delete(k) => m - {k}
    case Undecodable(_) => m
  }

  function Lookup(m: Kv, k: string): Option<string> { if k in m then Some(m[k]) else None }

  predicate Writes(c: Command, k: string) { (c.Put? && c.key == k) || c == Delete(k) }

  /** A command sets or removes its own key and leaves every other one alone. */
  lemma CommandEffect(m: Kv, c: Command)
    ensures c.Put? ==> Lookup(ApplyCommand(m, c), c.key) == Some(c.value)
    ensures c.Delete? ==> Lookup(ApplyCommand(m, c), c.key) == None
    ensures forall k | !Writes(c, k) :: Lookup(ApplyCommand(m, c), k) == Lookup(m, k)
  {
  }

  /** The map after applying a whole log from the empty map. */
  function Fold(log: Log): Kv {
    if log == [] then map[] else ApplyCommand(Fold(log[..|log| - 1]), log[|log| - 1].command)
  }

  lemma FoldStep(log: Log, i: nat)
    requires i < |log|
    ensures Fold(log[..i + 1]) == ApplyCommand(Fold(log[..i]), log[i].command)
  {
    assert log[..i + 1][..i] == log[..i];
  }

  /** The last command in the log that writes key k is c. */
  predicate LastWrite(log: Log, k: string, c: Command) {
    Writes(c, k) && exists i :: 0 <= i < |log| && log[i].command == c && NeverWritten(log[i + 1..], k)
  }

  predicate NeverWritten(log: Log, k: string) { forall i | 0 <= i < |log| :: !Writes(log[i].command, k) }

  /** The last write wins: a key has value v if and only if the last write to it put v there, and none if and
      only if it was never written or last deleted. */
  ghost predicate LastWriteWins(log: Log, k: string, m: Kv) {
    && (forall v :: Lookup(m, k) == Some(v) <==> LastWrite(log, k, Put(k, v)))
    && (Lookup(m, k) == None <==> NeverWritten(log, k) || LastWrite(log, k, Delete(k)))
  }

  lemma {:induction false} FoldIsLastWrite(log: Log, k: string)
    ensures LastWriteWins(log, k, Fold(log))
  {
    hide LastWrite, NeverWritten, ApplyCommand, Lookup;
    if log == [] {
      UnwrittenMap(k);
    } else {
      var rest, c := log[..|log| - 1], log[|log| - 1].command;
      FoldIsLastWrite(rest, k);
      CommandEffect(Fold(rest), c);
      NextWrite(rest, log[|log| - 1], k);
      assert log == rest + [log[|log| - 1]];
    }
  }

  lemma UnwrittenMap(k: string)
    ensures LastWriteWins([], k, map[])
  {
  }

  /** One more entry is the last write if it writes the key; otherwise the last write is what it was. */
  lemma NextWrite(log: Log, e: LogEntry, k: string)
    ensures forall c :: LastWrite(log + [e], k, c) <==>
      if Writes(e.command, k) then c == e.command else LastWrite(log, k, c)
    ensures NeverWritten(log + [e], k) <==> NeverWritten(log, k) && !Writes(e.command, k)
  {
    hide Writes;
    var more := log + [e];
    assert more[|log|] == e;
    assert forall i | 0 <= i < |log| :: more[i] == log[i];
    forall c
      ensures LastWrite(more, k, c) <==> if Writes(e.command, k) then c == e.command else LastWrite(log, k, c)
    {
      if LastWrite(log, k, c) && !Writes(e.command, k) {
        var i :| 0 <= i < |log| && log[i].command == c && NeverWritten(log[i + 1..], k);
        assert more[i].command == c && more[i + 1..] == log[i + 1..] + [e];
      }
    }
  }
}
