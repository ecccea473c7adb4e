/** The key-value store and the server in front of it, as the objects they are. */
module KvServer {
  import opened Types
  import opened KvState
  import C = Cluster

  class Store {
    var m: Kv

    constructor ()
      ensures m == map[]
    {
      m := map[];
    }

    /** Executes one committed command; undecodable ones are skipped by every replica alike. */
    method Apply(cmd: Command)
      modifies this
      ensures m == ApplyCommand(old(m), cmd)
      ensures cmd.Put? ==> Lookup(m, cmd.key) == Some(cmd.value)
      ensures cmd.Delete? ==> Lookup(m, cmd.key) == None
      ensures forall k | !Writes(cmd, k) :: Lookup(m, k) == Lookup(old(m), k)
    {
      match cmd {
        case Put(key, value) => m := m[key := value];
        case Delete(key) => m := m - {key};
        case Undecodable(_) =>
      }
    }

    method Get(key: string) returns (value: Option<string>)
      ensures value == Lookup(m, key)
    {
      if key in m { return Some(m[key]); }
      return None;
    }

    /** SnapshotBytes, with the serializer as a parameter: whatever decodes what it encodes gets this
        store's state back. */
    method Serialize<Data>(encode: Kv -> Data, ghost decode: Data -> Option<Kv>) returns (data: Data)
      requires forall s: Kv :: decode(encode(s)) == Some(s)
      ensures decode(data) == Some(m)
    {
      data := encode(m);
    }

    /** RestoreBytes: replaces the state, or leaves it alone when the data is corrupt. So restoring what
        some store serialized yields that store's state, deleted keys included. */
    method Restore<Data>(decode: Data -> Option<Kv>, data: Data) returns (ok: bool)
      modifies this
      ensures ok <==> decode(data).Some?
      ensures decode(data) == Some(m) || (!ok && m == old(m))
    {
      match decode(data) {
        case None => return false;
        case Some(state) => m := state;
      }
      return true;
    }
  }

  class Server {
    const store: Store
    var waiters: map<nat, C.Request>
    // What clients have been told, for good.
    var acked: set<C.Request>
    var refused: set<C.Request>

    constructor (store: Store)
      ensures this.store == store && waiters == map[] && acked == {} && refused == {}
    {
      this.store := store;
      waiters, acked, refused := map[], {}, {};
    }

    /** A request waits at its own index and has not been answered. */
    ghost predicate Valid()
      reads this
    {
      acked !! refused && forall i | i in waiters :: waiters[i].index == i && waiters[i] !in acked + refused
    }

    /** fireWaiter: the client hears success only if its own (index, term) was applied. */
    method FireWaiter(e: LogEntry)
      requires Valid()
      modifies this
      ensures Valid() && waiters == old(waiters) - {e.index}
      ensures acked == old(acked) + (set r | r in old(waiters).Values && r.index == e.index && r.term == e.term)
      ensures refused == old(refused) + (set r | r in old(waiters).Values && r.index == e.index && r.term != e.term)
    {
      if e.index !in waiters { return; }
      var w := waiters[e.index];
      waiters := waiters - {e.index};
      if w.term == e.term { acked := acked + {w}; } else { refused := refused + {w}; }
    }

    method Apply(e: LogEntry)
      requires Valid()
      modifies this, store
      ensures Valid() && store.m == ApplyCommand(old(store.m), e.command)
      ensures waiters == old(waiters) - {e.index} && acked >= old(acked)
      ensures forall r | r in acked && r !in old(acked) ::
        r.index == e.index && r.term == e.term && r in old(waiters).Values
      // In the terms of the running system:
      ensures forall h: C.Host | h.waiters == old(waiters) :: acked == old(acked) + C.Fired(h, e)
      ensures forall h: C.Host | h.kv == old(store.m) && h.waiters == old(waiters) && h.applier == C.Applying([e], 0) ::
        C.AppliedHost(h).kv == store.m && C.AppliedHost(h).waiters == waiters
    {
      store.Apply(e.command);
      FireWaiter(e);
    }

    /** The applier's loop over a batch: a state that folds the log up to k folds it up to the end of
        the batch, and whoever was acknowledged meanwhile had proposed an entry of the batch. */
    method ApplyBatch(log: Log, k: nat, batch: seq<LogEntry>)
      requires Valid() && k + |batch| <= |log| && batch == log[k..k + |batch|] && store.m == Fold(log[..k])
      modifies this, store
      ensures Valid() && store.m == Fold(log[..k + |batch|])
      ensures forall r | r in acked && r !in old(acked) ::
        r in old(waiters).Values && exists e :: e in batch && e.index == r.index && e.term == r.term
    {
      for i := 0 to |batch|
        invariant Valid() && store.m == Fold(log[..k + i])
        invariant forall j | j in waiters :: j in old(waiters) && waiters[j] == old(waiters)[j]
        invariant forall r | r in acked && r !in old(acked) ::
          r in old(waiters).Values && exists e :: e in batch && e.index == r.index && e.term == r.term
      {
        FoldStep(log, k + i);
        Apply(batch[i]);
      }
    }

    /** The second half of propose: a request that was already waiting at this index was superseded. */
    method Await(r: C.Request)
      requires Valid() && r !in acked && r !in refused && r !in waiters.Values
      modifies this
      ensures Valid() && waiters == old(waiters)[r.index := r] && acked == old(acked)
      ensures refused == old(refused) + (set w | w in old(waiters).Values && w.index == r.index)
    {
      if r.index in waiters { refused := refused + {waiters[r.index]}; }
      waiters := waiters[r.index := r];
    }

    /** The request timed out; nobody is told anything about the entry. */
    method GiveUp(index: nat)
      requires Valid()
      modifies `waiters
      ensures Valid() && waiters == old(waiters) - {index}
    {
      waiters := waiters - {index};
    }
  }
}
