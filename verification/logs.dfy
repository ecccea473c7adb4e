/** Uncompacted logs and the agreement relation everything else is stated in. */
module Logs {
  import opened Types

  /** The term of the entry with index i; 0 before the first entry. */
  function TermAt(log: Log, i: nat): nat
    requires i <= |log|
  {
    if i == 0 then 0 else log[i - 1].term
  }

  function LastTerm(log: Log): nat { TermAt(log, |log|) }

  /** Both logs reach index n and hold the same entries up to it. */
  ghost predicate Agree(a: Log, b: Log, n: nat) {
    n <= |a| && n <= |b| && forall i | 0 <= i < n :: a[i] == b[i]
  }

  /** Both logs reach index k and have the same term there. */
  ghost predicate SameTerm(x: Log, y: Log, k: nat) { k <= |x| && k <= |y| && TermAt(x, k) == TermAt(y, k) }

  ghost predicate Includes(log: Log, m: Log) { Agree(m, log, |m|) }

  /** Terms do not decrease after the first k entries. */
  ghost predicate SortedFrom(log: Log, k: nat) { forall i, j | k <= i < j < |log| :: log[i].term <= log[j].term }

  ghost predicate Sorted(log: Log) { SortedFrom(log, 0) }

  /** What a log becomes when a leader's prefix m is written over it: entries already held are kept,
      and anything that disagrees with the leader is replaced. */
  ghost function Merge(log: Log, m: Log): Log {
    if Includes(log, m) then log else m
  }

  /** (term, index) comparison of the election restriction: a candidate's log ending in
      (lastTerm, lastIndex) is at least as up to date as `log`. */
  predicate UpToDate(lastTerm: nat, lastIndex: nat, log: Log) {
    lastTerm > LastTerm(log) || (lastTerm == LastTerm(log) && lastIndex >= |log|)
  }

  /** A set of nodes that outnumbers the rest of the membership. */
  ghost predicate Quorum(members: set<NodeId>, q: set<NodeId>) {
    q <= members && 2 * |q| > |members|
  }

  lemma QuorumsMeet(members: set<NodeId>, a: set<NodeId>, b: set<NodeId>) returns (m: NodeId)
    requires Quorum(members, a) && Quorum(members, b)
    ensures m in a && m in b
  {
    if a * b == {} {
      SubsetSize(a + b, members);
      assert false;
    }
    m :| m in a * b;
  }

  lemma SubsetSize<T>(a: set<T>, b: set<T>)
    requires a <= b
    ensures |a| <= |b|
  {
    assert b == a + (b - a);
  }
}
