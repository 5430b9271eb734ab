/** Raft logs, without compaction: index 0 holds the dummy entry every log starts with. */
module RaftLog {
  import opened KvStore

  /** What the replicated service puts in an entry; the dummy entry holds `Nil`. */
  datatype Command = Nil | Op(id: OpId, req: Request)

  /** Which `Submit` an operation comes from: the server, its incarnation and a counter. */
  datatype OpId = OpId(server: nat, epoch: nat, sequence: nat)

  datatype Entry = Entry(term: nat, cmd: Command)

  const DUMMY := Entry(0, Nil)

  type Log = l: seq<Entry> | |l| > 0 witness [DUMMY]

  function LastTerm(l: Log): nat {
    l[|l| - 1].term
  }

  /** The vote check: a candidate log ending at (lastTerm, lastIndex) is at least as good as `l`. */
  predicate UpToDate(lastTerm: nat, lastIndex: nat, l: Log) {
    lastTerm > LastTerm(l) || (lastTerm == LastTerm(l) && lastIndex >= |l| - 1)
  }

  /** `a` and `b` both reach index `k` and hold the same entries up to it. */
  predicate Agree(a: Log, b: Log, k: nat) {
    k < |a| && k < |b| && forall j :: 0 <= j <= k ==> a[j] == b[j]
  }

  predicate Sorted(l: Log) {
    forall i, j :: 0 <= i <= j < |l| ==> l[i].term <= l[j].term
  }

  /** What a follower's log becomes when it accepts the prefix `p` of the leader's log:
      nothing is dropped when `p` is already there. */
  function Adopt(l: Log, p: Log): Log {
    if p <= l then l else p
  }

  predicate IsQuorum(n: nat, q: set<nat>) {
    (forall s <- q :: s < n) && 2 * |q| > n
  }

  function Range(n: nat): (r: set<nat>)
    ensures forall i: nat :: i in r <==> i < n
    ensures |r| == n
  {
    if n == 0 then {} else Range(n - 1) + {n - 1}
  }

  lemma QuorumsMeet(n: nat, a: set<nat>, b: set<nat>) returns (s: nat)
    requires IsQuorum(n, a) && IsQuorum(n, b)
    ensures s in a && s in b
  {
    SubsetSize(a + b, Range(n));
    assert |a + b| == |a| + |b| - |a * b|;
    s :| s in a * b;
  }

  lemma AgreeTrans(a: Log, b: Log, c: Log, k: nat, m: nat)
    requires Agree(a, b, k) && Agree(b, c, m)
    ensures Agree(a, c, if k <= m then k else m)
  {
  }

  lemma SubsetSize(a: set<nat>, b: set<nat>)
    requires a <= b
    ensures |a| <= |b|
  {
    assert b == a + (b - a);
  }
}
