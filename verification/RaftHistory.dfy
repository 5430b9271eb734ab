/** The protocol's history: what candidates, voters, leaders and followers have done so far.
    It only grows. The safety argument of Raft (Election Safety, Log Matching, Leader
    Completeness, State Machine Safety) is carried out on it, on uncompacted logs. */
module RaftHistory {
  import opened RaftLog

  /** A vote, with the voter's log at the time. */
  datatype Ballot = Ballot(candidate: nat, log: Log)

  /** One term's leadership: who led, with which log it started, the longest log it had,
      and the voters that elected it. */
  datatype Reign = Reign(leader: nat, start: Log, log: Log, quorum: set<nat>)

  /** The one index and the one entry an operation may have in any log. */
  datatype Placement = Placement(index: nat, entry: Entry)

  datatype History = History(
    n: nat,
    candidacies: map<(nat, nat), Log>,  // (term, candidate) -> its log
    ballots: map<(nat, nat), Ballot>,   // (term, voter)
    reigns: map<nat, Reign>,            // by term
    acks: map<(nat, nat), nat>,         // (term, follower) -> highest index it has confirmed
    ops: map<OpId, Placement>)          // started operations: the only place each may have

  predicate Placed(h: History, e: Entry, k: nat) {
    e.cmd.Op? && e.cmd.id in h.ops && h.ops[e.cmd.id] == Placement(k, e)
  }

  predicate Acked(h: History, t: nat, q: nat, k: nat) {
    (t, q) in h.acks && k <= h.acks[(t, q)]
  }

  /** `l` holds everything the leader of `t` had through index `k`. */
  predicate Has(h: History, l: Log, t: nat, k: nat) {
    t in h.reigns && Agree(l, h.reigns[t].log, k)
  }

  /** Every entry of `l` was put there by the leader of its term, with that leader's prefix. */
  predicate Grounded(h: History, l: Log) {
    l[0] == DUMMY && forall k :: 0 < k < |l| ==> GroundedAt(h, l, k)
  }

  predicate GroundedAt(h: History, l: Log, k: nat)
    requires k < |l|
  {
    Has(h, l, l[k].term, k)
  }

  /** `l` holds what was acknowledged at (t, k), unless a leader of a term in (t, bound]
      had started without it. */
  ghost predicate Kept(h: History, l: Log, t: nat, k: nat, bound: int) {
    Has(h, l, t, k) || exists w :: t < w <= bound && Dropped(h, w, t, k)
  }

  predicate Dropped(h: History, w: nat, t: nat, k: nat) {
    w in h.reigns && !Has(h, h.reigns[w].start, t, k)
  }

  /** The current-term majority rule: index `k` was confirmed by a majority in term `t`
      and the leader of `t` created that entry itself. */
  ghost predicate Committed(h: History, t: nat, k: nat) {
    && t in h.reigns && k < |h.reigns[t].log| && h.reigns[t].log[k].term == t
    && exists q :: IsQuorum(h.n, q) && AllAcked(h, t, q, k)
  }

  predicate AllAcked(h: History, t: nat, q: set<nat>, k: nat) {
    forall s <- q :: Acked(h, t, s, k)
  }

  /** `l` up to index `c` is a prefix of something committed in a term no later than `bound`. */
  ghost predicate Chosen(h: History, l: Log, c: nat, bound: nat) {
    && c < |l| && l[0] == DUMMY
    && (c == 0 || exists t, k :: ChosenBy(h, l, c, bound, t, k))
  }

  ghost predicate ChosenBy(h: History, l: Log, c: nat, bound: nat, t: nat, k: nat) {
    t <= bound && c <= k && Committed(h, t, k) && Agree(l, h.reigns[t].log, c)
  }

  // ----- the invariant of the history -----

  predicate ReignOk(h: History, t: nat)
    requires t in h.reigns
  {
    var r := h.reigns[t];
    && r.leader < h.n
    && Agree(r.start, r.log, |r.start| - 1)
    && LastTerm(r.start) < t
    && (forall k :: |r.start| <= k < |r.log| ==> r.log[k].term == t)
    && (forall k: nat {:trigger Placed(h, r.log[k], k)} :: 0 < k < |r.log| ==> Placed(h, r.log[k], k))
    && Sorted(r.log)
    && Grounded(h, r.log)
  }

  predicate ElectionOk(h: History, t: nat)
    requires t in h.reigns
  {
    var r := h.reigns[t];
    && (t, r.leader) in h.candidacies && h.candidacies[(t, r.leader)] == r.start
    && IsQuorum(h.n, r.quorum)
    && forall v <- r.quorum :: (t, v) in h.ballots && h.ballots[(t, v)].candidate == r.leader
  }

  predicate CandidacyOk(h: History, t: nat, c: nat)
    requires (t, c) in h.candidacies
  {
    Grounded(h, h.candidacies[(t, c)]) && LastTerm(h.candidacies[(t, c)]) < t
  }

  predicate BallotOk(h: History, t: nat, v: nat)
    requires (t, v) in h.ballots
  {
    var b := h.ballots[(t, v)];
    && Grounded(h, b.log)
    && (t, b.candidate) in h.candidacies
    && var l := h.candidacies[(t, b.candidate)];
       UpToDate(LastTerm(l), |l| - 1, b.log)
  }

  /** A vote that elected, or may still elect, a leader of `t` was cast by a log that
      kept what its owner had acknowledged. */
  ghost predicate BallotKeeps(h: History, t: nat, v: nat)
    requires (t, v) in h.ballots
  {
    t !in h.reigns || v in h.reigns[t].quorum ==>
      forall t': nat, k: nat :: t' < t && Acked(h, t', v, k) ==> Kept(h, h.ballots[(t, v)].log, t', k, t - 1)
  }

  predicate AckOk(h: History, t: nat, q: nat)
    requires (t, q) in h.acks
  {
    t in h.reigns && h.acks[(t, q)] < |h.reigns[t].log|
  }

  ghost predicate HistoryInv(h: History) {
    && (forall t {:trigger ReignOk(h, t)} :: t in h.reigns ==> ReignOk(h, t))
    && (forall t {:trigger ElectionOk(h, t)} :: t in h.reigns ==> ElectionOk(h, t))
    && (forall t, c {:trigger CandidacyOk(h, t, c)} :: (t, c) in h.candidacies ==> CandidacyOk(h, t, c))
    && (forall t, v {:trigger BallotOk(h, t, v)} :: (t, v) in h.ballots ==> BallotOk(h, t, v))
    && (forall t, v {:trigger BallotKeeps(h, t, v)} :: (t, v) in h.ballots ==> BallotKeeps(h, t, v))
    && (forall t, q {:trigger AckOk(h, t, q)} :: (t, q) in h.acks ==> AckOk(h, t, q))
  }

  // ----- consequences -----

  lemma GroundedSorted(h: History, l: Log)
    requires HistoryInv(h) && Grounded(h, l)
    ensures Sorted(l)
  {
    forall i, j | 0 <= i <= j < |l| ensures l[i].term <= l[j].term {
      if j > 0 {
        var t := l[j].term;
        assert GroundedAt(h, l, j) && ReignOk(h, t);
        assert h.reigns[t].log[i] == l[i] && h.reigns[t].log[j] == l[j];
      }
    }
  }

  /** Log Matching: the same term at the same index means the same entries up to it. */
  lemma LogMatching(h: History, a: Log, b: Log, k: nat)
    requires Grounded(h, a) && Grounded(h, b)
    requires k < |a| && k < |b| && a[k].term == b[k].term
    ensures Agree(a, b, k)
  {
    if k > 0 {
      assert GroundedAt(h, a, k) && GroundedAt(h, b, k);
    }
  }

  /** A candidate log that is up to date with a voter's log holds what the voter's log holds
      of an entry its own leader created, given that the leaders in between hold it. */
  lemma UpToDateHas(h: History, c: Log, v: Log, u: nat, t: nat, k: nat)
    requires HistoryInv(h) && Grounded(h, c) && Grounded(h, v) && LastTerm(c) < u
    requires UpToDate(LastTerm(c), |c| - 1, v)
    requires Has(h, v, t, k) && h.reigns[t].log[k].term == t
    requires forall w :: t < w < u ==> !Dropped(h, w, t, k)
    ensures Has(h, c, t, k)
  {
    GroundedSorted(h, c);
    GroundedSorted(h, v);
    assert v[k].term == t;
    var last := |c| - 1;
    var r := LastTerm(c);
    assert r >= LastTerm(v) >= t;
    assert t > 0 by { assert ReignOk(h, t); }
    assert last > 0 by { assert c[0] == DUMMY; }
    assert GroundedAt(h, c, last);
    if r == LastTerm(v) {
      var m := |v| - 1;
      assert m > 0;
      assert GroundedAt(h, v, m);
      assert k <= m <= last;
      assert Agree(c, v, k);
    } else {
      assert !Dropped(h, r, t, k);
      var reign := h.reigns[r];
      assert ReignOk(h, r);
      assert Agree(reign.start, h.reigns[t].log, k);
      assert Agree(reign.log, h.reigns[t].log, k);
      assert reign.log[last].term == r > t == reign.log[k].term;
      assert k < last;
    }
  }

  /** Leader Completeness: what the current-term majority rule commits in term `t` is in the
      log every leader of a later term starts with. */
  lemma {:induction false} LeaderCompleteness(h: History, t: nat, k: nat, u: nat)
    requires HistoryInv(h) && Committed(h, t, k) && u in h.reigns && t < u
    ensures Has(h, h.reigns[u].start, t, k)
    decreases u
  {
    var q :| IsQuorum(h.n, q) && AllAcked(h, t, q, k);
    var r := h.reigns[u];
    assert ReignOk(h, u) && ElectionOk(h, u);
    var v := QuorumsMeet(h.n, q, r.quorum);
    assert Acked(h, t, v, k);
    var b := h.ballots[(u, v)];
    assert BallotOk(h, u, v) && BallotKeeps(h, u, v);
    assert Kept(h, b.log, t, k, u - 1);
    forall w | t < w < u ensures !Dropped(h, w, t, k) {
      if w in h.reigns { LeaderCompleteness(h, t, k, w); }
    }
    assert Has(h, b.log, t, k);
    assert CandidacyOk(h, u, r.leader);
    UpToDateHas(h, r.start, b.log, u, t, k);
  }

  lemma CommittedInLeader(h: History, t: nat, k: nat, u: nat)
    requires HistoryInv(h) && Committed(h, t, k) && u in h.reigns && t <= u
    ensures Agree(h.reigns[t].log, h.reigns[u].log, k)
  {
    if t < u {
      LeaderCompleteness(h, t, k, u);
      assert ReignOk(h, u);
      var r := h.reigns[u];
      assert k <= |r.start| - 1;
      AgreeTrans(h.reigns[t].log, r.start, r.log, k, |r.start| - 1);
    }
  }

  /** A chosen prefix is a prefix of the log of every leader of its term bound or later. */
  lemma ChosenInLeader(h: History, l: Log, c: nat, bound: nat, u: nat)
    requires HistoryInv(h) && Chosen(h, l, c, bound) && bound <= u && u in h.reigns
    ensures Agree(l, h.reigns[u].log, c)
  {
    if c > 0 {
      var t, k :| ChosenBy(h, l, c, bound, t, k);
      CommittedInLeader(h, t, k, u);
      AgreeTrans(l, h.reigns[t].log, h.reigns[u].log, c, k);
    } else {
      assert ReignOk(h, u);
    }
  }

  /** State Machine Safety: of two chosen prefixes, the shorter one is a prefix of the longer. */
  lemma ChosenAgree(h: History, a: Log, c: nat, boundA: nat, b: Log, d: nat, boundB: nat)
    requires HistoryInv(h) && Chosen(h, a, c, boundA) && Chosen(h, b, d, boundB) && c <= d
    ensures Agree(a, b, c)
  {
    if c > 0 {
      var t, k :| ChosenBy(h, a, c, boundA, t, k);
      var u, m :| ChosenBy(h, b, d, boundB, u, m);
      var top := if t <= u then u else t;
      CommittedInLeader(h, t, k, top);
      CommittedInLeader(h, u, m, top);
      AgreeTrans(a, h.reigns[t].log, h.reigns[top].log, c, k);
      AgreeTrans(b, h.reigns[u].log, h.reigns[top].log, d, m);
    }
  }
}
