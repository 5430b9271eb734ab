/** How the history grows, and that what it has established stays established. */
module RaftGrowth {
  import opened RaftLog
  import opened RaftHistory

  ghost predicate Extends(h: History, h': History) {
    && h'.n == h.n
    && (forall id {:trigger id in h'.ops} :: id in h.ops ==> id in h'.ops && h'.ops[id] == h.ops[id])
    && (forall key :: key in h.candidacies ==> key in h'.candidacies && h'.candidacies[key] == h.candidacies[key])
    && (forall key :: key in h.ballots ==> key in h'.ballots && h'.ballots[key] == h.ballots[key])
    && (forall t :: t in h.reigns ==> t in h'.reigns && ReignExtends(h.reigns[t], h'.reigns[t]))
    && (forall key :: key in h.acks ==> key in h'.acks && h.acks[key] <= h'.acks[key])
  }

  predicate ReignExtends(r: Reign, r': Reign) {
    r'.leader == r.leader && r'.start == r.start && r'.quorum == r.quorum && Agree(r.log, r'.log, |r.log| - 1)
  }

  /** Everything new in `h'` was done by server `i`. */
  ghost predicate OnlyBy(h: History, h': History, i: nat) {
    && (forall t, c :: (t, c) in h'.candidacies && c != i ==> (t, c) in h.candidacies)
    && (forall t, v :: (t, v) in h'.ballots && v != i ==> (t, v) in h.ballots)
    && (forall t :: t in h'.reigns && h'.reigns[t].leader != i ==> t in h.reigns && h'.reigns[t] == h.reigns[t])
    && (forall t, q :: (t, q) in h'.acks && q != i ==> (t, q) in h.acks && h'.acks[(t, q)] == h.acks[(t, q)])
  }

  lemma ExtendsRefl(h: History)
    ensures Extends(h, h)
  {
  }

  lemma ExtendsTrans(a: History, b: History, c: History)
    requires Extends(a, b) && Extends(b, c)
    ensures Extends(a, c)
  {
    forall t | t in a.reigns ensures t in c.reigns && ReignExtends(a.reigns[t], c.reigns[t]) {
      assert ReignExtends(a.reigns[t], b.reigns[t]) && ReignExtends(b.reigns[t], c.reigns[t]);
    }
    forall id | id in a.ops ensures id in c.ops && c.ops[id] == a.ops[id] {
      assert id in b.ops && b.ops[id] == a.ops[id];
    }
  }

  lemma HasGrows(h: History, h': History, l: Log, t: nat, k: nat)
    requires Extends(h, h') && Has(h, l, t, k)
    ensures Has(h', l, t, k)
  {
    assert ReignExtends(h.reigns[t], h'.reigns[t]);
  }

  lemma HasShrinks(h: History, h': History, l: Log, t: nat, k: nat)
    requires Extends(h, h') && t in h.reigns && k < |h.reigns[t].log| && Has(h', l, t, k)
    ensures Has(h, l, t, k)
  {
    assert ReignExtends(h.reigns[t], h'.reigns[t]);
  }

  lemma GroundedGrows(h: History, h': History, l: Log)
    requires Extends(h, h') && Grounded(h, l)
    ensures Grounded(h', l)
  {
    forall k | 0 < k < |l| ensures GroundedAt(h', l, k) {
      assert GroundedAt(h, l, k);
      HasGrows(h, h', l, l[k].term, k);
    }
  }

  lemma KeptGrows(h: History, h': History, l: Log, t: nat, k: nat, bound: int, bound': int)
    requires Extends(h, h') && t in h.reigns && k < |h.reigns[t].log|
    requires Kept(h, l, t, k, bound) && bound <= bound'
    ensures Kept(h', l, t, k, bound')
  {
    if Has(h, l, t, k) {
      HasGrows(h, h', l, t, k);
    } else {
      var w :| t < w <= bound && Dropped(h, w, t, k);
      assert ReignExtends(h.reigns[w], h'.reigns[w]);
      if Has(h', h.reigns[w].start, t, k) { HasShrinks(h, h', h.reigns[w].start, t, k); }
      assert Dropped(h', w, t, k);
    }
  }

  lemma CommittedGrows(h: History, h': History, t: nat, k: nat)
    requires Extends(h, h') && Committed(h, t, k)
    ensures Committed(h', t, k)
  {
    assert ReignExtends(h.reigns[t], h'.reigns[t]);
    var q :| IsQuorum(h.n, q) && AllAcked(h, t, q, k);
    forall s | s in q ensures Acked(h', t, s, k) { assert Acked(h, t, s, k); }
    assert AllAcked(h', t, q, k);
  }

  lemma ChosenGrows(h: History, h': History, l: Log, c: nat, bound: nat, bound': nat)
    requires Extends(h, h') && Chosen(h, l, c, bound) && bound <= bound'
    ensures Chosen(h', l, c, bound')
  {
    if c > 0 {
      var t, k :| ChosenBy(h, l, c, bound, t, k);
      CommittedGrows(h, h', t, k);
      assert ReignExtends(h.reigns[t], h'.reigns[t]);
      assert ChosenBy(h', l, c, bound', t, k);
    }
  }

  /** A chosen prefix stays chosen in any log that agrees with it. */
  lemma ChosenAgrees(h: History, l: Log, c: nat, bound: nat, l': Log, c': nat)
    requires Chosen(h, l, c, bound) && c' <= c && Agree(l, l', c')
    ensures Chosen(h, l', c', bound)
  {
    if c' > 0 {
      var t, k :| ChosenBy(h, l, c, bound, t, k);
      assert ChosenBy(h, l', c', bound, t, k);
    }
  }

  lemma ReignStays(h: History, h': History, t: nat)
    requires Extends(h, h') && t in h.reigns && h'.reigns[t] == h.reigns[t] && ReignOk(h, t)
    ensures ReignOk(h', t)
  {
    GroundedGrows(h, h', h.reigns[t].log);
    forall k: nat | 0 < k < |h'.reigns[t].log| ensures Placed(h', h'.reigns[t].log[k], k) {
      assert Placed(h, h.reigns[t].log[k], k);
    }
  }

  lemma ElectionStays(h: History, h': History, t: nat)
    requires Extends(h, h') && t in h.reigns && ElectionOk(h, t)
    ensures ElectionOk(h', t)
  {
    assert ReignExtends(h.reigns[t], h'.reigns[t]);
  }

  lemma CandidacyStays(h: History, h': History, t: nat, c: nat)
    requires Extends(h, h') && (t, c) in h.candidacies && CandidacyOk(h, t, c)
    ensures CandidacyOk(h', t, c)
  {
    GroundedGrows(h, h', h.candidacies[(t, c)]);
  }

  lemma BallotStays(h: History, h': History, t: nat, v: nat)
    requires Extends(h, h') && (t, v) in h.ballots && BallotOk(h, t, v)
    ensures BallotOk(h', t, v)
  {
    GroundedGrows(h, h', h.ballots[(t, v)].log);
  }

  /** New acknowledgements are made in terms no earlier than the votes already cast. */
  lemma BallotKeepsStays(h: History, h': History, t: nat, v: nat)
    requires Extends(h, h') && HistoryInv(h) && (t, v) in h.ballots
    requires forall t': nat :: t' < t && (t', v) in h'.acks ==> (t', v) in h.acks && h'.acks[(t', v)] == h.acks[(t', v)]
    ensures BallotKeeps(h', t, v)
  {
    assert BallotKeeps(h, t, v);
    if t !in h'.reigns || v in h'.reigns[t].quorum {
      assert t !in h.reigns || v in h.reigns[t].quorum by {
        if t in h.reigns { assert ReignExtends(h.reigns[t], h'.reigns[t]); }
      }
      forall t': nat, k: nat | t' < t && Acked(h', t', v, k)
        ensures Kept(h', h'.ballots[(t, v)].log, t', k, t - 1)
      {
        assert Acked(h, t', v, k);
        assert AckOk(h, t', v);
        KeptGrows(h, h', h.ballots[(t, v)].log, t', k, t - 1, t - 1);
      }
    }
  }

  lemma AckStays(h: History, h': History, t: nat, q: nat)
    requires Extends(h, h') && (t, q) in h.acks && h'.acks[(t, q)] == h.acks[(t, q)] && AckOk(h, t, q)
    ensures AckOk(h', t, q)
  {
    assert ReignExtends(h.reigns[t], h'.reigns[t]);
  }
}
