/** The three moves that create or replicate log entries: winning an election, a leader's
    append, and a follower accepting a prefix of the leader's log. */
module RaftMoves {
  import opened RaftLog
  import opened RaftHistory
  import opened RaftGrowth
  import opened RaftGroup

  // ----- winning an election -----

  /** Election Safety: a candidate holding a majority of votes is its term's first leader. */
  lemma FirstLeader(h: History, i: nat, s: Server)
    requires HistoryInv(h) && ServerOk(h, i, s) && s.role == Candidate && IsQuorum(h.n, s.votes)
    ensures s.term !in h.reigns
  {
    if s.term in h.reigns {
      assert ElectionOk(h, s.term);
      var v := QuorumsMeet(h.n, s.votes, h.reigns[s.term].quorum);
    }
  }

  function Win(s: Server, i: nat, n: nat): Server {
    s.(role := Leader, matched := seq(n, p => if p == i then |s.log| - 1 else 0))
  }

  function WinHistory(h: History, i: nat, s: Server): History {
    h.(reigns := h.reigns[s.term := Reign(i, s.log, s.log, s.votes)],
       acks := h.acks[(s.term, i) := |s.log| - 1])
  }

  lemma WinOk(h: History, i: nat, s: Server)
    requires HistoryInv(h) && ServerOk(h, i, s) && i < h.n && s.role == Candidate && IsQuorum(h.n, s.votes)
    ensures Extends(h, WinHistory(h, i, s)) && OnlyBy(h, WinHistory(h, i, s), i)
    ensures HistoryInv(WinHistory(h, i, s)) && ServerOk(WinHistory(h, i, s), i, Win(s, i, h.n))
  {
    var h' := WinHistory(h, i, s);
    WinHistoryOk(h, i, s);
    GroundedGrows(h, h', s.log);
    ChosenGrows(h, h', s.log, s.commit, s.term, s.term);
    var s' := Win(s, i, h.n);
    forall p | 0 <= p < h'.n ensures MatchOk(h', s'.term, s'.matched, p) {}
    forall t0: nat, k: nat | Acked(h', t0, i, k) ensures t0 <= s.term && Kept(h', s.log, t0, k, s.term) {
      if t0 == s.term {
        assert Has(h', s.log, t0, k);
      } else {
        assert Acked(h, t0, i, k) && AckOk(h, t0, i);
        KeptGrows(h, h', s.log, t0, k, s.term, s.term);
      }
    }
  }

  lemma WinHistoryOk(h: History, i: nat, s: Server)
    requires HistoryInv(h) && ServerOk(h, i, s) && i < h.n && s.role == Candidate && IsQuorum(h.n, s.votes)
    ensures Extends(h, WinHistory(h, i, s)) && OnlyBy(h, WinHistory(h, i, s), i)
    ensures HistoryInv(WinHistory(h, i, s))
  {
    var h' := WinHistory(h, i, s);
    FirstLeader(h, i, s);
    assert (s.term, i) in h.acks ==> AckOk(h, s.term, i);
    assert Extends(h, h') && OnlyBy(h, h', i);
    assert ReignOk(h', s.term) by {
      GroundedGrows(h, h', s.log);
      GroundedSorted(h, s.log);
      GroundedOps(h, s.log);
      assert CandidacyOk(h, s.term, i);
    }
    OtherReignsStay(h, h', s.term);
    VotesStay(h, h', i, s.term);
    OtherAcksStay(h, h', (s.term, i));
  }

  lemma GroundedOps(h: History, l: Log)
    requires HistoryInv(h) && Grounded(h, l)
    ensures forall k :: 0 < k < |l| ==> Placed(h, l[k], k)
  {
    forall k | 0 < k < |l| ensures Placed(h, l[k], k) {
      assert GroundedAt(h, l, k) && ReignOk(h, l[k].term);
      assert h.reigns[l[k].term].log[k] == l[k];
    }
  }

  lemma OtherReignsStay(h: History, h': History, t0: nat)
    requires HistoryInv(h) && Extends(h, h')
    requires forall t :: t in h'.reigns && t != t0 ==> t in h.reigns && h'.reigns[t] == h.reigns[t]
    ensures forall t {:trigger ReignOk(h', t)} :: t in h'.reigns && t != t0 ==> ReignOk(h', t)
    ensures forall t {:trigger ElectionOk(h', t)} :: t in h'.reigns && t in h.reigns ==> ElectionOk(h', t)
  {
    forall t | t in h'.reigns && t != t0 ensures ReignOk(h', t) {
      assert ReignOk(h, t);
      ReignStays(h, h', t);
    }
    forall t | t in h'.reigns && t in h.reigns ensures ElectionOk(h', t) {
      assert ElectionOk(h, t);
      ElectionStays(h, h', t);
    }
  }

  lemma OtherAcksStay(h: History, h': History, key: (nat, nat))
    requires HistoryInv(h) && Extends(h, h')
    requires forall k :: k in h'.acks && k != key ==> k in h.acks && h'.acks[k] == h.acks[k]
    ensures forall t, q {:trigger AckOk(h', t, q)} :: (t, q) in h'.acks && (t, q) != key ==> AckOk(h', t, q)
  {
    forall t, q | (t, q) in h'.acks && (t, q) != key ensures AckOk(h', t, q) {
      assert AckOk(h, t, q);
      AckStays(h, h', t, q);
    }
  }

  /** Adding reigns, entries or acknowledgements in term `t` leaves candidacies and ballots fine. */
  lemma VotesStay(h: History, h': History, i: nat, term: nat)
    requires HistoryInv(h) && Extends(h, h') && h'.candidacies == h.candidacies && h'.ballots == h.ballots
    requires forall t :: (t, i) in h.ballots ==> t <= term
    requires forall key :: key in h'.acks && key != (term, i) ==> key in h.acks && h'.acks[key] == h.acks[key]
    ensures forall t, c {:trigger CandidacyOk(h', t, c)} :: (t, c) in h'.candidacies ==> CandidacyOk(h', t, c)
    ensures forall t, v {:trigger BallotOk(h', t, v)} :: (t, v) in h'.ballots ==> BallotOk(h', t, v)
    ensures forall t, v {:trigger BallotKeeps(h', t, v)} :: (t, v) in h'.ballots ==> BallotKeeps(h', t, v)
  {
    forall t, c | (t, c) in h'.candidacies ensures CandidacyOk(h', t, c) {
      assert CandidacyOk(h, t, c);
      CandidacyStays(h, h', t, c);
    }
    forall t, v | (t, v) in h'.ballots ensures BallotOk(h', t, v) && BallotKeeps(h', t, v) {
      assert BallotOk(h, t, v);
      BallotStays(h, h', t, v);
      BallotKeepsStays(h, h', t, v);
    }
  }

  // ----- a leader appends -----

  function Append(s: Server, i: nat, cmd: Command): Server
    requires i < |s.matched|
  {
    s.(log := s.log + [Entry(s.term, cmd)], matched := s.matched[i := |s.log|])
  }

  function AppendHistory(h: History, i: nat, s: Server, cmd: Command): History
    requires s.term in h.reigns
  {
    h.(reigns := h.reigns[s.term := h.reigns[s.term].(log := s.log + [Entry(s.term, cmd)])],
       acks := h.acks[(s.term, i) := |s.log|])
  }

  lemma AppendOk(h: History, i: nat, s: Server, cmd: Command)
    requires HistoryInv(h) && ServerOk(h, i, s) && i < h.n && s.role == Leader && Placed(h, Entry(s.term, cmd), |s.log|)
    ensures Extends(h, AppendHistory(h, i, s, cmd)) && OnlyBy(h, AppendHistory(h, i, s, cmd), i)
    ensures HistoryInv(AppendHistory(h, i, s, cmd)) && ServerOk(AppendHistory(h, i, s, cmd), i, Append(s, i, cmd))
  {
    var h' := AppendHistory(h, i, s, cmd);
    var s' := Append(s, i, cmd);
    AppendExtends(h, i, s, cmd);
    AppendHistoryOk(h, i, s, cmd);
    ChosenGrows(h, h', s.log, s.commit, s.term, s.term);
    ChosenAgrees(h', s.log, s.commit, s.term, s'.log, s.commit);
    assert Grounded(h', s'.log) by { assert ReignOk(h', s.term); }
    assert RoleOk(h', i, s') by {
      forall p | 0 <= p < h'.n ensures MatchOk(h', s'.term, s'.matched, p) {
        assert MatchOk(h, s.term, s.matched, p);
      }
    }
    AppendKeeps(h, i, s, cmd);
  }

  lemma AppendKeeps(h: History, i: nat, s: Server, cmd: Command)
    requires HistoryInv(h) && KeepOk(h, i, s) && s.term in h.reigns
    requires Extends(h, AppendHistory(h, i, s, cmd)) && i < |s.matched|
    ensures KeepOk(AppendHistory(h, i, s, cmd), i, Append(s, i, cmd))
  {
    var h', s' := AppendHistory(h, i, s, cmd), Append(s, i, cmd);
    forall t0: nat, k: nat | Acked(h', t0, i, k) ensures t0 <= s.term && Kept(h', s'.log, t0, k, s.term) {
      if t0 == s.term {
        assert Has(h', s'.log, t0, k);
      } else {
        assert Acked(h, t0, i, k) && AckOk(h, t0, i);
        KeptGrows(h, h', s.log, t0, k, s.term, s.term);
        assert Has(h', s.log, t0, k) ==> Has(h', s'.log, t0, k);
      }
    }
  }

  lemma AppendExtends(h: History, i: nat, s: Server, cmd: Command)
    requires HistoryInv(h) && RoleOk(h, i, s) && s.role == Leader
    ensures Extends(h, AppendHistory(h, i, s, cmd)) && OnlyBy(h, AppendHistory(h, i, s, cmd), i)
  {
    var h' := AppendHistory(h, i, s, cmd);
    assert (s.term, i) in h.acks ==> AckOk(h, s.term, i);
    assert ReignExtends(h.reigns[s.term], h'.reigns[s.term]);
  }

  lemma AppendHistoryOk(h: History, i: nat, s: Server, cmd: Command)
    requires HistoryInv(h) && ServerOk(h, i, s) && s.role == Leader && Placed(h, Entry(s.term, cmd), |s.log|)
    requires Extends(h, AppendHistory(h, i, s, cmd))
    ensures HistoryInv(AppendHistory(h, i, s, cmd))
  {
    var h' := AppendHistory(h, i, s, cmd);
    AppendReignOk(h, i, s, cmd);
    OtherReignsStay(h, h', s.term);
    VotesStay(h, h', i, s.term);
    OtherAcksStay(h, h', (s.term, i));
  }

  lemma AppendReignOk(h: History, i: nat, s: Server, cmd: Command)
    requires HistoryInv(h) && ServerOk(h, i, s) && s.role == Leader && Placed(h, Entry(s.term, cmd), |s.log|)
    requires Extends(h, AppendHistory(h, i, s, cmd))
    ensures ReignOk(AppendHistory(h, i, s, cmd), s.term)
  {
    var h' := AppendHistory(h, i, s, cmd);
    var l' := s.log + [Entry(s.term, cmd)];
    assert ReignOk(h, s.term);
    forall k | 0 < k < |l'| ensures GroundedAt(h', l', k) {
      if k < |s.log| {
        assert GroundedAt(h, s.log, k);
        HasGrows(h, h', s.log, s.log[k].term, k);
      } else {
        assert Has(h', l', s.term, k);
      }
    }
    forall k: nat | 0 < k < |l'| ensures Placed(h', l'[k], k) {
      if k < |s.log| { assert Placed(h, h.reigns[s.term].log[k], k); }
    }
    forall a, b | 0 <= a <= b < |l'| ensures l'[a].term <= l'[b].term {
      assert a < |s.log| ==> s.log[a].term <= LastTerm(s.log);
    }
  }

  // ----- a follower accepts -----

  function Prefix(l: Log, k: nat): Log
    requires k < |l|
  {
    l[..k + 1]
  }

  function Accept(h: History, s: Server, k: nat): Server
    requires s.term in h.reigns && k < |h.reigns[s.term].log|
  {
    s.(log := Adopt(s.log, Prefix(h.reigns[s.term].log, k)))
  }

  function AcceptHistory(h: History, i: nat, s: Server, k: nat): History {
    if Acked(h, s.term, i, k) then h else h.(acks := h.acks[(s.term, i) := k])
  }

  /** Accepting keeps what was acknowledged, or the leader of this term started without it. */
  lemma AdoptKeeps(h: History, s: Server, k: nat, t0: nat, k0: nat)
    requires HistoryInv(h) && s.term in h.reigns && k < |h.reigns[s.term].log|
    requires t0 <= s.term && Kept(h, s.log, t0, k0, s.term) && t0 in h.reigns && k0 < |h.reigns[t0].log|
    ensures Kept(h, Accept(h, s, k).log, t0, k0, s.term)
  {
    var top := h.reigns[s.term];
    var p := Prefix(top.log, k);
    if Has(h, s.log, t0, k0) && !(p <= s.log) {
      if Agree(top.log, h.reigns[t0].log, k0) {
        assert k0 <= k;
        assert Agree(p, h.reigns[t0].log, k0);
        assert Has(h, p, t0, k0);
      } else {
        assert ReignOk(h, s.term);
        assert !Has(h, top.start, t0, k0);
        assert Dropped(h, s.term, t0, k0);
      }
    }
  }

  lemma AcceptLogOk(h: History, i: nat, s: Server, k: nat)
    requires HistoryInv(h) && ServerOk(h, i, s)
    requires s.term in h.reigns && k < |h.reigns[s.term].log|
    ensures var l' := Accept(h, s, k).log;
            && Grounded(h, l') && LastTerm(l') <= s.term
            && s.commit < |l'| && Agree(s.log, l', s.commit) && Has(h, l', s.term, k)
  {
    var top := h.reigns[s.term];
    var p := Prefix(top.log, k);
    assert ReignOk(h, s.term);
    ChosenInLeader(h, s.log, s.commit, s.term, s.term);
    if p <= s.log {
      assert Agree(s.log, top.log, k);
    } else {
      forall j | 0 < j < |p| ensures GroundedAt(h, p, j) { assert GroundedAt(h, top.log, j); }
      assert s.commit <= k;
      ReignTerms(h, s.term, k);
    }
  }

  lemma ReignTerms(h: History, t: nat, k: nat)
    requires t in h.reigns && ReignOk(h, t) && k < |h.reigns[t].log|
    ensures h.reigns[t].log[k].term <= t
  {
    var r := h.reigns[t];
    if k < |r.start| {
      assert r.log[k] == r.start[k] && r.log[|r.start| - 1] == r.start[|r.start| - 1];
    }
  }

  lemma AcceptOk(h: History, i: nat, s: Server, k: nat)
    requires HistoryInv(h) && ServerOk(h, i, s) && i < h.n && s.role == Follower
    requires s.term in h.reigns && k < |h.reigns[s.term].log|
    ensures Extends(h, AcceptHistory(h, i, s, k)) && OnlyBy(h, AcceptHistory(h, i, s, k), i)
    ensures HistoryInv(AcceptHistory(h, i, s, k)) && ServerOk(AcceptHistory(h, i, s, k), i, Accept(h, s, k))
    ensures Acked(AcceptHistory(h, i, s, k), s.term, i, k)
    ensures Agree(s.log, Accept(h, s, k).log, s.commit) && Has(h, Accept(h, s, k).log, s.term, k)
  {
    var h' := AcceptHistory(h, i, s, k);
    var s' := Accept(h, s, k);
    AcceptHistoryOk(h, i, s, k);
    AcceptLogOk(h, i, s, k);
    GroundedGrows(h, h', s'.log);
    ChosenAgrees(h, s.log, s.commit, s.term, s'.log, s.commit);
    ChosenGrows(h, h', s'.log, s.commit, s.term, s.term);
    AcceptKeeps(h, i, s, k);
  }

  lemma AcceptKeeps(h: History, i: nat, s: Server, k: nat)
    requires HistoryInv(h) && LogOk(h, s) && KeepOk(h, i, s)
    requires s.term in h.reigns && k < |h.reigns[s.term].log| && Extends(h, AcceptHistory(h, i, s, k))
    requires Has(h, Accept(h, s, k).log, s.term, k)
    ensures KeepOk(AcceptHistory(h, i, s, k), i, Accept(h, s, k))
  {
    var h', s' := AcceptHistory(h, i, s, k), Accept(h, s, k);
    forall t0: nat, k0: nat | Acked(h', t0, i, k0) ensures t0 <= s.term && Kept(h', s'.log, t0, k0, s.term) {
      if t0 == s.term && k0 <= k {
        assert Has(h', s'.log, t0, k0);
      } else {
        assert Acked(h, t0, i, k0) && AckOk(h, t0, i);
        AdoptKeeps(h, s, k, t0, k0);
        KeptGrows(h, h', s'.log, t0, k0, s.term, s.term);
      }
    }
  }

  lemma AcceptExtends(h: History, i: nat, s: Server, k: nat)
    ensures Extends(h, AcceptHistory(h, i, s, k)) && OnlyBy(h, AcceptHistory(h, i, s, k), i)
  {
  }

  lemma AcceptHistoryOk(h: History, i: nat, s: Server, k: nat)
    requires HistoryInv(h) && ServerOk(h, i, s) && i < h.n
    requires s.term in h.reigns && k < |h.reigns[s.term].log|
    ensures Extends(h, AcceptHistory(h, i, s, k)) && OnlyBy(h, AcceptHistory(h, i, s, k), i)
    ensures HistoryInv(AcceptHistory(h, i, s, k))
  {
    var h' := AcceptHistory(h, i, s, k);
    if Acked(h, s.term, i, k) { return; }
    AcceptExtends(h, i, s, k);
    OtherReignsStay(h, h', s.term);
    assert ReignOk(h', s.term) by { assert ReignOk(h, s.term); ReignStays(h, h', s.term); }
    VotesStay(h, h', i, s.term);
    OtherAcksStay(h, h', (s.term, i));
  }

  // ----- new operations become known -----

  /** An operation gets its place. */
  function WithOp(h: History, id: OpId, place: Placement): History {
    h.(ops := h.ops[id := place])
  }

  lemma WithOpHistoryOk(h: History, id: OpId, place: Placement)
    requires HistoryInv(h) && id !in h.ops
    ensures Extends(h, WithOp(h, id, place)) && HistoryInv(WithOp(h, id, place))
  {
    var h' := WithOp(h, id, place);
    assert Extends(h, h');
    VotePartsStay(h, h');
    forall t, c | (t, c) in h'.candidacies ensures CandidacyOk(h', t, c) {
      assert CandidacyOk(h, t, c);
      CandidacyStays(h, h', t, c);
    }
    forall t, v | (t, v) in h'.ballots ensures BallotOk(h', t, v) && BallotKeeps(h', t, v) {
      assert BallotOk(h, t, v);
      BallotStays(h, h', t, v);
      BallotKeepsStays(h, h', t, v);
    }
  }

  lemma WithOpOk(g: Group, id: OpId, place: Placement)
    requires GroupInv(g) && id !in g.h.ops
    ensures GroupInv(Group(WithOp(g.h, id, place), g.servers)) && Extends(g.h, WithOp(g.h, id, place))
  {
    var h' := WithOp(g.h, id, place);
    WithOpHistoryOk(g.h, id, place);
    forall i | 0 <= i < h'.n ensures ServerOk(h', i, g.servers[i]) {
      BystanderOk(g.h, h', h'.n, i, g.servers[i]);
    }
  }
}
