/** The servers of a Raft group over uncompacted logs, tied to the history by an invariant
    that every protocol move keeps. A move changes one server and may add to the history. */
module RaftGroup {
  import opened RaftLog
  import opened RaftHistory
  import opened RaftGrowth

  datatype Role = Follower | Candidate | Leader

  /** `base` is the snapshot boundary: entries up to it have been compacted away. */
  datatype Server = Server(term: nat, vote: int, log: Log, role: Role, votes: set<nat>,
                           matched: seq<nat>, commit: nat, base: nat)

  datatype Group = Group(h: History, servers: seq<Server>)

  predicate LogOk(h: History, s: Server) {
    Grounded(h, s.log) && LastTerm(s.log) <= s.term && s.base <= s.commit < |s.log|
  }

  predicate RoleOk(h: History, i: nat, s: Server) {
    match s.role
    case Follower => true
    case Candidate =>
      && (s.term, i) in h.candidacies && h.candidacies[(s.term, i)] == s.log
      && (forall v <- s.votes :: v < h.n && (s.term, v) in h.ballots && h.ballots[(s.term, v)].candidate == i)
      && (s.term in h.reigns ==> h.reigns[s.term].leader != i)
    case Leader =>
      && s.term in h.reigns && h.reigns[s.term].leader == i && h.reigns[s.term].log == s.log
      && |s.matched| == h.n
      && forall p :: 0 <= p < h.n ==> MatchOk(h, s.term, s.matched, p)
  }

  predicate MatchOk(h: History, term: nat, matched: seq<nat>, p: nat)
    requires p < |matched|
  {
    matched[p] == 0 || Acked(h, term, p, matched[p])
  }

  ghost predicate VoteOk(h: History, i: nat, s: Server) {
    && (forall t :: (t, i) in h.ballots ==> t <= s.term && (t == s.term ==> s.vote == h.ballots[(t, i)].candidate))
    && (s.vote == -1 || (s.term, i) in h.ballots)
    && (forall t :: (t, i) in h.candidacies ==> t <= s.term)
    && (forall t :: t in h.reigns && h.reigns[t].leader == i ==> t <= s.term)
  }

  ghost predicate KeepOk(h: History, i: nat, s: Server) {
    forall t: nat, k: nat {:trigger Acked(h, t, i, k)} ::
      Acked(h, t, i, k) ==> t <= s.term && Kept(h, s.log, t, k, s.term)
  }

  ghost predicate ServerOk(h: History, i: nat, s: Server) {
    LogOk(h, s) && RoleOk(h, i, s) && VoteOk(h, i, s) && KeepOk(h, i, s) && Chosen(h, s.log, s.commit, s.term)
  }

  ghost predicate GroupInv(g: Group) {
    && HistoryInv(g.h)
    && |g.servers| == g.h.n
    && forall i {:trigger g.servers[i]} :: 0 <= i < g.h.n ==> ServerOk(g.h, i, g.servers[i])
  }

  // ----- one server moves, the others stand still -----

  lemma BystanderOk(h: History, h': History, i: nat, j: nat, s: Server)
    requires HistoryInv(h) && Extends(h, h') && OnlyBy(h, h', i) && i != j && ServerOk(h, j, s)
    ensures ServerOk(h', j, s)
  {
    GroundedGrows(h, h', s.log);
    ChosenGrows(h, h', s.log, s.commit, s.term, s.term);
    forall t: nat, k: nat | Acked(h', t, j, k) ensures t <= s.term && Kept(h', s.log, t, k, s.term) {
      assert Acked(h, t, j, k);
      assert AckOk(h, t, j);
      KeptGrows(h, h', s.log, t, k, s.term, s.term);
    }
    BystanderRoleOk(h, h', i, j, s);
    BystanderVoteOk(h, h', i, j, s);
  }

  lemma BystanderRoleOk(h: History, h': History, i: nat, j: nat, s: Server)
    requires Extends(h, h') && OnlyBy(h, h', i) && i != j && RoleOk(h, j, s)
    ensures RoleOk(h', j, s)
  {
    if s.role == Leader {
      assert ReignExtends(h.reigns[s.term], h'.reigns[s.term]);
      forall p | 0 <= p < h'.n ensures MatchOk(h', s.term, s.matched, p) { assert MatchOk(h, s.term, s.matched, p); }
    }
  }

  lemma BystanderVoteOk(h: History, h': History, i: nat, j: nat, s: Server)
    requires Extends(h, h') && OnlyBy(h, h', i) && i != j && VoteOk(h, j, s)
    ensures VoteOk(h', j, s)
  {
  }

  function Move(g: Group, i: nat, s: Server, h: History): Group
    requires i < |g.servers|
  {
    Group(h, g.servers[i := s])
  }

  lemma MoveOk(g: Group, i: nat, s: Server, h: History)
    requires GroupInv(g) && i < g.h.n && Extends(g.h, h) && OnlyBy(g.h, h, i)
    requires HistoryInv(h) && ServerOk(h, i, s)
    ensures GroupInv(Move(g, i, s, h))
  {
    var g' := Move(g, i, s, h);
    forall j | 0 <= j < h.n ensures ServerOk(h, j, g'.servers[j]) {
      if j != i { BystanderOk(g.h, h, i, j, g.servers[j]); }
    }
  }

  // ----- moves that leave the history alone -----

  function ToTerm(s: Server, t: nat): Server {
    s.(term := t, vote := -1, role := Follower)
  }

  lemma ToTermOk(h: History, i: nat, s: Server, t: nat)
    requires HistoryInv(h) && ServerOk(h, i, s) && t > s.term
    ensures ServerOk(h, i, ToTerm(s, t))
  {
    ExtendsRefl(h);
    ChosenGrows(h, h, s.log, s.commit, s.term, t);
    forall t0: nat, k: nat | Acked(h, t0, i, k) ensures t0 <= t && Kept(h, s.log, t0, k, t) {
      assert AckOk(h, t0, i);
      KeptGrows(h, h, s.log, t0, k, s.term, t);
    }
  }

  function StepDown(s: Server): Server {
    s.(role := Follower)
  }

  lemma StepDownOk(h: History, i: nat, s: Server)
    requires ServerOk(h, i, s)
    ensures ServerOk(h, i, StepDown(s))
  {
  }

  /** A crash keeps term, vote and log; the commit index falls back to the snapshot boundary. */
  function Reboot(s: Server): Server {
    s.(role := Follower, votes := {}, matched := [], commit := s.base)
  }

  lemma RebootOk(h: History, i: nat, s: Server)
    requires ServerOk(h, i, s)
    ensures ServerOk(h, i, Reboot(s))
  {
    ChosenAgrees(h, s.log, s.commit, s.term, s.log, s.base);
  }

  lemma CountVoteOk(h: History, i: nat, s: Server, v: nat)
    requires ServerOk(h, i, s) && s.role == Candidate && v < h.n
    requires (s.term, v) in h.ballots && h.ballots[(s.term, v)].candidate == i
    ensures ServerOk(h, i, s.(votes := s.votes + {v}))
  {
  }

  lemma MatchedOk(h: History, i: nat, s: Server, p: nat, k: nat)
    requires ServerOk(h, i, s) && s.role == Leader && p < h.n
    requires Acked(h, s.term, p, k)
    ensures ServerOk(h, i, s.(matched := s.matched[p := k]))
  {
    var s' := s.(matched := s.matched[p := k]);
    forall q | 0 <= q < h.n ensures MatchOk(h, s'.term, s'.matched, q) { assert MatchOk(h, s.term, s.matched, q); }
  }

  lemma CommitOk(h: History, i: nat, s: Server, c: nat)
    requires ServerOk(h, i, s) && s.commit <= c && Chosen(h, s.log, c, s.term)
    ensures ServerOk(h, i, s.(commit := c))
  {
  }

  lemma TrimOk(h: History, i: nat, s: Server, b: nat)
    requires ServerOk(h, i, s) && b <= s.commit
    ensures ServerOk(h, i, s.(base := b))
  {
  }

  /** The leader's commit rule: an index of its own term matched by a majority. */
  lemma LeaderCommitChosen(h: History, i: nat, s: Server, k: nat, q: set<nat>)
    requires HistoryInv(h) && ServerOk(h, i, s) && s.role == Leader
    requires k < |s.log| && s.log[k].term == s.term && IsQuorum(h.n, q)
    requires forall p <- q :: s.matched[p] >= k
    ensures Chosen(h, s.log, k, s.term)
  {
    if k > 0 {
      forall p | p in q ensures Acked(h, s.term, p, k) {
        assert MatchOk(h, s.term, s.matched, p);
      }
      assert AllAcked(h, s.term, q, k);
      assert Committed(h, s.term, k);
      assert ChosenBy(h, s.log, k, s.term, s.term, k);
    }
  }

  // ----- moves that add to the history -----

  function Stand(s: Server, i: nat): Server {
    s.(term := s.term + 1, vote := i, role := Candidate, votes := {i})
  }

  function StandHistory(h: History, i: nat, s: Server): History {
    h.(candidacies := h.candidacies[(s.term + 1, i) := s.log],
       ballots := h.ballots[(s.term + 1, i) := Ballot(i, s.log)])
  }

  lemma StandOk(h: History, i: nat, s: Server)
    requires HistoryInv(h) && ServerOk(h, i, s) && i < h.n
    ensures Extends(h, StandHistory(h, i, s)) && OnlyBy(h, StandHistory(h, i, s), i)
    ensures HistoryInv(StandHistory(h, i, s)) && ServerOk(StandHistory(h, i, s), i, Stand(s, i))
  {
    var h' := StandHistory(h, i, s);
    var t := s.term + 1;
    assert (t, i) !in h.candidacies && (t, i) !in h.ballots;
    StandHistoryOk(h, i, s);
    StandServerOk(h, i, s);
  }

  lemma StandServerOk(h: History, i: nat, s: Server)
    requires HistoryInv(h) && ServerOk(h, i, s) && i < h.n && Extends(h, StandHistory(h, i, s))
    ensures ServerOk(StandHistory(h, i, s), i, Stand(s, i))
  {
    var h' := StandHistory(h, i, s);
    GroundedGrows(h, h', s.log);
    ChosenGrows(h, h', s.log, s.commit, s.term, s.term + 1);
    StandKeeps(h, i, s);
  }

  lemma StandKeeps(h: History, i: nat, s: Server)
    requires HistoryInv(h) && KeepOk(h, i, s) && Extends(h, StandHistory(h, i, s))
    ensures KeepOk(StandHistory(h, i, s), i, Stand(s, i))
  {
    var h' := StandHistory(h, i, s);
    forall t0: nat, k: nat | Acked(h', t0, i, k) ensures t0 <= s.term + 1 && Kept(h', s.log, t0, k, s.term + 1) {
      assert Acked(h, t0, i, k) && AckOk(h, t0, i);
      KeptGrows(h, h', s.log, t0, k, s.term, s.term + 1);
    }
  }

  lemma StandHistoryOk(h: History, i: nat, s: Server)
    requires HistoryInv(h) && ServerOk(h, i, s) && i < h.n
    ensures HistoryInv(StandHistory(h, i, s))
  {
    var h' := StandHistory(h, i, s);
    var t := s.term + 1;
    assert Extends(h, h');
    GroundedGrows(h, h', s.log);
    VotePartsStay(h, h');
    forall t0, c | (t0, c) in h'.candidacies ensures CandidacyOk(h', t0, c) {
      if (t0, c) != (t, i) { assert CandidacyOk(h, t0, c); CandidacyStays(h, h', t0, c); }
    }
    forall t0, v | (t0, v) in h'.ballots ensures BallotOk(h', t0, v) && BallotKeeps(h', t0, v) {
      if (t0, v) != (t, i) {
        assert BallotOk(h, t0, v);
        BallotStays(h, h', t0, v);
        BallotKeepsStays(h, h', t0, v);
      } else {
        assert (t, i) !in h.ballots;
        assert t in h.reigns ==> i !in h.reigns[t].quorum by {
          if t in h.reigns { assert ElectionOk(h, t); }
        }
        NewBallotKeeps(h, h', i, s, t);
      }
    }
  }

  /** Adding candidacies or ballots leaves reigns and acknowledgements as they were. */
  lemma VotePartsStay(h: History, h': History)
    requires HistoryInv(h) && Extends(h, h') && h'.reigns == h.reigns && h'.acks == h.acks
    ensures forall t {:trigger ReignOk(h', t)} :: t in h'.reigns ==> ReignOk(h', t)
    ensures forall t {:trigger ElectionOk(h', t)} :: t in h'.reigns ==> ElectionOk(h', t)
    ensures forall t, q {:trigger AckOk(h', t, q)} :: (t, q) in h'.acks ==> AckOk(h', t, q)
  {
    forall t | t in h'.reigns ensures ReignOk(h', t) && ElectionOk(h', t) {
      assert ReignOk(h, t) && ElectionOk(h, t);
      ReignStays(h, h', t);
      ElectionStays(h, h', t);
    }
    forall t, q | (t, q) in h'.acks ensures AckOk(h', t, q) {
      assert AckOk(h, t, q);
      AckStays(h, h', t, q);
    }
  }

  /** A ballot cast from the voter's current log, in a term without a leader so far. */
  lemma NewBallotKeeps(h: History, h': History, i: nat, s: Server, t: nat)
    requires HistoryInv(h) && KeepOk(h, i, s) && s.term <= t
    requires Extends(h, h') && h'.reigns == h.reigns && h'.acks == h.acks
    requires (t, i) in h'.ballots && h'.ballots[(t, i)].log == s.log
    requires t in h.reigns ==> i !in h.reigns[t].quorum
    ensures BallotKeeps(h', t, i)
  {
    if t !in h'.reigns {
      forall t0: nat, k: nat | t0 < t && Acked(h', t0, i, k)
        ensures Kept(h', s.log, t0, k, t - 1)
      {
        assert Acked(h, t0, i, k) && AckOk(h, t0, i);
        assert Kept(h, s.log, t0, k, t - 1) by {
          if !Has(h, s.log, t0, k) {
            var w :| t0 < w <= s.term && Dropped(h, w, t0, k);
            assert w != t;
          }
        }
        KeptGrows(h, h', s.log, t0, k, t - 1, t - 1);
      }
    }
  }

  function Vote(s: Server, c: nat): Server {
    s.(vote := c)
  }

  function VoteHistory(h: History, i: nat, s: Server, c: nat): History {
    if s.vote == -1 then h.(ballots := h.ballots[(s.term, i) := Ballot(c, s.log)]) else h
  }

  lemma VoteMoveOk(h: History, i: nat, s: Server, c: nat)
    requires HistoryInv(h) && ServerOk(h, i, s) && i < h.n && (s.vote == -1 || s.vote == c)
    requires (s.term, c) in h.candidacies
    requires var l := h.candidacies[(s.term, c)]; UpToDate(LastTerm(l), |l| - 1, s.log)
    ensures Extends(h, VoteHistory(h, i, s, c)) && OnlyBy(h, VoteHistory(h, i, s, c), i)
    ensures HistoryInv(VoteHistory(h, i, s, c)) && ServerOk(VoteHistory(h, i, s, c), i, Vote(s, c))
    ensures (s.term, i) in VoteHistory(h, i, s, c).ballots
    ensures VoteHistory(h, i, s, c).ballots[(s.term, i)].candidate == c
  {
    var h' := VoteHistory(h, i, s, c);
    ExtendsRefl(h);
    if s.vote == -1 {
      assert (s.term, i) !in h.ballots;
      VoteHistoryOk(h, i, s, c);
      VoteServerOk(h, i, s, c);
    }
  }

  lemma VoteServerOk(h: History, i: nat, s: Server, c: nat)
    requires HistoryInv(h) && ServerOk(h, i, s) && i < h.n && s.vote == -1 && Extends(h, VoteHistory(h, i, s, c))
    ensures ServerOk(VoteHistory(h, i, s, c), i, Vote(s, c))
  {
    var h' := VoteHistory(h, i, s, c);
    GroundedGrows(h, h', s.log);
    ChosenGrows(h, h', s.log, s.commit, s.term, s.term);
    VoteKeeps(h, h', i, s);
    if s.role == Leader {
      forall p | 0 <= p < h'.n ensures MatchOk(h', s.term, s.matched, p) { assert MatchOk(h, s.term, s.matched, p); }
    }
  }

  lemma VoteKeeps(h: History, h': History, i: nat, s: Server)
    requires HistoryInv(h) && KeepOk(h, i, s) && Extends(h, h') && h'.acks == h.acks
    ensures KeepOk(h', i, s)
  {
    forall t0: nat, k: nat | Acked(h', t0, i, k) ensures t0 <= s.term && Kept(h', s.log, t0, k, s.term) {
      assert Acked(h, t0, i, k) && AckOk(h, t0, i);
      KeptGrows(h, h', s.log, t0, k, s.term, s.term);
    }
  }

  lemma VoteHistoryOk(h: History, i: nat, s: Server, c: nat)
    requires HistoryInv(h) && ServerOk(h, i, s) && i < h.n && s.vote == -1
    requires (s.term, c) in h.candidacies
    requires var l := h.candidacies[(s.term, c)]; UpToDate(LastTerm(l), |l| - 1, s.log)
    ensures HistoryInv(VoteHistory(h, i, s, c))
  {
    var h' := VoteHistory(h, i, s, c);
    assert (s.term, i) !in h.ballots;
    assert Extends(h, h');
    GroundedGrows(h, h', s.log);
    VotePartsStay(h, h');
    forall t0, d | (t0, d) in h'.candidacies ensures CandidacyOk(h', t0, d) {
      assert CandidacyOk(h, t0, d);
      CandidacyStays(h, h', t0, d);
    }
    forall t0, v | (t0, v) in h'.ballots ensures BallotOk(h', t0, v) && BallotKeeps(h', t0, v) {
      if (t0, v) != (s.term, i) {
        assert BallotOk(h, t0, v);
        BallotStays(h, h', t0, v);
        BallotKeepsStays(h, h', t0, v);
      } else {
        assert s.term in h.reigns ==> i !in h.reigns[s.term].quorum by {
          if s.term in h.reigns { assert ElectionOk(h, s.term); }
        }
        NewBallotKeeps(h, h', i, s, s.term);
      }
    }
  }
}
