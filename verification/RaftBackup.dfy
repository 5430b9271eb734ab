/** Fast conflict back-up: a leader that skips whole terms finds the same resume point as one
    that steps back one entry at a time, namely the end of the common prefix. */
module RaftBackup {
  import opened RaftLog
  import opened RaftHistory
  import opened RaftGroup
  import opened RaftNode
  import opened RaftSystem
  import opened RaftRep
  import opened RaftSafety

  /** `c` is the last index through which the logs agree. */
  predicate CommonEnd(a: Log, b: Log, c: nat) {
    Agree(a, b, c) && !Agree(a, b, c + 1)
  }

  /** A leader and a follower of its term, with their uncompacted logs; both boundaries lie in the
      common prefix, and the leader has confirmed nothing beyond it. */
  ghost predicate Pair(h: History, l: Node, sl: Server, f: Node, sf: Server, peer: nat, c: nat) {
    && HistoryInv(h) && Grounded(h, sl.log) && Grounded(h, sf.log)
    && l.role == Leader && peer < l.peers
    && f.currentTerm == l.currentTerm
    && l.lastIncludedIndex == sl.base && LogsRep(l.logs, sl.log, sl.base)
    && f.lastIncludedIndex == sf.base && LogsRep(f.logs, sf.log, sf.base)
    && CommonEnd(sl.log, sf.log, c) && sl.base <= c && sf.base <= c
    && l.matchIndex[peer] <= c < l.nextIndex[peer] <= LastIndex(l) + 1
  }

  function ReplyTo(l: Node, f: Node, peer: nat): AppendReply
    requires l.role == Leader && peer < l.peers && l.lastIncludedIndex < l.nextIndex[peer] <= LastIndex(l) + 1
  {
    HandleAppend(f, AppendFor(l, peer)).1
  }

  function WithNext(l: Node, peer: nat, next: nat): Node
    requires l.role == Leader && peer < l.peers
  {
    l.(nextIndex := l.nextIndex[peer := next])
  }

  lemma LastOfTermAt(logs: seq<Entry>, base: nat, term: int)
    ensures var m := LastOfTerm(logs, base, term);
            && (m == -1 ==> forall k :: 0 <= k < |logs| ==> logs[k].term != term)
            && (m != -1 ==> base <= m < base + |logs| && logs[m - base].term == term
                            && forall k :: m - base < k < |logs| ==> logs[k].term != term)
  {
  }

  lemma {:induction false} RunStartAt(logs: Log, base: nat, index: nat, c: nat)
    requires base <= index < base + |logs| && RunStart(logs, base, index) <= c <= index
    ensures logs[c - base].term == logs[index - base].term
    decreases index
  {
    if c < index { RunStartAt(logs, base, index - 1, c); }
  }

  /** Past the common prefix the terms differ. */
  lemma TermsDiffer(h: History, a: Log, b: Log, c: nat, k: nat)
    requires Grounded(h, a) && Grounded(h, b) && CommonEnd(a, b, c) && c < k && k < |a| && k < |b|
    ensures a[k].term != b[k].term
  {
    if a[k].term == b[k].term { LogMatching(h, a, b, k); }
  }

  /** The leader's last entry of the follower's conflicting term lies before the conflict and
      not before the end of the common prefix. */
  lemma ConflictTermBounds(h: History, l: Log, f: Log, c: nat, prev: nat, m: nat)
    requires HistoryInv(h) && Grounded(h, l) && Grounded(h, f) && CommonEnd(l, f, c)
    requires c < prev && prev < |l| && prev < |f|
    requires m < |l| && l[m].term == f[prev].term && forall k :: m < k < |l| ==> l[k].term != l[m].term
    ensures c <= m < prev
  {
    TermsDiffer(h, l, f, c, prev);
    GroundedSorted(h, f);
    var t := f[prev].term;
    assert GroundedAt(h, f, prev);
    // Both logs follow the leader of `t`: past `prev` the leader's log would agree with the follower's.
    assert m >= prev ==> GroundedAt(h, l, m);
    assert m < prev;
    assert f[c].term <= f[prev].term;
  }

  /** Each rejection strictly lowers the next index, never below the common prefix plus one, and
      a request is accepted exactly when it starts at the end of the common prefix. */
  lemma BackUpStep(h: History, l: Node, sl: Server, f: Node, sf: Server, peer: nat, c: nat)
    requires Pair(h, l, sl, f, sf, peer, c)
    ensures ReplyTo(l, f, peer).success <==> l.nextIndex[peer] == c + 1
    ensures !ReplyTo(l, f, peer).success ==>
              c + 1 <= BackUp(l, peer, ReplyTo(l, f, peer)) < l.nextIndex[peer]
  {
    var next := l.nextIndex[peer];
    var prev: nat := next - 1;
    var reply := ReplyTo(l, f, peer);
    assert TermAt(l, prev) == sl.log[prev].term;
    if prev > c && prev <= LastIndex(f) {
      assert TermAt(f, prev) == sf.log[prev].term;
      TermsDiffer(h, sl.log, sf.log, c, prev);
      RejectedByTerm(h, l, sl, f, sf, peer, c);
    }
  }

  /** Where the conflicting term sends the leader, whether or not the leader has that term. */
  lemma ConflictTarget(h: History, logs: Log, base: nat, l: Log, logs': Log, base': nat, f: Log, c: nat, prev: nat)
    requires HistoryInv(h) && Grounded(h, l) && Grounded(h, f) && CommonEnd(l, f, c)
    requires LogsRep(logs, l, base) && LogsRep(logs', f, base') && base <= c && base' <= c < prev
    requires prev < |l| && prev < |f|
    ensures var m := LastOfTerm(logs, base, f[prev].term);
            c + 1 <= (if m >= 0 then m + 1 else RunStart(logs', base', prev)) <= prev
  {
    var t := f[prev].term;
    var m := LastOfTerm(logs, base, t);
    LastOfTermAt(logs, base, t);
    if m == -1 {
      assert logs[c - base].term == l[c].term == f[c].term == logs'[c - base'].term;
      if RunStart(logs', base', prev) <= c { RunStartAt(logs', base', prev, c); }
    } else {
      forall k | m < k < |l| ensures l[k].term != t { assert logs[k - base].term != t; }
      ConflictTermBounds(h, l, f, c, prev, m);
    }
  }

  lemma RejectedByTerm(h: History, l: Node, sl: Server, f: Node, sf: Server, peer: nat, c: nat)
    requires Pair(h, l, sl, f, sf, peer, c)
    requires c < l.nextIndex[peer] - 1 <= LastIndex(f)
    requires TermAt(f, l.nextIndex[peer] - 1) != TermAt(l, l.nextIndex[peer] - 1)
    ensures c + 1 <= BackUp(l, peer, ReplyTo(l, f, peer)) < l.nextIndex[peer]
  {
    var prev: nat := l.nextIndex[peer] - 1;
    var reply := ReplyTo(l, f, peer);
    assert reply.conflictTerm == TermAt(f, prev) == sf.log[prev].term;
    assert reply.conflictIndex == RunStart(f.logs, f.lastIncludedIndex, prev);
    ConflictTarget(h, l.logs, sl.base, sl.log, f.logs, sf.base, sf.log, c, prev);
  }

  /** The worker's retry loop against an unchanging follower: the previous index of the first
      request it accepts. */
  ghost function FastSettle(h: History, l: Node, sl: Server, f: Node, sf: Server, peer: nat, c: nat): nat
    requires Pair(h, l, sl, f, sf, peer, c)
    decreases l.nextIndex[peer]
  {
    BackUpStep(h, l, sl, f, sf, peer, c);
    var reply := ReplyTo(l, f, peer);
    if reply.success then l.nextIndex[peer] - 1
    else FastSettle(h, WithNext(l, peer, BackUp(l, peer, reply)), sl, f, sf, peer, c)
  }

  /** The same loop, stepping back one entry per rejection. */
  ghost function SlowSettle(h: History, l: Node, sl: Server, f: Node, sf: Server, peer: nat, c: nat): nat
    requires Pair(h, l, sl, f, sf, peer, c)
    decreases l.nextIndex[peer]
  {
    BackUpStep(h, l, sl, f, sf, peer, c);
    if ReplyTo(l, f, peer).success then l.nextIndex[peer] - 1
    else SlowSettle(h, WithNext(l, peer, l.nextIndex[peer] - 1), sl, f, sf, peer, c)
  }

  lemma {:induction false} FastSettlesAtCommonEnd(h: History, l: Node, sl: Server, f: Node, sf: Server,
                                                  peer: nat, c: nat)
    requires Pair(h, l, sl, f, sf, peer, c)
    ensures FastSettle(h, l, sl, f, sf, peer, c) == c
    decreases l.nextIndex[peer]
  {
    BackUpStep(h, l, sl, f, sf, peer, c);
    var reply := ReplyTo(l, f, peer);
    if !reply.success {
      FastSettlesAtCommonEnd(h, WithNext(l, peer, BackUp(l, peer, reply)), sl, f, sf, peer, c);
    }
  }

  lemma {:induction false} SlowSettlesAtCommonEnd(h: History, l: Node, sl: Server, f: Node, sf: Server,
                                                  peer: nat, c: nat)
    requires Pair(h, l, sl, f, sf, peer, c)
    ensures SlowSettle(h, l, sl, f, sf, peer, c) == c
    decreases l.nextIndex[peer]
  {
    BackUpStep(h, l, sl, f, sf, peer, c);
    if !ReplyTo(l, f, peer).success {
      SlowSettlesAtCommonEnd(h, WithNext(l, peer, l.nextIndex[peer] - 1), sl, f, sf, peer, c);
    }
  }

  /** In every reachable state, for a leader and a server of its term whose logs part after `c`:
      if the leader's boundary is not past `c` and its next index is, both loops settle at `c`. */
  lemma BackUpInRuns(run: seq<System>, x: nat, a: nat, b: nat) returns (h: History, sl: Server, sf: Server, c: nat)
    requires IsRun(run) && x < |run| && a < |run[x].procs| && b < |run[x].procs| && a != b
    requires run[x].procs[a].node.role == Leader
    requires run[x].procs[b].node.currentTerm == run[x].procs[a].node.currentTerm
    ensures var l, f := run[x].procs[a].node, run[x].procs[b].node;
            && b < l.peers
            && CommonEnd(sl.log, sf.log, c) && LogsRep(l.logs, sl.log, sl.base) && LogsRep(f.logs, sf.log, sf.base)
            && sl.base == l.lastIncludedIndex && sf.base == f.lastIncludedIndex
            && (l.lastIncludedIndex <= c < l.nextIndex[b] ==>
                  && Pair(h, l, sl, f, sf, b, c)
                  && FastSettle(h, l, sl, f, sf, b, c) == c == SlowSettle(h, l, sl, f, sf, b, c))
  {
    var gs := RunSim(run);
    assert Shadows(run, gs, x);
    h, sl, sf := gs[x].h, gs[x].servers[a], gs[x].servers[b];
    var l, f := run[x].procs[a].node, run[x].procs[b].node;
    assert ProcRep(h.n, a, run[x].procs[a], sl) && ProcRep(h.n, b, run[x].procs[b], sf);
    assert NextOk(l.matchIndex, l.nextIndex, LastIndex(l), b);
    c := FindCommonEnd(sl.log, sf.log);
    FollowerInside(h, a, sl, b, sf, c);
    if l.lastIncludedIndex <= c < l.nextIndex[b] {
      FastSettlesAtCommonEnd(h, l, sl, f, sf, b, c);
      SlowSettlesAtCommonEnd(h, l, sl, f, sf, b, c);
    }
  }

  lemma FindCommonEnd(a: Log, b: Log) returns (c: nat)
    requires a[0] == b[0]
    ensures CommonEnd(a, b, c)
  {
    c := 0;
    while Agree(a, b, c + 1)
      invariant Agree(a, b, c)
      decreases |a| - c
    {
      c := c + 1;
    }
  }

  /** What a follower of the leader's term has committed, and what the leader counts as matched
      there, lies in their common prefix. */
  lemma FollowerInside(h: History, a: nat, sl: Server, b: nat, sf: Server, c: nat)
    requires HistoryInv(h) && ServerOk(h, a, sl) && ServerOk(h, b, sf) && b < h.n
    requires sl.role == Leader && sf.term == sl.term && CommonEnd(sl.log, sf.log, c)
    ensures sf.commit <= c && sl.matched[b] <= c
  {
    ChosenInLeader(h, sf.log, sf.commit, sf.term, sl.term);
    assert Agree(sl.log, sf.log, sf.commit);
    var m := sl.matched[b];
    assert MatchOk(h, sl.term, sl.matched, b);
    if m > 0 {
      assert Acked(h, sl.term, b, m);
      assert Kept(h, sf.log, sl.term, m, sl.term);
      assert Has(h, sf.log, sl.term, m);
    }
  }
}
