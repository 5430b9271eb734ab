/** Balancing shards over groups: what `Rebalance` computes and what that promises. Groups are
    given by their identifiers in ascending order. */
module Rebalance {

  function Count(shards: seq<nat>, g: nat): nat {
    multiset(shards)[g]
  }

  /** Strictly ascending. */
  predicate Ascending(gids: seq<nat>) {
    forall i, j :: 0 <= i < j < |gids| ==> gids[i] < gids[j]
  }

  /** Every shard is on a member. */
  predicate AllAssigned(shards: seq<nat>, gids: seq<nat>) {
    forall s :: 0 <= s < |shards| ==> shards[s] in gids
  }

  /** The members' shard counts are within one of each other. */
  predicate Even(shards: seq<nat>, gids: seq<nat>) {
    forall g: nat, h: nat :: g in gids && h in gids ==> Count(shards, g) <= Count(shards, h) + 1
  }

  // ----- what is computed -----

  /** The first of the groups with the fewest shards. */
  function Least(shards: seq<nat>, gids: seq<nat>): (g: nat)
    requires gids != []
    ensures g in gids && forall h <- gids :: Count(shards, g) <= Count(shards, h)
  {
    var last := gids[|gids| - 1];
    if |gids| == 1 then last
    else
      var g := Least(shards, gids[..|gids| - 1]);
      assert forall h <- gids :: h in gids[..|gids| - 1] || h == last;
      if Count(shards, last) < Count(shards, g) then last else g
  }

  /** The first of the groups with the most shards. */
  function Most(shards: seq<nat>, gids: seq<nat>): (g: nat)
    requires gids != []
    ensures g in gids && forall h <- gids :: Count(shards, h) <= Count(shards, g)
  {
    var last := gids[|gids| - 1];
    if |gids| == 1 then last
    else
      var g := Most(shards, gids[..|gids| - 1]);
      assert forall h <- gids :: h in gids[..|gids| - 1] || h == last;
      if Count(shards, last) > Count(shards, g) then last else g
  }

  function First(shards: seq<nat>, g: nat): (s: nat)
    requires g in shards
    ensures s < |shards| && shards[s] == g && forall i :: 0 <= i < s ==> shards[i] != g
  {
    if shards[0] == g then 0
    else
      assert shards == [shards[0]] + shards[1..];
      First(shards[1..], g) + 1
  }

  /** An orphan goes to the least loaded group. */
  function AssignedOne(shards: seq<nat>, gids: seq<nat>, s: nat): (result: seq<nat>)
    requires gids != [] && s < |shards|
    ensures |result| == |shards| && result[s] in gids
    ensures forall i :: 0 <= i < |shards| && (i != s || shards[i] in gids) ==> result[i] == shards[i]
  {
    if shards[s] in gids then shards else shards[s := Least(shards, gids)]
  }

  /** The first `k` shards have been looked at; each that was on no member went to the least loaded
      one at that moment. */
  function Filled(shards: seq<nat>, gids: seq<nat>, k: nat): (filled: seq<nat>)
    requires gids != [] && k <= |shards|
    ensures |filled| == |shards|
    ensures forall s :: k <= s < |shards| ==> filled[s] == shards[s]
  {
    if k == 0 then shards
    else
      AssignedOne(Filled(shards, gids, k - 1), gids, k - 1)
  }

  predicate Unlevel(shards: seq<nat>, gids: seq<nat>)
    requires gids != []
  {
    Count(shards, Most(shards, gids)) >= Count(shards, Least(shards, gids)) + 2
  }

  /** One shard goes from the most to the least loaded group. */
  function Moved(shards: seq<nat>, gids: seq<nat>): (moved: seq<nat>)
    requires gids != [] && Unlevel(shards, gids)
    ensures |moved| == |shards|
  {
    assert Most(shards, gids) in multiset(shards);
    shards[First(shards, Most(shards, gids)) := Least(shards, gids)]
  }

  function Leveled(shards: seq<nat>, gids: seq<nat>): (leveled: seq<nat>)
    requires gids != [] && Ascending(gids)
    ensures |leveled| == |shards|
    decreases SumOfSquares(shards, gids)
  {
    if !Unlevel(shards, gids) then shards
    else
      MoveLowersSum(shards, gids);
      Leveled(Moved(shards, gids), gids)
  }

  function Rebalanced(shards: seq<nat>, gids: seq<nat>): (balanced: seq<nat>)
    requires Ascending(gids)
    ensures |balanced| == |shards|
  {
    if gids == [] then seq(|shards|, _ => 0)
    else Leveled(Filled(shards, gids, |shards|), gids)
  }

  // ----- it comes to an end -----

  function SumOfSquares(shards: seq<nat>, gids: seq<nat>): nat {
    if gids == [] then 0
    else
      var g := gids[|gids| - 1];
      SumOfSquares(shards, gids[..|gids| - 1]) + Square(Count(shards, g))
  }

  /** As the sum of the first `n` odd numbers. */
  function Square(n: nat): nat {
    if n == 0 then 0 else Square(n - 1) + 2 * n - 1
  }

  /** What moving one shard from `a` to `b` changes in the sum. */
  function Change(shards: seq<nat>, gids: seq<nat>, a: nat, b: nat): int {
    (if a in gids then 1 - 2 * Count(shards, a) else 0) + (if b in gids then 2 * Count(shards, b) + 1 else 0)
  }

  /** What it changes in the count of `g`. */
  function CountAfter(shards: seq<nat>, a: nat, b: nat, g: nat): int {
    if g == a then Count(shards, g) - 1 else if g == b then Count(shards, g) + 1 else Count(shards, g)
  }

  lemma CountsAfter(shards: seq<nat>, s: nat, b: nat, g: nat)
    requires s < |shards| && shards[s] != b
    ensures Count(shards[s := b], g) == CountAfter(shards, shards[s], b, g)
  {
  }

  lemma SumSplits(shards: seq<nat>, rest: seq<nat>, g: nat)
    ensures SumOfSquares(shards, rest + [g]) == SumOfSquares(shards, rest) + Square(Count(shards, g))
  {
    assert (rest + [g])[..|rest + [g]| - 1] == rest;
  }

  lemma ChangeSplits(shards: seq<nat>, rest: seq<nat>, g: nat, a: nat, b: nat)
    requires g !in rest && a != b
    ensures Change(shards, rest + [g], a, b) == Change(shards, rest, a, b) + Change(shards, [g], a, b)
  {
  }

  lemma SquareAfter(shards: seq<nat>, s: nat, b: nat, g: nat)
    requires s < |shards| && shards[s] != b
    ensures Square(Count(shards[s := b], g)) == Square(Count(shards, g)) + Change(shards, [g], shards[s], b)
  {
    CountsAfter(shards, s, b, g);
  }

  lemma {:induction false} SumAfterMove(shards: seq<nat>, s: nat, b: nat, gids: seq<nat>)
    requires s < |shards| && shards[s] != b && Ascending(gids)
    ensures SumOfSquares(shards[s := b], gids) == SumOfSquares(shards, gids) + Change(shards, gids, shards[s], b)
  {
    if gids != [] {
      var rest, g := gids[..|gids| - 1], gids[|gids| - 1];
      assert gids == rest + [g] && g !in rest;
      SumAfterMove(shards, s, b, rest);
      SumSplits(shards, rest, g);
      SumSplits(shards[s := b], rest, g);
      ChangeSplits(shards, rest, g, shards[s], b);
      SquareAfter(shards, s, b, g);
    }
  }

  lemma MoveLowersSum(shards: seq<nat>, gids: seq<nat>)
    requires gids != [] && Ascending(gids) && Unlevel(shards, gids)
    ensures SumOfSquares(Moved(shards, gids), gids) < SumOfSquares(shards, gids)
  {
    var a, b := Most(shards, gids), Least(shards, gids);
    assert a in multiset(shards);
    SumAfterMove(shards, First(shards, a), b, gids);
  }

  // ----- every shard on a member, counts within one -----

  lemma {:induction false} FilledAt(shards: seq<nat>, gids: seq<nat>, k: nat, s: nat)
    requires gids != [] && k <= |shards| && s < |shards|
    ensures s < k ==> Filled(shards, gids, k)[s] in gids
    ensures shards[s] in gids ==> Filled(shards, gids, k)[s] == shards[s]
  {
    if k > 0 { FilledAt(shards, gids, k - 1, s); }
  }

  lemma FilledAssigns(shards: seq<nat>, gids: seq<nat>)
    requires gids != []
    ensures AllAssigned(Filled(shards, gids, |shards|), gids)
  {
    forall s | 0 <= s < |shards| ensures Filled(shards, gids, |shards|)[s] in gids {
      FilledAt(shards, gids, |shards|, s);
    }
  }

  lemma {:induction false} FilledStaysEven(shards: seq<nat>, gids: seq<nat>, k: nat)
    requires gids != [] && k <= |shards| && Even(shards, gids)
    ensures Even(Filled(shards, gids, k), gids)
  {
    if k > 0 {
      FilledStaysEven(shards, gids, k - 1);
      StaysEven(Filled(shards, gids, k - 1), gids, k - 1);
    }
  }

  lemma StaysEven(shards: seq<nat>, gids: seq<nat>, s: nat)
    requires gids != [] && s < |shards| && Even(shards, gids)
    ensures Even(AssignedOne(shards, gids, s), gids)
  {
    if shards[s] !in gids {
      forall g: nat, h: nat | g in gids && h in gids
        ensures Count(AssignedOne(shards, gids, s), g) <= Count(AssignedOne(shards, gids, s), h) + 1
      {
        CountsAfter(shards, s, Least(shards, gids), g);
        CountsAfter(shards, s, Least(shards, gids), h);
      }
    }
  }

  lemma {:induction false} LeveledOk(shards: seq<nat>, gids: seq<nat>)
    requires gids != [] && Ascending(gids) && AllAssigned(shards, gids)
    ensures AllAssigned(Leveled(shards, gids), gids) && Even(Leveled(shards, gids), gids)
    decreases SumOfSquares(shards, gids)
  {
    if Unlevel(shards, gids) {
      MoveLowersSum(shards, gids);
      LeveledOk(Moved(shards, gids), gids);
    } else {
      forall g: nat, h: nat | g in gids && h in gids ensures Count(shards, g) <= Count(shards, h) + 1 {
        assert Count(shards, g) <= Count(shards, Most(shards, gids));
      }
    }
  }

  /** From any assignment: every shard ends up on a member and the counts are within one; with no
      groups at all every shard is unassigned. */
  lemma RebalancedIsBalanced(shards: seq<nat>, gids: seq<nat>)
    requires Ascending(gids)
    ensures gids != [] ==> AllAssigned(Rebalanced(shards, gids), gids) && Even(Rebalanced(shards, gids), gids)
    ensures gids == [] ==> forall s :: 0 <= s < |shards| ==> Rebalanced(shards, gids)[s] == 0
  {
    if gids != [] {
      FilledAssigns(shards, gids);
      LeveledOk(Filled(shards, gids, |shards|), gids);
    }
  }

  // ----- nothing moves that need not -----

  lemma EvenIsLevel(shards: seq<nat>, gids: seq<nat>)
    requires gids != [] && Ascending(gids) && Even(shards, gids)
    ensures Leveled(shards, gids) == shards
  {
    assert Count(shards, Most(shards, gids)) <= Count(shards, Least(shards, gids)) + 1;
  }

  /** A shard that is on a member stays there as long as the members are even among themselves. */
  lemma EvenMembersKeepTheirShards(shards: seq<nat>, gids: seq<nat>, s: nat)
    requires gids != [] && Ascending(gids) && Even(shards, gids) && s < |shards| && shards[s] in gids
    ensures Rebalanced(shards, gids)[s] == shards[s]
  {
    FilledAt(shards, gids, |shards|, s);
    FilledStaysEven(shards, gids, |shards|);
    EvenIsLevel(Filled(shards, gids, |shards|), gids);
  }

  /** A leave with survivors moves only orphaned shards. */
  lemma LeaveMovesOrphansOnly(shards: seq<nat>, gids: seq<nat>, rest: seq<nat>, s: nat)
    requires Ascending(gids) && Ascending(rest) && rest != [] && (forall g <- rest :: g in gids)
    requires Even(shards, gids) && s < |shards| && Rebalanced(shards, rest)[s] != shards[s]
    ensures shards[s] !in rest
  {
    if shards[s] in rest { EvenMembersKeepTheirShards(shards, rest, s); }
  }

  /** While the groups in `joining` fill up: the others stay even among themselves, and no newcomer is
      ever more than one ahead of anybody. */
  predicate FillingUp(shards: seq<nat>, gids: seq<nat>, joining: set<nat>) {
    && AllAssigned(shards, gids)
    && forall a: nat, b: nat :: a in gids && b in gids && (a in joining || b !in joining) ==>
         Count(shards, a) <= Count(shards, b) + 1
  }

  lemma MovedCounts(shards: seq<nat>, gids: seq<nat>, h: nat)
    requires gids != [] && Unlevel(shards, gids)
    ensures Count(Moved(shards, gids), h) == CountAfter(shards, Most(shards, gids), Least(shards, gids), h)
  {
    var a := Most(shards, gids);
    assert a in multiset(shards);
    CountsAfter(shards, First(shards, a), Least(shards, gids), h);
  }

  /** While the counts are more than one apart, the next shard goes from an old group to a newcomer. */
  lemma FillsUp(shards: seq<nat>, gids: seq<nat>, joining: set<nat>)
    requires gids != [] && FillingUp(shards, gids, joining) && Unlevel(shards, gids)
    ensures Least(shards, gids) in joining && Most(shards, gids) !in joining
    ensures FillingUp(Moved(shards, gids), gids, joining)
  {
    var a, b := Most(shards, gids), Least(shards, gids);
    assert a in joining || b !in joining ==> Count(shards, a) <= Count(shards, b) + 1;
    var shards' := Moved(shards, gids);
    forall g: nat, h: nat | g in gids && h in gids && (g in joining || h !in joining)
      ensures Count(shards', g) <= Count(shards', h) + 1
    {
      MovedCounts(shards, gids, g);
      MovedCounts(shards, gids, h);
    }
    assert a in multiset(shards);
  }

  lemma {:induction false} FillingUpMovesOntoNewcomers(shards: seq<nat>, gids: seq<nat>, joining: set<nat>, s: nat)
    requires gids != [] && Ascending(gids) && FillingUp(shards, gids, joining) && s < |shards|
    ensures Leveled(shards, gids)[s] == shards[s] || Leveled(shards, gids)[s] in joining
    decreases SumOfSquares(shards, gids)
  {
    if Unlevel(shards, gids) {
      FillsUp(shards, gids, joining);
      MoveLowersSum(shards, gids);
      FillingUpMovesOntoNewcomers(Moved(shards, gids), gids, joining, s);
    }
  }

  lemma {:induction false} FilledIsSame(shards: seq<nat>, gids: seq<nat>, k: nat)
    requires gids != [] && k <= |shards| && AllAssigned(shards, gids)
    ensures Filled(shards, gids, k) == shards
  {
    if k > 0 { FilledIsSame(shards, gids, k - 1); }
  }

  lemma AbsentCount(shards: seq<nat>, gids: seq<nat>, g: nat)
    requires AllAssigned(shards, gids) && g !in gids
    ensures Count(shards, g) == 0
  {
    assert g !in shards;
  }

  /** Joining groups to a balanced configuration moves shards only onto the groups that join. */
  lemma JoinMovesOntoNewcomers(shards: seq<nat>, gids: seq<nat>, more: seq<nat>, joining: set<nat>, s: nat)
    requires Ascending(gids) && Ascending(more) && more != []
    requires forall h: nat :: h in more <==> h in gids || h in joining
    requires forall h: nat :: h in joining ==> h !in gids
    requires gids != [] ==> AllAssigned(shards, gids) && Even(shards, gids)
    requires s < |shards|
    ensures Rebalanced(shards, more)[s] == shards[s] || Rebalanced(shards, more)[s] in joining
  {
    if gids == [] {
      RebalancedIsBalanced(shards, more);
    } else {
      FilledIsSame(shards, more, |shards|);
      forall a: nat, b: nat | a in more && b in more && (a in joining || b !in joining)
        ensures Count(shards, a) <= Count(shards, b) + 1
      {
        if a in joining { AbsentCount(shards, gids, a); }
      }
      FillingUpMovesOntoNewcomers(shards, more, joining, s);
    }
  }
}
