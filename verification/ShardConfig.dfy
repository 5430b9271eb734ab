/** The configuration object: shards in a fixed array, groups in a map, both updated in place. */
module ShardConfig {
  import opened Rebalance

  // Analyze's starting value for the fewest shards; no group ever holds that many.
  const SENTINEL: nat := 257

  type Groups = map<nat, seq<string>>

  predicate IsMin(ids: set<nat>, m: nat) {
    m in ids && forall k <- ids :: m <= k
  }

  lemma {:induction false} MinOf(ids: set<nat>) returns (m: nat)
    requires ids != {}
    ensures IsMin(ids, m)
    decreases |ids|
  {
    var x :| x in ids;
    var rest := ids - {x};
    assert forall k <- ids :: k == x || k in rest;
    m := x;
    if rest != {} {
      var m' := MinOf(rest);
      if m' < x { m := m'; }
    }
  }

  /** The identifiers in ascending order. */
  ghost function Ids(ids: set<nat>): (gids: seq<nat>)
    ensures Ascending(gids) && forall g: nat :: g in gids <==> g in ids
    decreases |ids|
  {
    if ids == {} then []
    else
      assert exists m :: IsMin(ids, m) by { var m := MinOf(ids); }
      var m :| IsMin(ids, m);
      [m] + Ids(ids - {m})
  }

  lemma MinIsFirst(ids: set<nat>, m: nat)
    requires IsMin(ids, m)
    ensures Ids(ids) == [m] + Ids(ids - {m})
  {
  }

  lemma TakesMin(done: seq<nat>, rest: set<nat>, m: nat)
    requires IsMin(rest, m)
    ensures done + [m] + Ids(rest - {m}) == done + Ids(rest)
  {
    MinIsFirst(rest, m);
    assert done + [m] + Ids(rest - {m}) == done + ([m] + Ids(rest - {m}));
  }

  /** Sorts the identifiers, smallest first. */
  method Sorted(ids: set<nat>) returns (gids: seq<nat>)
    ensures gids == Ids(ids)
  {
    gids := [];
    var rest := ids;
    while rest != {}
      invariant gids + Ids(rest) == Ids(ids)
      decreases |rest|
    {
      ghost var min := MinOf(rest);
      var m :| m in rest && IsMin(rest, m);
      TakesMin(gids, rest, m);
      gids, rest := gids + [m], rest - {m};
    }
  }

  datatype Outcome = Changed | Refused | Fatal

  predicate Clash(xs: seq<string>, ys: seq<string>) {
    exists x <- xs :: x in ys
  }

  /** The groups to join are new, at least one, and no server is in two groups. */
  ghost predicate CanJoin(groups: Groups, servers: Groups) {
    && servers != map[] && groups.Keys !! servers.Keys
    && (forall g <- servers, h <- groups :: !Clash(groups[h], servers[g]))
    && (forall g <- servers, h <- servers :: g != h ==> !Clash(servers[h], servers[g]))
  }

  /** All but the groups in `rest` have joined. */
  ghost predicate JoinedAllBut(was: Groups, servers: Groups, rest: set<nat>, groups: Groups) {
    && rest <= servers.Keys
    && (forall g <- was :: g in groups && groups[g] == was[g])
    && (forall g <- servers :: g !in rest ==> g in groups && g !in was && groups[g] == servers[g])
    && (forall g <- groups :: g in was || (g in servers && g !in rest))
    && (forall g <- servers, h <- groups :: g !in rest && g != h ==> !Clash(groups[h], servers[g]))
  }

  lemma JoinsNext(was: Groups, servers: Groups, rest: set<nat>, groups: Groups, g: nat)
    requires JoinedAllBut(was, servers, rest, groups) && g in rest
    ensures CanJoin(was, servers) ==> g !in groups && forall h <- groups :: !Clash(groups[h], servers[g])
    ensures g !in groups && (forall h <- groups :: !Clash(groups[h], servers[g])) ==>
              JoinedAllBut(was, servers, rest - {g}, groups[g := servers[g]])
  {
    ClashIsSymmetric();
  }

  lemma ClashIsSymmetric()
    ensures forall xs, ys :: Clash(xs, ys) == Clash(ys, xs)
  {
  }

  lemma AllJoined(was: Groups, servers: Groups, groups: Groups)
    requires JoinedAllBut(was, servers, {}, groups) && servers != map[]
    ensures CanJoin(was, servers) && groups == was + servers
  {
  }

  predicate CanLeave(groups: Groups, gids: seq<nat>) {
    && gids != [] && (forall g <- gids :: g in groups)
    && (forall i, j :: 0 <= i < j < |gids| ==> gids[i] != gids[j])
  }

  /** Scans the groups for the most and the least loaded one; the first of several wins. */
  method Extremes(ghost shards: seq<nat>, counts: map<nat, nat>, gids: seq<nat>)
      returns (mg: int, mn: int, lg: int, ln: int)
    requires |shards| < SENTINEL
    requires forall g: nat :: Count(shards, g) == if g in counts then counts[g] else 0
    ensures gids == [] ==> mg == -1 && mn == -1 && lg == -1 && ln == SENTINEL
    ensures gids != [] ==> mg == Most(shards, gids) && mn == Count(shards, mg)
    ensures gids != [] ==> lg == Least(shards, gids) && ln == Count(shards, lg)
  {
    mn, mg, ln, lg := -1, -1, SENTINEL, -1;
    for i := 0 to |gids|
      invariant i == 0 ==> mg == -1 && mn == -1 && lg == -1 && ln == SENTINEL
      invariant i > 0 ==> mg == Most(shards, gids[..i]) && mn == Count(shards, mg)
      invariant i > 0 ==> lg == Least(shards, gids[..i]) && ln == Count(shards, lg)
    {
      var g := gids[i];
      var c := if g in counts then counts[g] else 0;
      CountBound(shards, g);
      assert gids[..i + 1] == gids[..i] + [g];
      ExtremesNext(shards, gids[..i], g);
      if c < ln {
        ln, lg := c, g;
      }
      if c > mn {
        mn, mg := c, g;
      }
    }
    assert gids[..|gids|] == gids;
  }

  /** Every shard on a member and the counts within one, if there are members. */
  ghost predicate Balanced(shards: seq<nat>, groups: Groups) {
    groups != map[] ==> AllAssigned(shards, Ids(groups.Keys)) && Even(shards, Ids(groups.Keys))
  }

  predicate MovesOnlyOnto(before: seq<nat>, after: seq<nat>, joining: set<nat>) {
    |after| == |before| && forall s :: 0 <= s < |before| ==> after[s] == before[s] || after[s] in joining
  }

  lemma OntoNewcomers(shards: seq<nat>, groups: Groups, servers: Groups)
    requires Balanced(shards, groups) && servers != map[] && groups.Keys !! servers.Keys
    ensures MovesOnlyOnto(shards, Rebalanced(shards, Ids((groups + servers).Keys)), servers.Keys)
  {
    var gids, more := Ids(groups.Keys), Ids((groups + servers).Keys);
    assert exists g: nat :: g in servers;
    forall s | 0 <= s < |shards|
      ensures Rebalanced(shards, more)[s] == shards[s] || Rebalanced(shards, more)[s] in servers.Keys
    {
      JoinMovesOntoNewcomers(shards, gids, more, servers.Keys, s);
    }
  }

  class ShardConfig {
    var num: nat
    const shards: array<nat>
    var groups: Groups

    ghost predicate Valid()
      reads this
    {
      shards.Length < SENTINEL
    }

    constructor (n: nat)
      requires n < SENTINEL
      ensures Valid() && fresh(shards) && num == 0 && groups == map[] && shards[..] == seq(n, _ => 0)
    {
      num, groups := 0, map[];
      shards := new nat[n](_ => 0);
      new;
      assert shards[..] == seq(n, _ => 0);
    }

    /** Per group number of shards, 0 for a group without an entry. */
    method Counts() returns (counts: map<nat, nat>)
      ensures forall g: nat :: Count(shards[..], g) == if g in counts then counts[g] else 0
    {
      counts := map[];
      for i := 0 to shards.Length
        invariant forall g: nat :: Count(shards[..i], g) == if g in counts then counts[g] else 0
      {
        assert shards[..i + 1] == shards[..i] + [shards[i]];
        counts := counts[shards[i] := if shards[i] in counts then counts[shards[i]] + 1 else 1];
      }
      assert shards[..] == shards[..shards.Length];
    }

    /** The most and the least loaded group with their shard counts. */
    method Analyze() returns (mg: int, mn: int, lg: int, ln: int)
      requires Valid()
      ensures groups == map[] ==> mg == -1 && mn == -1 && lg == -1 && ln == SENTINEL
      ensures groups != map[] ==>
                && Ids(groups.Keys) != []
                && mg == Most(shards[..], Ids(groups.Keys)) && mn == Count(shards[..], mg)
                && lg == Least(shards[..], Ids(groups.Keys)) && ln == Count(shards[..], lg)
    {
      var counts := Counts();
      var gids := Sorted(groups.Keys);
      assert groups != map[] ==> exists g: nat :: g in groups;
      mg, mn, lg, ln := Extremes(shards[..], counts, gids);
    }

    /** Puts every orphan on the least loaded group of the moment. */
    method AssignOrphans()
      requires Valid() && groups != map[] && Ids(groups.Keys) != []
      modifies shards
      ensures shards[..] == Filled(old(shards[..]), Ids(groups.Keys), shards.Length)
    {
      ghost var was, gids := shards[..], Ids(groups.Keys);
      for s := 0 to shards.Length
        invariant shards[..] == Filled(was, gids, s)
      {
        if shards[s] !in groups {
          var mg, mn, lg, ln := Analyze();
          shards[s] := lg;
        }
      }
    }

    /** Moves one shard from `mg` to `lg`. */
    method MoveOne(mg: int, lg: nat)
      requires mg in shards[..]
      modifies shards
      ensures shards[..] == old(shards[..])[First(old(shards[..]), mg) := lg]
    {
      var s := 0;
      while shards[s] != mg
        invariant s < shards.Length && forall i :: 0 <= i < s ==> shards[i] != mg
        decreases shards.Length - s
      {
        s := s + 1;
      }
      shards[s] := lg;
    }

    method Rebalance()
      requires Valid()
      modifies shards
      ensures shards[..] == Rebalanced(old(shards[..]), Ids(groups.Keys))
      ensures groups != map[] ==> AllAssigned(shards[..], Ids(groups.Keys)) && Even(shards[..], Ids(groups.Keys))
    {
      ghost var gids := Ids(groups.Keys);
      RebalancedIsBalanced(shards[..], gids);
      if |groups| < 1 {
        for s := 0 to shards.Length
          invariant forall k :: 0 <= k < s ==> shards[k] == 0
        {
          shards[s] := 0;
        }
        return;
      }
      assert groups != map[];
      AssignOrphans();
      Level();
    }

    /** Moves shards from the most to the least loaded group until they are even. */
    method Level()
      requires Valid() && groups != map[] && Ids(groups.Keys) != []
      modifies shards
      ensures shards[..] == Leveled(old(shards[..]), Ids(groups.Keys))
    {
      ghost var gids := Ids(groups.Keys);
      ghost var target := Leveled(shards[..], gids);
      while true
        invariant Leveled(shards[..], gids) == target
        decreases SumOfSquares(shards[..], gids)
      {
        var mg, mn, lg, ln := Analyze();
        if mn < ln + 2 {
          break;
        }
        MoveLowersSum(shards[..], gids);
        assert mg in multiset(shards[..]);
        MoveOne(mg, lg);
      }
    }

    /** Some server of the group is already in another group. */
    method SharesServer(servers: seq<string>) returns (clash: bool)
      ensures clash <==> exists h <- groups :: Clash(groups[h], servers)
    {
      var rest := groups.Keys;
      clash := false;
      while rest != {}
        invariant rest <= groups.Keys
        invariant !clash && forall h <- groups :: h in rest || !Clash(groups[h], servers)
        decreases rest
      {
        var h :| h in rest;
        if exists x <- groups[h] :: x in servers {
          assert Clash(groups[h], servers);
          return true;
        }
        rest := rest - {h};
      }
    }

    /** Adds the groups one by one, in any order. */
    method Join(servers: Groups) returns (outcome: Outcome)
      modifies this`num, this`groups
      ensures outcome == Changed <==> CanJoin(old(groups), servers)
      ensures outcome == Changed ==> groups == old(groups) + servers && num == old(num) + 1
    {
      ghost var was := groups;
      var rest := servers.Keys;
      while rest != {}
        invariant JoinedAllBut(was, servers, rest, groups) && num == old(num)
        decreases rest
      {
        var gid :| gid in rest;
        JoinsNext(was, servers, rest, groups, gid);
        if gid in groups {
          return Refused;
        }
        var clash := SharesServer(servers[gid]);
        if clash {
          return Fatal;
        }
        groups := groups[gid := servers[gid]];
        rest := rest - {gid};
      }
      if servers == map[] {
        return Fatal;
      }
      AllJoined(was, servers, groups);
      num := num + 1;
      return Changed;
    }

    method Leave(gids: seq<nat>) returns (outcome: Outcome)
      modifies this`num, this`groups
      ensures outcome == Changed <==> CanLeave(old(groups), gids)
      ensures outcome == Changed ==> groups == old(groups) - (set g | g in gids) && num == old(num) + 1
    {
      for i := 0 to |gids|
        invariant groups == old(groups) - (set g | g in gids[..i])
        invariant forall k :: 0 <= k < i ==> gids[k] in old(groups)
        invariant forall j, k :: 0 <= j < k < i ==> gids[j] != gids[k]
        invariant num == old(num)
      {
        if gids[i] !in groups {
          return Refused;
        }
        assert gids[..i + 1] == gids[..i] + [gids[i]];
        groups := groups - {gids[i]};
      }
      assert gids[..|gids|] == gids;
      if gids == [] {
        return Fatal;
      }
      num := num + 1;
      return Changed;
    }

    /** A join moves shards only onto the groups that join. */
    method JoinBalance(servers: Groups) returns (outcome: Outcome)
      requires Valid()
      modifies this`num, this`groups, shards
      ensures outcome == Changed <==> CanJoin(old(groups), servers)
      ensures outcome == Changed ==> groups == old(groups) + servers && num == old(num) + 1
      ensures outcome == Changed ==> Balanced(shards[..], groups)
      ensures outcome == Changed && Balanced(old(shards[..]), old(groups)) ==>
                MovesOnlyOnto(old(shards[..]), shards[..], servers.Keys)
    {
      ghost var before, was := shards[..], groups;
      outcome := Join(servers);
      if outcome != Changed {
        return;
      }
      Rebalance();
      if Balanced(before, was) { OntoNewcomers(before, was, servers); }
    }

    /** A leave with survivors moves only the shards of the groups that left. */
    method LeaveBalance(gids: seq<nat>) returns (outcome: Outcome)
      requires Valid()
      modifies this`num, this`groups, shards
      ensures outcome == Changed <==> CanLeave(old(groups), gids)
      ensures outcome == Changed ==> groups == old(groups) - (set g | g in gids) && num == old(num) + 1
      ensures outcome == Changed ==> Balanced(shards[..], groups)
      ensures outcome == Changed && groups == map[] ==> forall s :: 0 <= s < shards.Length ==> shards[s] == 0
      ensures outcome == Changed && groups != map[] && Balanced(old(shards[..]), old(groups)) ==>
                forall s :: 0 <= s < shards.Length && shards[s] != old(shards[s]) ==> old(shards[s]) in gids
    {
      ghost var before, was := shards[..], groups;
      outcome := Leave(gids);
      if outcome != Changed {
        return;
      }
      Rebalance();
      RebalancedIsBalanced(before, Ids(groups.Keys));
      if groups != map[] && Balanced(before, was) {
        forall s | 0 <= s < shards.Length && shards[s] != before[s] ensures before[s] in gids {
          assert exists g: nat :: g in groups;
          LeaveMovesOrphansOnly(before, Ids(was.Keys), Ids(groups.Keys), s);
        }
      }
    }
  }

  lemma ExtremesNext(shards: seq<nat>, gids: seq<nat>, g: nat)
    ensures gids == [] ==> Least(shards, gids + [g]) == g && Most(shards, gids + [g]) == g
    ensures gids != [] ==>
              var l, m := Least(shards, gids), Most(shards, gids);
              && Least(shards, gids + [g]) == (if Count(shards, g) < Count(shards, l) then g else l)
              && Most(shards, gids + [g]) == if Count(shards, g) > Count(shards, m) then g else m
  {
    assert (gids + [g])[..|gids + [g]| - 1] == gids;
  }

  lemma CountBound(shards: seq<nat>, g: nat)
    ensures Count(shards, g) <= |shards|
  {
    if shards != [] {
      CountBound(shards[1..], g);
      assert shards == [shards[0]] + shards[1..];
    }
  }
}
