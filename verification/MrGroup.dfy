/** Grouping sorted pairs by key, partitioning pairs over reduce tasks, and what both mean for a
    Reduce function that does not look at the order of the values. */
module MrGroup {
  datatype KeyValue = KeyValue(key: string, value: string)

  datatype Line = Line(key: string, output: string)

  type Reduce = (string, seq<string>) -> string

  ghost predicate OrderFree(reducef: Reduce) {
    forall key, vs, ws :: multiset(vs) == multiset(ws) ==> reducef(key, vs) == reducef(key, ws)
  }

  // ----- the order of keys -----

  /** Lexicographic order, as the source compares keys. */
  predicate AtMost(a: string, b: string) {
    a == [] || (b != [] && (a[0] < b[0] || (a[0] == b[0] && AtMost(a[1..], b[1..]))))
  }

  lemma {:induction false} AtMostAntisymmetric(a: string, b: string)
    requires AtMost(a, b) && AtMost(b, a)
    ensures a == b
  {
    if a != [] && b != [] {
      AtMostAntisymmetric(a[1..], b[1..]);
      assert a == [a[0]] + a[1..] && b == [b[0]] + b[1..];
    }
  }

  predicate SortedByKey(s: seq<KeyValue>) {
    forall i, j :: 0 <= i < j < |s| ==> AtMost(s[i].key, s[j].key)
  }

  /** A result the sort may produce; pairs with equal keys come in any order. */
  predicate IsSortOf(sorted: seq<KeyValue>, s: seq<KeyValue>) {
    multiset(sorted) == multiset(s) && SortedByKey(sorted)
  }

  // ----- grouping -----

  /** The values of a key, in order. */
  function ValuesOf(s: seq<KeyValue>, key: string): seq<string> {
    if s == [] then []
    else (if s[0].key == key then [s[0].value] else []) + ValuesOf(s[1..], key)
  }

  predicate HasKey(s: seq<KeyValue>, key: string) {
    exists i :: 0 <= i < |s| && s[i].key == key
  }

  /** The end of the run of equal keys that starts at `i`, scanning from `j`. */
  function RunEnd(s: seq<KeyValue>, i: nat, j: nat): (end: nat)
    requires i < j <= |s|
    requires forall k :: i <= k < j ==> s[k].key == s[i].key
    ensures j <= end <= |s|
    ensures forall k :: i <= k < end ==> s[k].key == s[i].key
    ensures end < |s| ==> s[end].key != s[i].key
    decreases |s| - j
  {
    if j < |s| && s[j].key == s[i].key then RunEnd(s, i, j + 1) else j
  }

  function Values(s: seq<KeyValue>, i: nat, j: nat): (vs: seq<string>)
    requires i <= j <= |s|
    ensures |vs| == j - i && forall k :: 0 <= k < |vs| ==> vs[k] == s[i + k].value
    decreases j
  {
    if i == j then [] else Values(s, i, j - 1) + [s[j - 1].value]
  }

  /** One line per run of equal keys, from position `i` on. */
  function Grouped(s: seq<KeyValue>, reducef: Reduce, i: nat): seq<Line>
    requires i <= |s|
    decreases |s| - i
  {
    if i == |s| then []
    else
      var j := RunEnd(s, i, i + 1);
      [Line(s[i].key, reducef(s[i].key, Values(s, i, j)))] + Grouped(s, reducef, j)
  }

  /** The grouping loop of the reduce task and of the sequential program. */
  method Group(intermediate: seq<KeyValue>, reducef: Reduce) returns (lines: seq<Line>)
    ensures lines == Grouped(intermediate, reducef, 0)
  {
    lines := [];
    var i := 0;
    while i < |intermediate|
      invariant i <= |intermediate|
      invariant lines + Grouped(intermediate, reducef, i) == Grouped(intermediate, reducef, 0)
      decreases |intermediate| - i
    {
      var j := i + 1;
      while j < |intermediate| && intermediate[j].key == intermediate[i].key
        invariant i < j <= |intermediate|
        invariant forall k :: i <= k < j ==> intermediate[k].key == intermediate[i].key
        invariant RunEnd(intermediate, i, j) == RunEnd(intermediate, i, i + 1)
      {
        j := j + 1;
      }
      var values := [];
      for k := i to j
        invariant values == Values(intermediate, i, k)
      {
        values := values + [intermediate[k].value];
      }
      var output := reducef(intermediate[i].key, values);
      ghost var line, rest := Line(intermediate[i].key, output), Grouped(intermediate, reducef, j);
      assert lines + ([line] + rest) == (lines + [line]) + rest;
      lines := lines + [Line(intermediate[i].key, output)];
      i := j;
    }
  }

  // ----- what grouping means -----

  lemma {:induction false} ValuesSplit(s: seq<KeyValue>, t: seq<KeyValue>, key: string)
    ensures ValuesOf(s + t, key) == ValuesOf(s, key) + ValuesOf(t, key)
  {
    if s == [] {
      assert s + t == t;
    } else {
      ValuesSplit(s[1..], t, key);
      assert (s + t)[1..] == s[1..] + t && (s + t)[0] == s[0];
      var first := if s[0].key == key then [s[0].value] else [];
      assert first + (ValuesOf(s[1..], key) + ValuesOf(t, key)) == first + ValuesOf(s[1..], key) + ValuesOf(t, key);
    }
  }

  /** Counting values is counting pairs. */
  lemma {:induction false} ValuesCount(s: seq<KeyValue>, key: string, value: string)
    ensures multiset(ValuesOf(s, key))[value] == multiset(s)[KeyValue(key, value)]
  {
    if s != [] {
      ValuesCount(s[1..], key, value);
      assert s == [s[0]] + s[1..];
    }
  }

  lemma SameValues(s: seq<KeyValue>, t: seq<KeyValue>, key: string)
    requires multiset(s) == multiset(t)
    ensures multiset(ValuesOf(s, key)) == multiset(ValuesOf(t, key))
    ensures HasKey(s, key) == HasKey(t, key)
  {
    forall value ensures multiset(ValuesOf(s, key))[value] == multiset(ValuesOf(t, key))[value] {
      ValuesCount(s, key, value);
      ValuesCount(t, key, value);
    }
    KeyMoves(s, t, key);
    KeyMoves(t, s, key);
  }

  lemma KeyMoves(s: seq<KeyValue>, t: seq<KeyValue>, key: string)
    requires multiset(s) == multiset(t)
    ensures HasKey(s, key) ==> HasKey(t, key)
  {
    if HasKey(s, key) {
      var i :| 0 <= i < |s| && s[i].key == key;
      assert s[i] in multiset(t);
    }
  }

  lemma {:induction false} NoValues(s: seq<KeyValue>, key: string)
    requires !HasKey(s, key)
    ensures ValuesOf(s, key) == []
  {
    if s != [] {
      assert s[0].key != key;
      assert forall i :: 0 <= i < |s[1..]| ==> s[1..][i] == s[i + 1];
      NoValues(s[1..], key);
    }
  }

  lemma {:induction false} RunValues(s: seq<KeyValue>, i: nat, j: nat, key: string)
    requires i < j <= |s| && forall k :: i <= k < j ==> s[k].key == s[i].key
    ensures ValuesOf(s[i..j], key) == if key == s[i].key then Values(s, i, j) else []
    decreases j
  {
    assert s[i..j] == s[i..j - 1] + [s[j - 1]];
    ValuesSplit(s[i..j - 1], [s[j - 1]], key);
    if i + 1 < j { RunValues(s, i, j - 1, key); }
  }

  /** In sorted pairs a key does not come back after its run. */
  lemma RunIsAll(s: seq<KeyValue>, i: nat)
    requires SortedByKey(s) && i < |s|
    ensures !HasKey(s[RunEnd(s, i, i + 1)..], s[i].key)
  {
    var j := RunEnd(s, i, i + 1);
    forall p | j <= p < |s| ensures s[p].key != s[i].key {
      if s[p].key == s[i].key { AtMostAntisymmetric(s[j].key, s[i].key); }
    }
  }

  /** What is left after a run has the same keys and values, except for the run's own key. */
  lemma AfterRun(s: seq<KeyValue>, i: nat, key: string)
    requires SortedByKey(s) && i < |s|
    ensures var j := RunEnd(s, i, i + 1);
            && HasKey(s[i..], s[i].key) && ValuesOf(s[i..], s[i].key) == Values(s, i, j)
            && !HasKey(s[j..], s[i].key)
            && (key != s[i].key ==>
                  HasKey(s[i..], key) == HasKey(s[j..], key) && ValuesOf(s[i..], key) == ValuesOf(s[j..], key))
  {
    var j := RunEnd(s, i, i + 1);
    RunIsAll(s, i);
    NoValues(s[j..], s[i].key);
    assert s[i..] == s[i..j] + s[j..];
    ValuesSplit(s[i..j], s[j..], key);
    ValuesSplit(s[i..j], s[j..], s[i].key);
    RunValues(s, i, j, key);
    RunValues(s, i, j, s[i].key);
    assert s[i..][0].key == s[i].key;
    if key != s[i].key { KeysAfter(s, i, j, key); }
  }

  lemma KeysAfter(s: seq<KeyValue>, i: nat, j: nat, key: string)
    requires i <= j <= |s| && forall k :: i <= k < j ==> s[k].key != key
    ensures HasKey(s[i..], key) == HasKey(s[j..], key)
  {
    if HasKey(s[i..], key) {
      var p :| 0 <= p < |s[i..]| && s[i..][p].key == key;
      assert s[j..][p + i - j].key == key;
    }
    if HasKey(s[j..], key) {
      var p :| 0 <= p < |s[j..]| && s[j..][p].key == key;
      assert s[i..][p + j - i].key == key;
    }
  }

  /** The line a key should get. */
  ghost predicate IsLineOf(s: seq<KeyValue>, reducef: Reduce, line: Line) {
    HasKey(s, line.key) && line.output == reducef(line.key, ValuesOf(s, line.key))
  }

  /** Grouping sorted pairs yields, once each, exactly the lines of the keys that occur. */
  lemma {:induction false} GroupedLines(s: seq<KeyValue>, reducef: Reduce, i: nat, line: Line)
    requires SortedByKey(s) && i <= |s|
    ensures multiset(Grouped(s, reducef, i))[line] == if IsLineOf(s[i..], reducef, line) then 1 else 0
    decreases |s| - i
  {
    if i < |s| {
      var j := RunEnd(s, i, i + 1);
      GroupedLines(s, reducef, j, line);
      AfterRun(s, i, line.key);
    }
  }

  /** Whatever way equal keys were sorted, the same lines come out. */
  lemma SortedLines(sorted: seq<KeyValue>, s: seq<KeyValue>, reducef: Reduce, line: Line)
    requires IsSortOf(sorted, s) && OrderFree(reducef)
    ensures multiset(Grouped(sorted, reducef, 0))[line] == if IsLineOf(s, reducef, line) then 1 else 0
  {
    GroupedLines(sorted, reducef, 0, line);
    assert sorted[0..] == sorted;
    SameValues(sorted, s, line.key);
  }

  // ----- partitioning -----

  /** A reduce task for every key. */
  type Partitioner = string -> nat

  function Bucket(s: seq<KeyValue>, part: Partitioner, r: nat): seq<KeyValue> {
    if s == [] then []
    else Bucket(s[..|s| - 1], part, r) + if part(s[|s| - 1].key) == r then [s[|s| - 1]] else []
  }

  /** The partitioning loop of the map task. */
  method Partition(kva: seq<KeyValue>, hash: string -> nat, nReduce: nat) returns (buckets: seq<seq<KeyValue>>)
    requires nReduce > 0
    ensures |buckets| == nReduce
    ensures forall r :: 0 <= r < nReduce ==> buckets[r] == Bucket(kva, key => hash(key) % nReduce, r)
  {
    buckets := seq(nReduce, _ => []);
    for i := 0 to |kva|
      invariant |buckets| == nReduce
      invariant forall r :: 0 <= r < nReduce ==> buckets[r] == Bucket(kva[..i], key => hash(key) % nReduce, r)
    {
      var reduceId := hash(kva[i].key) % nReduce;
      assert kva[..i + 1][..i] == kva[..i];
      buckets := buckets[reduceId := buckets[reduceId] + [kva[i]]];
    }
    assert kva[..|kva|] == kva;
  }

  /** A bucket holds all values of its own keys, in order, and nothing of the others. */
  lemma {:induction false} BucketValues(s: seq<KeyValue>, part: Partitioner, r: nat, key: string)
    ensures ValuesOf(Bucket(s, part, r), key) == if part(key) == r then ValuesOf(s, key) else []
    ensures HasKey(Bucket(s, part, r), key) <==> HasKey(s, key) && part(key) == r
  {
    if s != [] {
      var rest, last := s[..|s| - 1], s[|s| - 1];
      BucketValues(rest, part, r, key);
      assert s == rest + [last];
      ValuesSplit(rest, [last], key);
      var tail := if part(last.key) == r then [last] else [];
      ValuesSplit(Bucket(rest, part, r), tail, key);
      KeySplit(rest, [last], key);
      KeySplit(Bucket(rest, part, r), tail, key);
      assert HasKey([last], key) <==> last.key == key by { assert [last][0] == last; }
    }
  }

  lemma KeySplit(s: seq<KeyValue>, t: seq<KeyValue>, key: string)
    ensures HasKey(s + t, key) <==> HasKey(s, key) || HasKey(t, key)
  {
    if HasKey(t, key) {
      var i :| 0 <= i < |t| && t[i].key == key;
      assert (s + t)[|s| + i].key == key;
    }
    if HasKey(s, key) {
      var i :| 0 <= i < |s| && s[i].key == key;
      assert (s + t)[i].key == key;
    }
  }
}
