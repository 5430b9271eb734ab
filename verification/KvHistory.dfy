/** The store told from the puts it was given, without looking into it: which puts run, which take
    effect, and what every get and put answers. */
module KvHistory {
  import opened KvStore
  import opened Dedup

  /** A get of a key that these puts, one after the other, have written. */
  function Shown(winners: seq<PutArgs>): Reply {
    if winners == [] then GetReply("", 0, ErrNoKey)
    else GetReply(winners[|winners| - 1].value, |winners|, OK)
  }

  /** A conditional put to a key that has been written `n` times. */
  function Outcome(n: nat, version: nat): Err {
    if version == n then OK else if n == 0 then ErrNoKey else ErrVersion
  }

  /** A put with an identity the table accepts. */
  predicate Proper(args: PutArgs) {
    args.clientId != 0 && args.ack < args.sequence
  }

  predicate SameRequest(a: PutArgs, b: PutArgs) {
    a.clientId == b.clientId != 0 && a.sequence == b.sequence
  }

  /** The highest acknowledgement client `c` has sent with the first `k` puts. */
  function Watermark(ops: seq<PutArgs>, k: nat, c: nat): nat
    requires k <= |ops|
  {
    if k == 0 then 0
    else
      var before := Watermark(ops, k - 1, c);
      if Proper(ops[k - 1]) && ops[k - 1].clientId == c && ops[k - 1].ack > before then ops[k - 1].ack else before
  }

  /** The `k`-th put runs: it has no identity, or its request is above the watermark and none of the
      earlier copies ran. */
  ghost predicate Ran(ops: seq<PutArgs>, k: nat)
    requires k < |ops|
    decreases k
  {
    || ops[k].clientId == 0
    || (&& Proper(ops[k]) && ops[k].sequence > Watermark(ops, k, ops[k].clientId)
        && forall j: nat :: j < k && SameRequest(ops[j], ops[k]) ==> !Ran(ops, j))
  }

  /** The puts to `key` among the first `k` that took effect: those that ran with the version the key
      had, which is the number of earlier ones. */
  ghost function Winners(ops: seq<PutArgs>, k: nat, key: string): seq<PutArgs>
    requires k <= |ops|
  {
    if k == 0 then []
    else Winners(ops, k - 1, key) + if ops[k - 1].key == key && Wins(ops, k - 1) then [ops[k - 1]] else []
  }

  ghost predicate Wins(ops: seq<PutArgs>, k: nat)
    requires k < |ops|
  {
    Ran(ops, k) && ops[k].version == |Winners(ops, k, ops[k].key)|
  }

  ghost function OutcomeAt(ops: seq<PutArgs>, k: nat): Err
    requires k < |ops|
  {
    Outcome(|Winners(ops, k, ops[k].key)|, ops[k].version)
  }

  /** What the `k`-th put is answered: its outcome if it runs, the outcome of the copy that ran if that
      is still above the watermark, and otherwise that it is stale. */
  ghost predicate IsAnswer(ops: seq<PutArgs>, k: nat, err: Err)
    requires k < |ops|
  {
    if Ran(ops, k) then err == OutcomeAt(ops, k)
    else if Proper(ops[k]) && ops[k].sequence > Watermark(ops, k, ops[k].clientId) then
      exists j: nat :: j < k && AnsweredAs(ops, k, j, err)
    else err == ErrStaleRequest
  }

  ghost predicate AnsweredAs(ops: seq<PutArgs>, k: nat, j: nat, err: Err)
    requires j < k < |ops|
  {
    SameRequest(ops[j], ops[k]) && Ran(ops, j) && err == OutcomeAt(ops, j)
  }

  // ----- the request table -----

  ghost predicate RanAs(ops: seq<PutArgs>, j: nat, c: nat, q: nat) {
    j < |ops| && ops[j].clientId == c != 0 && ops[j].sequence == q && Ran(ops, j)
  }

  ghost predicate RanBefore(ops: seq<PutArgs>, k: nat, c: nat, q: nat) {
    exists j: nat :: j < k && RanAs(ops, j, c, q)
  }

  function Sessions(ops: seq<PutArgs>, k: nat, c: nat): Session
    requires k <= |ops|
  {
    SessionOf(Executed(EMPTY_STORE, ops, k).requests, c)
  }

  /** The table holds the watermark, and a reply for exactly the requests above it that ran. */
  ghost predicate TableOk(ops: seq<PutArgs>, k: nat, c: nat, q: nat)
    requires k <= |ops|
  {
    && Sessions(ops, k, c).ack == Watermark(ops, k, c)
    && (q in Sessions(ops, k, c).replies <==> q > Watermark(ops, k, c) && RanBefore(ops, k, c, q))
  }

  lemma RunsIsRan(ops: seq<PutArgs>, k: nat)
    requires k < |ops| && (ops[k].clientId != 0 ==> TableOk(ops, k, ops[k].clientId, ops[k].sequence))
    ensures Runs(Executed(EMPTY_STORE, ops, k), ops[k]) <==> Ran(ops, k)
  {
    var c, q := ops[k].clientId, ops[k].sequence;
    if c != 0 {
      assert RanBefore(ops, k, c, q) <==> exists j: nat :: j < k && SameRequest(ops[j], ops[k]) && Ran(ops, j) by {
        if RanBefore(ops, k, c, q) {
          var j: nat :| j < k && RanAs(ops, j, c, q);
          assert SameRequest(ops[j], ops[k]) && Ran(ops, j);
        }
        if j: nat :| j < k && SameRequest(ops[j], ops[k]) && Ran(ops, j) {
          assert RanAs(ops, j, c, q);
        }
      }
    }
  }

  lemma RanBeforeNext(ops: seq<PutArgs>, k: nat, c: nat, q: nat)
    requires k < |ops|
    ensures RanBefore(ops, k + 1, c, q) <==> RanBefore(ops, k, c, q) || RanAs(ops, k, c, q)
  {
    if RanBefore(ops, k + 1, c, q) {
      var j: nat :| j < k + 1 && RanAs(ops, j, c, q);
    }
  }

  /** Which sessions a put touches, and how. */
  lemma SessionNext(ops: seq<PutArgs>, k: nat, c: nat)
    requires k < |ops| && c != 0
    ensures var s, s' := Sessions(ops, k, c), Sessions(ops, k + 1, c);
            if ops[k].clientId != c || !Proper(ops[k]) then s' == s
            else
              && s'.ack == (if ops[k].ack > s.ack then ops[k].ack else s.ack)
              && forall q: nat :: q in s'.replies <==>
                   (q in s.replies && (ops[k].ack > s.ack ==> q > ops[k].ack))
                   || (q == ops[k].sequence && Runs(Executed(EMPTY_STORE, ops, k), ops[k]))
  {
  }

  lemma {:induction false} TableAt(ops: seq<PutArgs>, k: nat, c: nat, q: nat)
    requires k <= |ops| && c != 0
    ensures TableOk(ops, k, c, q)
  {
    if k > 0 {
      TableAt(ops, k - 1, c, q);
      var op := ops[k - 1];
      if op.clientId != 0 { TableAt(ops, k - 1, op.clientId, op.sequence); }
      RunsIsRan(ops, k - 1);
      SessionNext(ops, k - 1, c);
      RanBeforeNext(ops, k - 1, c, q);
    }
  }

  lemma RunsExactly(ops: seq<PutArgs>, k: nat)
    requires k < |ops|
    ensures Runs(Executed(EMPTY_STORE, ops, k), ops[k]) <==> Ran(ops, k)
  {
    if ops[k].clientId != 0 { TableAt(ops, k, ops[k].clientId, ops[k].sequence); }
    RunsIsRan(ops, k);
  }

  // ----- values -----

  ghost predicate ValueOk(ops: seq<PutArgs>, k: nat, key: string)
    requires k <= |ops|
  {
    var values, winners := Executed(EMPTY_STORE, ops, k).values, Winners(ops, k, key);
    && (key in values <==> winners != [])
    && (key in values ==> values[key] == Versioned(winners[|winners| - 1].value, |winners|))
  }

  /** What a put does to the values, in terms of the conditional write. */
  lemma ValuesNext(ops: seq<PutArgs>, k: nat)
    requires k < |ops|
    ensures var st := Executed(EMPTY_STORE, ops, k);
            && Executed(EMPTY_STORE, ops, k + 1).values ==
               (if Runs(st, ops[k]) then Write(st.values, ops[k]).0 else st.values)
            && (Runs(st, ops[k]) ==> DoPut(st, ops[k]).1 == Write(st.values, ops[k]).1)
  {
  }

  lemma WriteOutcome(values: Values, args: PutArgs, winners: seq<PutArgs>)
    requires args.key in values <==> winners != []
    requires args.key in values ==> values[args.key] == Versioned(winners[|winners| - 1].value, |winners|)
    ensures var (values', err) := Write(values, args);
            && err == Outcome(|winners|, args.version)
            && values' == if err == OK then values[args.key := Versioned(args.value, |winners| + 1)] else values
  {
  }

  /** The store's values are the puts that took effect: for each key the last one's value, with their
      number as the version. */
  lemma {:induction false} ValueAt(ops: seq<PutArgs>, k: nat, key: string)
    requires k <= |ops|
    ensures ValueOk(ops, k, key)
  {
    if k > 0 {
      ValueAt(ops, k - 1, key);
      RunsExactly(ops, k - 1);
      ValuesNext(ops, k - 1);
      if Ran(ops, k - 1) {
        ValueAt(ops, k - 1, ops[k - 1].key);
        WriteOutcome(Executed(EMPTY_STORE, ops, k - 1).values, ops[k - 1], Winners(ops, k - 1, ops[k - 1].key));
      }
    }
  }

  // ----- answers -----

  /** A get shows the last put that took effect and how many did. */
  lemma GetAnswer(ops: seq<PutArgs>, k: nat, key: string)
    requires k <= |ops|
    ensures Read(Executed(EMPTY_STORE, ops, k).values, key) == Shown(Winners(ops, k, key))
  {
    ValueAt(ops, k, key);
  }

  lemma RunAnswer(ops: seq<PutArgs>, k: nat)
    requires k < |ops| && Ran(ops, k)
    ensures DoPut(Executed(EMPTY_STORE, ops, k), ops[k]).1 == OutcomeAt(ops, k)
  {
    RunsExactly(ops, k);
    ValuesNext(ops, k);
    ValueAt(ops, k, ops[k].key);
    WriteOutcome(Executed(EMPTY_STORE, ops, k).values, ops[k], Winners(ops, k, ops[k].key));
  }

  lemma FirstReply(ops: seq<PutArgs>, j: nat)
    requires j < |ops| && ops[j].clientId != 0 && Ran(ops, j)
    ensures ops[j].sequence in Sessions(ops, j + 1, ops[j].clientId).replies
    ensures Sessions(ops, j + 1, ops[j].clientId).replies[ops[j].sequence] == OutcomeAt(ops, j)
  {
    RunsExactly(ops, j);
    RunAnswer(ops, j);
  }

  /** A reply that is there now was there before, if its request ran before. */
  lemma ReplyWasThere(ops: seq<PutArgs>, k: nat, j: nat)
    requires j < k < |ops| && ops[j].clientId != 0 && Ran(ops, j)
    requires ops[j].sequence in Sessions(ops, k + 1, ops[j].clientId).replies
    ensures ops[j].sequence in Sessions(ops, k, ops[j].clientId).replies
  {
    var c, q := ops[j].clientId, ops[j].sequence;
    TableAt(ops, k, c, q);
    TableAt(ops, k + 1, c, q);
    assert RanAs(ops, j, c, q);
    assert RanBefore(ops, k, c, q);
  }

  /** The cached reply of a request is the outcome of the copy that ran. */
  lemma {:induction false} ReplyAt(ops: seq<PutArgs>, k: nat, j: nat)
    requires j < k <= |ops| && ops[j].clientId != 0 && Ran(ops, j)
    requires ops[j].sequence in Sessions(ops, k, ops[j].clientId).replies
    ensures Sessions(ops, k, ops[j].clientId).replies[ops[j].sequence] == OutcomeAt(ops, j)
    decreases k
  {
    if j == k - 1 {
      FirstReply(ops, j);
    } else {
      ReplyWasThere(ops, k - 1, j);
      ReplyAt(ops, k - 1, j);
      RunsExactly(ops, k - 1);
      assert SameRequest(ops[j], ops[k - 1]) ==> !Ran(ops, k - 1);
      ReplyStays(ops, k - 1, ops[j].clientId, ops[j].sequence);
    }
  }

  lemma ReplyStays(ops: seq<PutArgs>, k: nat, c: nat, q: nat)
    requires k < |ops| && c != 0 && q in Sessions(ops, k, c).replies && q in Sessions(ops, k + 1, c).replies
    requires ops[k].clientId == c && ops[k].sequence == q ==> !Runs(Executed(EMPTY_STORE, ops, k), ops[k])
    ensures Sessions(ops, k + 1, c).replies[q] == Sessions(ops, k, c).replies[q]
  {
  }

  /** Every put is answered as its history says. */
  lemma PutAnswer(ops: seq<PutArgs>, k: nat)
    requires k < |ops|
    ensures IsAnswer(ops, k, DoPut(Executed(EMPTY_STORE, ops, k), ops[k]).1)
  {
    var op, err := ops[k], DoPut(Executed(EMPTY_STORE, ops, k), ops[k]).1;
    RunsExactly(ops, k);
    if Ran(ops, k) {
      RunAnswer(ops, k);
    } else {
      TableAt(ops, k, op.clientId, op.sequence);
      if Proper(op) && op.sequence > Watermark(ops, k, op.clientId) {
        assert op.sequence in Sessions(ops, k, op.clientId).replies;
        var j: nat :| j < k && RanAs(ops, j, op.clientId, op.sequence);
        ReplyAt(ops, k, j);
        assert AnsweredAs(ops, k, j, err);
      }
    }
  }

  /** A put that is answered OK has taken effect, as this copy or as an earlier one. */
  lemma OkTookEffect(ops: seq<PutArgs>, k: nat) returns (j: nat)
    requires k < |ops| && DoPut(Executed(EMPTY_STORE, ops, k), ops[k]).1 == OK
    ensures j <= k && (j == k || SameRequest(ops[j], ops[k])) && Wins(ops, j)
  {
    PutAnswer(ops, k);
    j := k;
    if !Ran(ops, k) { j :| j < k && AnsweredAs(ops, k, j, OK); }
  }

  /** What has taken effect stays in the store's history, at its version. */
  lemma {:induction false} WinStays(ops: seq<PutArgs>, j: nat, k: nat)
    requires j < k <= |ops| && Wins(ops, j)
    ensures ops[j].version < |Winners(ops, k, ops[j].key)|
    ensures Winners(ops, k, ops[j].key)[ops[j].version] == ops[j]
    decreases k
  {
    if j < k - 1 { WinStays(ops, j, k - 1); }
  }

  /** The answer to a request after the puts `ops`. */
  ghost predicate Answers(ops: seq<PutArgs>, req: Request, reply: Reply) {
    match req
    case GetRequest(key) => reply == Shown(Winners(ops, |ops|, key))
    case PutRequest(args) => reply.PutReply? && IsAnswer(ops + [args], |ops|, reply.err)
  }

  lemma {:induction false} ExecutedPrefix(st: Store, ops: seq<PutArgs>, ops': seq<PutArgs>, k: nat)
    requires k <= |ops| && ops <= ops'
    ensures Executed(st, ops, k) == Executed(st, ops', k)
  {
    if k > 0 { ExecutedPrefix(st, ops, ops', k - 1); }
  }

  /** The deduplicated store answers every request by its history. */
  lemma StoreAnswers(ops: seq<PutArgs>, req: Request)
    ensures Answers(ops, req, DoOp(Executed(EMPTY_STORE, ops, |ops|), req).1)
  {
    match req
    case GetRequest(key) => GetAnswer(ops, |ops|, key);
    case PutRequest(args) =>
      ExecutedPrefix(EMPTY_STORE, ops, ops + [args], |ops|);
      PutAnswer(ops + [args], |ops|);
  }
}
