/** The hand-written persistence format: magic, four 64-bit integers, a count, and each entry's
    cached encoding behind its length. */
module RaftPersist {
  import opened KvStore
  import opened RaftLog

  type Byte = b: int | 0 <= b < 256
  type Bytes = seq<Byte>

  const TWO64: nat := 0x1_0000_0000_0000_0000
  const TWO63: nat := 0x8000_0000_0000_0000

  type Int64 = i: int | -0x8000_0000_0000_0000 <= i < 0x8000_0000_0000_0000
  type Uint64 = u: int | 0 <= u < 0x1_0000_0000_0000_0000

  const MAGIC: Bytes := [82, 70, 84, 50]  // "RFT2"
  const HEADER_SIZE := 4 + 5 * 8

  /** The codec of a single entry. */
  datatype Codec = Codec(encode: Entry -> Bytes, decode: Bytes -> Option<Entry>)

  ghost predicate Inverse(codec: Codec) {
    forall e :: codec.decode(codec.encode(e)) == Some(e)
  }

  // ----- 64-bit integers -----

  function Pow256(k: nat): nat {
    if k == 0 then 1 else 256 * Pow256(k - 1)
  }

  function ToBytes(v: nat, k: nat): (r: Bytes)
    ensures |r| == k
  {
    if k == 0 then [] else [v % 256] + ToBytes(v / 256, k - 1)
  }

  function FromBytes(b: Bytes): nat {
    if b == [] then 0 else b[0] + 256 * FromBytes(b[1..])
  }

  lemma {:induction false} ToFrom(v: nat, k: nat)
    requires v < Pow256(k)
    ensures FromBytes(ToBytes(v, k)) == v
  {
    if k > 0 {
      assert v / 256 < Pow256(k - 1);
      ToFrom(v / 256, k - 1);
      assert ToBytes(v, k)[1..] == ToBytes(v / 256, k - 1);
    }
  }

  lemma {:induction false} FromTo(b: Bytes)
    ensures FromBytes(b) < Pow256(|b|) && ToBytes(FromBytes(b), |b|) == b
  {
    if b != [] {
      FromTo(b[1..]);
      DivUnique(FromBytes(b), 256, FromBytes(b[1..]), b[0]);
    }
  }

  lemma Pow256Of8()
    ensures Pow256(8) == TWO64
  {
    assert Pow256(4) == 0x1_0000_0000;
    assert Pow256(8) == 256 * 256 * 256 * 256 * Pow256(4);
  }

  function Word(u: Uint64): (r: Bytes)
    ensures |r| == 8
  {
    ToBytes(u, 8)
  }

  function UnWord(b: Bytes): Uint64
    requires |b| == 8
  {
    FromTo(b);
    Pow256Of8();
    FromBytes(b)
  }

  /** Two's complement. */
  function Unsigned(i: Int64): Uint64 {
    if i < 0 then i + TWO64 else i
  }

  function Signed(u: Uint64): Int64 {
    if u >= TWO63 then u - TWO64 else u
  }

  lemma WordRoundTrip(u: Uint64)
    ensures UnWord(Word(u)) == u
  {
    Pow256Of8();
    ToFrom(u, 8);
  }

  lemma UnWordRoundTrip(b: Bytes)
    requires |b| == 8
    ensures Word(UnWord(b)) == b
  {
    FromTo(b);
  }

  // ----- the format -----

  /** What one save holds: the metadata and the cached entry encodings. */
  datatype Image = Image(currentTerm: Int64, votedFor: Int64, lastIncludedIndex: Int64, lastIncludedTerm: Int64,
                         entries: seq<Bytes>)

  /** Go slices have fewer than 2^64 elements. */
  predicate Fits(im: Image) {
    |im.entries| < TWO64 && forall e <- im.entries :: |e| < TWO64
  }

  function Framed(entries: seq<Bytes>): Bytes
    requires forall e <- entries :: |e| < TWO64
  {
    if entries == [] then [] else Word(|entries[0]|) + entries[0] + Framed(entries[1..])
  }

  function Metadata(im: Image): (r: Bytes)
    requires Fits(im)
    ensures |r| == HEADER_SIZE
  {
    MAGIC + Word(Unsigned(im.currentTerm)) + Word(Unsigned(im.votedFor)) + Word(Unsigned(im.lastIncludedIndex))
    + Word(Unsigned(im.lastIncludedTerm)) + Word(|im.entries|)
  }

  function Print(im: Image): Bytes
    requires Fits(im)
  {
    Metadata(im) + Framed(im.entries)
  }

  function Unframe(data: Bytes, count: nat): (r: Option<seq<Bytes>>)
    ensures r.Some? ==> |r.value| == count && forall e <- r.value :: |e| < TWO64
    decreases count
  {
    if count == 0 then if data == [] then Some([]) else None
    else if |data| < 8 then None
    else
      var length := UnWord(data[..8]);
      if length > |data| - 8 then None
      else
        var rest := Unframe(data[8 + length..], count - 1);
        if rest.None? then None else Some([data[8..8 + length]] + rest.value)
  }

  /** Either the data is not in this format (the reader returns false), or it is damaged (the
      reader panics), or it holds an image. */
  datatype Parsed = Foreign | Damaged | Parsed(image: Image)

  function Parse(data: Bytes): Parsed {
    if |data| < HEADER_SIZE || data[..4] != MAGIC then Foreign
    else
      var count := UnWord(data[36..44]);
      if count == 0 then Damaged
      else
        var entries := Unframe(data[44..], count);
        if entries.None? then Damaged
        else Parsed(Image(Signed(UnWord(data[4..12])), Signed(UnWord(data[12..20])), Signed(UnWord(data[20..28])),
                          Signed(UnWord(data[28..36])), entries.value))
  }

  lemma {:induction false} UnframeFramed(entries: seq<Bytes>)
    requires forall e <- entries :: |e| < TWO64
    ensures Unframe(Framed(entries), |entries|) == Some(entries)
  {
    if entries != [] {
      var data := Framed(entries);
      WordRoundTrip(|entries[0]|);
      assert data[..8] == Word(|entries[0]|);
      assert data[8..8 + |entries[0]|] == entries[0];
      assert data[8 + |entries[0]|..] == Framed(entries[1..]);
      UnframeFramed(entries[1..]);
      assert [entries[0]] + entries[1..] == entries;
    }
  }

  lemma FramedSplit(head: Bytes, entry: Bytes, entries: seq<Bytes>)
    requires |entry| < TWO64 && head == Word(|entry|) && forall e <- entries :: |e| < TWO64
    ensures Framed([entry] + entries) == head + entry + Framed(entries)
  {
    assert ([entry] + entries)[1..] == entries;
  }

  lemma Rejoined(data: Bytes, n: nat)
    requires 8 + n <= |data|
    ensures data[..8] + data[8..8 + n] + data[8 + n..] == data
  {
  }

  lemma FramedStep(data: Bytes, length: nat, entries: seq<Bytes>)
    requires 8 + length <= |data| && UnWord(data[..8]) == length && forall e <- entries :: |e| < TWO64
    requires Framed(entries) == data[8 + length..]
    ensures Framed([data[8..8 + length]] + entries) == data
  {
    UnWordRoundTrip(data[..8]);
    FramedSplit(data[..8], data[8..8 + length], entries);
    Rejoined(data, length);
  }

  lemma {:induction false} FramedUnframe(data: Bytes, count: nat)
    requires Unframe(data, count).Some?
    ensures Framed(Unframe(data, count).value) == data
    decreases count
  {
    if count > 0 {
      var length := UnWord(data[..8]);
      FramedUnframe(data[8 + length..], count - 1);
      FramedStep(data, length, Unframe(data[8 + length..], count - 1).value);
    }
  }

  /** The reader's early rejection of an impossible count rejects nothing more. */
  lemma {:induction false} CountBound(data: Bytes, count: nat)
    requires Unframe(data, count).Some?
    ensures 8 * count <= |data|
    decreases count
  {
    if count > 0 { CountBound(data[8 + UnWord(data[..8])..], count - 1); }
  }

  /** Five words behind the magic, then the rest. */
  lemma Fields(a: Bytes, b: Bytes, c: Bytes, d: Bytes, e: Bytes, rest: Bytes)
    requires |a| == |b| == |c| == |d| == |e| == 8
    ensures var data := MAGIC + a + b + c + d + e + rest;
            && |data| >= HEADER_SIZE && data[..4] == MAGIC && data[4..12] == a && data[12..20] == b
            && data[20..28] == c && data[28..36] == d && data[36..44] == e && data[44..] == rest
  {
  }

  /** Every image with at least one entry is read back as it was written, `votedFor` = -1 included. */
  lemma ParsePrint(im: Image)
    requires Fits(im) && im.entries != []
    ensures Parse(Print(im)) == Parsed(im)
  {
    Fields(Word(Unsigned(im.currentTerm)), Word(Unsigned(im.votedFor)), Word(Unsigned(im.lastIncludedIndex)),
           Word(Unsigned(im.lastIncludedTerm)), Word(|im.entries|), Framed(im.entries));
    WordRoundTrip(Unsigned(im.currentTerm));
    WordRoundTrip(Unsigned(im.votedFor));
    WordRoundTrip(Unsigned(im.lastIncludedIndex));
    WordRoundTrip(Unsigned(im.lastIncludedTerm));
    WordRoundTrip(|im.entries|);
    UnframeFramed(im.entries);
  }

  lemma SplitHeader(data: Bytes)
    requires |data| >= HEADER_SIZE
    ensures data[..4] + data[4..12] + data[12..20] + data[20..28] + data[28..36] + data[36..44] == data[..44]
  {
    assert data[..4] + data[4..12] == data[..12];
    assert data[..12] + data[12..20] == data[..20];
    assert data[..20] + data[20..28] == data[..28];
    assert data[..28] + data[28..36] == data[..36];
    assert data[..36] + data[36..44] == data[..44];
  }

  lemma SignedRoundTrip(b: Bytes)
    requires |b| == 8
    ensures Word(Unsigned(Signed(UnWord(b)))) == b
  {
    UnWordRoundTrip(b);
  }

  /** Any byte string that is accepted is printed back identically. */
  lemma PrintParse(data: Bytes)
    requires Parse(data).Parsed?
    ensures Fits(Parse(data).image) && Print(Parse(data).image) == data
  {
    var im := Parse(data).image;
    FramedUnframe(data[44..], UnWord(data[36..44]));
    SignedRoundTrip(data[4..12]);
    SignedRoundTrip(data[12..20]);
    SignedRoundTrip(data[20..28]);
    SignedRoundTrip(data[28..36]);
    UnWordRoundTrip(data[36..44]);
    SplitHeader(data);
    assert Metadata(im) == data[..44];
    assert data == data[..44] + data[44..];
  }

  // ----- byte by byte -----

  lemma DivDiv(v: nat, d: nat)
    requires d > 0
    ensures v / 256 / d == v / (256 * d)
  {
    var q, r := v / 256 / d, v / 256 % d;
    assert v / 256 == q * d + r;
    assert v == 256 * (q * d + r) + v % 256 == q * (256 * d) + (256 * r + v % 256);
    DivUnique(v, 256 * d, q, 256 * r + v % 256);
  }

  lemma MulGap(a: nat, b: nat, d: nat)
    requires a < b
    ensures a * d + d <= b * d
  {
    var k: nat := b - a - 1;
    assert (a + (1 + k)) * d == a * d + (1 + k) * d;
    assert (1 + k) * d == d + k * d;
  }

  lemma DivUnique(v: nat, d: nat, q: nat, r: nat)
    requires r < d && v == q * d + r
    ensures v / d == q
  {
    var p := v / d;
    assert v == p * d + v % d;
    if p < q { MulGap(p, q, d); } else if p > q { MulGap(q, p, d); }
  }

  lemma {:induction false} ByteAt(v: nat, n: nat, k: nat)
    requires k < n
    ensures Pow256(k) > 0 && ToBytes(v, n)[k] == v / Pow256(k) % 256
  {
    if k > 0 {
      ByteAt(v / 256, n - 1, k - 1);
      DivDiv(v, Pow256(k - 1));
    }
  }

  /** Little-endian: byte `k` of the word at `at` has weight 256^k; a negative number is printed modulo
      2^64. */
  ghost predicate WordAt(data: Bytes, at: nat, v: int) {
    && at + 8 <= |data|
    && forall k: nat {:trigger Pow256(k)} :: k < 8 ==>
         Pow256(k) > 0 && data[at + k] == (if v < 0 then v + TWO64 else v) / Pow256(k) % 256
  }

  lemma WordIsAt(data: Bytes, at: nat, i: int, u: Uint64)
    requires at + 8 <= |data| && data[at..at + 8] == Word(u) && u == (if i < 0 then i + TWO64 else i)
    ensures WordAt(data, at, i)
  {
    forall k: nat | k < 8 ensures Pow256(k) > 0 && data[at + k] == u / Pow256(k) % 256 {
      ByteAt(u, 8, k);
      assert data[at + k] == data[at..at + 8][k];
    }
  }

  /** Where the frame of entry `m` begins. */
  function FrameStart(entries: seq<Bytes>, m: nat): nat
    requires m <= |entries|
  {
    if m == 0 then HEADER_SIZE else FrameStart(entries, m - 1) + 8 + |entries[m - 1]|
  }

  ghost predicate FrameAt(data: Bytes, at: nat, entry: Bytes) {
    WordAt(data, at, |entry|) && at + 8 + |entry| <= |data| && data[at + 8..at + 8 + |entry|] == entry
  }

  lemma {:induction false} RestIsFramed(data: Bytes, entries: seq<Bytes>, m: nat)
    requires m <= |entries| && (forall e <- entries :: |e| < TWO64)
    requires |data| >= HEADER_SIZE && data[HEADER_SIZE..] == Framed(entries)
    ensures FrameStart(entries, m) <= |data| && data[FrameStart(entries, m)..] == Framed(entries[m..])
  {
    if m > 0 {
      RestIsFramed(data, entries, m - 1);
      var at, entry := FrameStart(entries, m - 1), entries[m - 1];
      assert entries[m - 1..][0] == entry && entries[m - 1..][1..] == entries[m..];
      assert data[at..] == Word(|entry|) + entry + Framed(entries[m..]);
      assert data[at..][8 + |entry|..] == Framed(entries[m..]);
      assert data[at..][8 + |entry|..] == data[at + 8 + |entry|..];
    }
  }

  lemma FrameIsAt(data: Bytes, entries: seq<Bytes>, m: nat)
    requires m < |entries| && (forall e <- entries :: |e| < TWO64)
    requires |data| >= HEADER_SIZE && data[HEADER_SIZE..] == Framed(entries)
    ensures FrameAt(data, FrameStart(entries, m), entries[m])
  {
    RestIsFramed(data, entries, m);
    assert entries[m..][0] == entries[m] && entries[m..][1..] == entries[m + 1..];
    FrameFound(data, FrameStart(entries, m), entries[m], Framed(entries[m + 1..]));
  }

  lemma FrameFound(data: Bytes, at: nat, entry: Bytes, rest: Bytes)
    requires |entry| < TWO64 && at <= |data| && data[at..] == Word(|entry|) + entry + rest
    ensures FrameAt(data, at, entry)
  {
    var here := data[at..];
    assert data[at..at + 8] == here[..8] == Word(|entry|);
    assert data[at + 8..at + 8 + |entry|] == here[8..8 + |entry|] == entry;
    WordIsAt(data, at, |entry|, |entry|);
  }

  /** The format, byte by byte: the letters RFT2, five little-endian words in this order, and each entry
      behind its length, with nothing before, between or after. */
  lemma Layout(im: Image)
    requires Fits(im)
    ensures var data := Print(im);
            && |data| == FrameStart(im.entries, |im.entries|) && data[..4] == [82, 70, 84, 50]
            && WordAt(data, 4, im.currentTerm) && WordAt(data, 12, im.votedFor)
            && WordAt(data, 20, im.lastIncludedIndex) && WordAt(data, 28, im.lastIncludedTerm)
            && WordAt(data, 36, |im.entries|)
            && forall m: nat {:trigger FrameStart(im.entries, m)} :: m < |im.entries| ==>
                 FrameAt(data, FrameStart(im.entries, m), im.entries[m])
  {
    var data := Print(im);
    Fields(Word(Unsigned(im.currentTerm)), Word(Unsigned(im.votedFor)), Word(Unsigned(im.lastIncludedIndex)),
           Word(Unsigned(im.lastIncludedTerm)), Word(|im.entries|), Framed(im.entries));
    WordIsAt(data, 4, im.currentTerm, Unsigned(im.currentTerm));
    WordIsAt(data, 12, im.votedFor, Unsigned(im.votedFor));
    WordIsAt(data, 20, im.lastIncludedIndex, Unsigned(im.lastIncludedIndex));
    WordIsAt(data, 28, im.lastIncludedTerm, Unsigned(im.lastIncludedTerm));
    WordIsAt(data, 36, |im.entries|, |im.entries|);
    RestIsFramed(data, im.entries, |im.entries|);
    forall m: nat | m < |im.entries| ensures FrameAt(data, FrameStart(im.entries, m), im.entries[m]) {
      FrameIsAt(data, im.entries, m);
    }
  }
}
