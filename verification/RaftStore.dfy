/** The part of the Raft object that persistence works on: the log, the cache of encoded entries
    that shadows it, and the bytes last handed to the persister. */
module RaftStore {
  import opened KvStore
  import opened RaftLog
  import opened RaftPersist

  /** The cache holds, entry by entry, bytes that decode to the log. */
  predicate Corresponds(codec: Codec, logs: seq<Entry>, encoded: seq<Bytes>) {
    |encoded| == |logs| && forall k :: 0 <= k < |logs| ==> codec.decode(encoded[k]) == Some(logs[k])
  }

  datatype ReadResult = NotThisFormat | Panicked | Restored

  /** What reading `data` must do to the log store. */
  ghost predicate Restores(codec: Codec, data: Bytes, result: ReadResult) {
    match Parse(data)
    case Foreign => result == NotThisFormat
    case Damaged => result == Panicked
    case Parsed(im) =>
      result == if exists k :: 0 <= k < |im.entries| && codec.decode(im.entries[k]).None? then Panicked else Restored
  }

  /** Decoding stops at the first damaged entry, whichever kind of damage comes first. */
  ghost predicate Readable(codec: Codec, entries: seq<Bytes>) {
    forall k :: 0 <= k < |entries| ==> codec.decode(entries[k]).Some?
  }

  /** What `Persist` writes from a corresponding cache is always restored, and the restored bytes
      decode to the same log and no other. */
  lemma SavedIsRestored(codec: Codec, im: Image, logs: seq<Entry>, result: ReadResult, logs': seq<Entry>)
    requires Fits(im) && im.entries != [] && Corresponds(codec, logs, im.entries)
    requires Restores(codec, Print(im), result)
    ensures result == Restored && Parse(Print(im)) == RaftPersist.Parsed(im)
    ensures Corresponds(codec, logs', im.entries) ==> logs' == logs
  {
    ParsePrint(im);
    if Corresponds(codec, logs', im.entries) {
      forall k | 0 <= k < |logs| ensures logs'[k] == logs[k] {
        assert codec.decode(im.entries[k]) == Some(logs[k]);
      }
    }
  }

  class LogStore {
    const codec: Codec
    var currentTerm: Int64
    var votedFor: Int64
    var lastIncludedIndex: Int64
    var lastIncludedTerm: Int64
    var logs: seq<Entry>
    var encodedLogs: seq<Bytes>
    var saved: Bytes

    ghost function CurrentImage(): Image
      reads this
    {
      Image(currentTerm, votedFor, lastIncludedIndex, lastIncludedTerm, encodedLogs)
    }

    ghost predicate Valid()
      reads this
    {
      Inverse(codec) && Corresponds(codec, logs, encodedLogs)
    }

    constructor (codec: Codec)
      requires Inverse(codec)
      ensures Valid() && this.codec == codec && logs == [DUMMY] && saved == []
      ensures currentTerm == 0 && votedFor == -1 && lastIncludedIndex == 0 && lastIncludedTerm == 0
    {
      this.codec := codec;
      currentTerm, votedFor, lastIncludedIndex, lastIncludedTerm := 0, -1, 0, 0;
      logs := [DUMMY];
      encodedLogs := [codec.encode(DUMMY)];
      saved := [];
    }

    method RebuildEncodedLogs()
      requires Inverse(codec)
      modifies this`encodedLogs
      ensures Valid()
    {
      encodedLogs := [];
      for k := 0 to |logs|
        invariant Corresponds(codec, logs[..k], encodedLogs)
      {
        encodedLogs := encodedLogs + [codec.encode(logs[k])];
      }
      assert logs[..|logs|] == logs;
    }

    method AppendLogs(entries: seq<Entry>)
      requires Valid()
      modifies this`logs, this`encodedLogs
      ensures Valid() && logs == old(logs) + entries
      ensures |old(encodedLogs)| <= |encodedLogs| && encodedLogs[..|old(encodedLogs)|] == old(encodedLogs)
    {
      logs := logs + entries;
      for k := 0 to |entries|
        invariant logs == old(logs) + entries && Corresponds(codec, old(logs) + entries[..k], encodedLogs)
        invariant |old(encodedLogs)| <= |encodedLogs| && encodedLogs[..|old(encodedLogs)|] == old(encodedLogs)
      {
        encodedLogs := encodedLogs + [codec.encode(entries[k])];
        assert old(logs) + entries[..k + 1] == (old(logs) + entries[..k]) + [entries[k]];
      }
      assert entries[..|entries|] == entries;
    }

    method TruncateLogs(length: nat)
      requires Valid() && length <= |logs|
      modifies this`logs, this`encodedLogs
      ensures Valid() && logs == old(logs)[..length] && encodedLogs == old(encodedLogs)[..length]
    {
      logs := logs[..length];
      encodedLogs := encodedLogs[..length];
    }

    method ReplaceLogs(entries: seq<Entry>)
      requires Valid()
      modifies this`logs, this`encodedLogs
      ensures Valid() && logs == entries
    {
      logs := entries;
      RebuildEncodedLogs();
    }

    /** Fills a buffer of the exact size and hands it to the persister. */
    method Persist()
      requires Valid() && Fits(CurrentImage())
      modifies this`saved
      ensures Valid() && saved == Print(CurrentImage())
    {
      var size := SavedSize();
      var buffer := new Byte[size];
      WriteMetadata(buffer);
      WriteEntries(buffer);
      saved := buffer[..];
    }

    method WriteMetadata(buffer: array<Byte>)
      requires Fits(CurrentImage()) && buffer.Length >= HEADER_SIZE
      modifies buffer
      ensures buffer[..HEADER_SIZE] == Metadata(CurrentImage())
    {
      CopyInto(buffer, 0, MAGIC);
      CopyInto(buffer, 4, Word(Unsigned(currentTerm)));
      CopyInto(buffer, 12, Word(Unsigned(votedFor)));
      CopyInto(buffer, 20, Word(Unsigned(lastIncludedIndex)));
      CopyInto(buffer, 28, Word(Unsigned(lastIncludedTerm)));
      CopyInto(buffer, 36, Word(|encodedLogs|));
    }

    /** The rest of the image, from entry `k` on, fits exactly behind what is written. */
    static ghost predicate Pending(buffer: Bytes, size: nat, offset: nat, entries: seq<Bytes>, k: nat, image: Bytes)
      requires forall e <- entries :: |e| < TWO64
    {
      && k <= |entries| && offset <= |buffer| == size
      && offset + |Framed(entries[k..])| == size
      && buffer[..offset] + Framed(entries[k..]) == image
    }

    static lemma PendingNext(buffer: Bytes, buffer': Bytes, size: nat, offset: nat, entries: seq<Bytes>, k: nat,
                             image: Bytes)
      requires forall e <- entries :: |e| < TWO64
      requires Pending(buffer, size, offset, entries, k, image) && k < |entries|
      requires |buffer'| == size
      requires offset + 8 + |entries[k]| <= size
      requires buffer'[..offset + 8 + |entries[k]|] == buffer[..offset] + Word(|entries[k]|) + entries[k]
      ensures Pending(buffer', size, offset + 8 + |entries[k]|, entries, k + 1, image)
    {
      var e, rest := entries[k], Framed(entries[k + 1..]);
      assert entries[k..][0] == e && entries[k..][1..] == entries[k + 1..];
      assert Framed(entries[k..]) == Word(|e|) + e + rest;
      assert buffer[..offset] + (Word(|e|) + e + rest) == buffer[..offset] + Word(|e|) + e + rest;
    }

    static method WriteEntry(buffer: array<Byte>, at: nat, encoded: Bytes)
      requires at + 8 + |encoded| <= buffer.Length && |encoded| < TWO64
      modifies buffer
      ensures buffer[..at + 8 + |encoded|] == old(buffer[..])[..at] + Word(|encoded|) + encoded
    {
      CopyInto(buffer, at, Word(|encoded|));
      CopyInto(buffer, at + 8, encoded);
    }

    method WriteEntries(buffer: array<Byte>)
      requires Fits(CurrentImage()) && buffer.Length == HEADER_SIZE + |Framed(encodedLogs)|
      requires buffer[..HEADER_SIZE] == Metadata(CurrentImage())
      modifies buffer
      ensures buffer[..] == Print(CurrentImage())
    {
      ghost var image := Print(CurrentImage());
      var offset := HEADER_SIZE;
      var k := 0;
      assert encodedLogs[0..] == encodedLogs && buffer[..][..HEADER_SIZE] == buffer[..HEADER_SIZE];
      while k < |encodedLogs|
        invariant 0 <= k <= |encodedLogs| && 0 <= offset
        invariant Pending(buffer[..], buffer.Length, offset, encodedLogs, k, image)
      {
        var encoded := encodedLogs[k];
        ghost var before := buffer[..];
        assert |Framed(encodedLogs[k..])| >= 8 + |encoded|;
        WriteEntry(buffer, offset, encoded);
        assert buffer[..][..offset + 8 + |encoded|] == buffer[..offset + 8 + |encoded|];
        PendingNext(before, buffer[..], buffer.Length, offset, encodedLogs, k, image);
        offset := offset + 8 + |encoded|;
        k := k + 1;
      }
      assert buffer[..][..offset] == buffer[..];
    }

    method SavedSize() returns (size: nat)
      requires Fits(CurrentImage())
      ensures size == HEADER_SIZE + |Framed(encodedLogs)|
    {
      size := HEADER_SIZE;
      assert encodedLogs[0..] == encodedLogs;
      for k := 0 to |encodedLogs|
        invariant size + |Framed(encodedLogs[k..])| == HEADER_SIZE + |Framed(encodedLogs)|
      {
        assert encodedLogs[k..][1..] == encodedLogs[k + 1..];
        size := size + 8 + |encodedLogs[k]|;
      }
    }

    static method CopyInto(buffer: array<Byte>, at: nat, bytes: Bytes)
      requires at + |bytes| <= buffer.Length
      modifies buffer
      ensures buffer[..at + |bytes|] == old(buffer[..at]) + bytes
    {
      for k := 0 to |bytes|
        invariant buffer[..at + k] == old(buffer[..at]) + bytes[..k]
      {
        buffer[at + k] := bytes[k];
        assert buffer[..at + k + 1] == buffer[..at + k] + [bytes[k]];
      }
    }

    /** Reads the format back. Nothing is changed unless everything was read. */
    method ReadCachedPersist(data: Bytes) returns (result: ReadResult)
      requires Valid()
      modifies this
      ensures Valid() && saved == old(saved)
      ensures Restores(codec, data, result)
      ensures result == Restored ==> Parse(data) == RaftPersist.Parsed(CurrentImage())
      ensures result != Restored ==> logs == old(logs) && CurrentImage() == old(CurrentImage())
    {
      if |data| < HEADER_SIZE || data[..4] != MAGIC {
        return NotThisFormat;
      }
      var term, vote := Signed(UnWord(data[4..12])), Signed(UnWord(data[12..20]));
      var index, indexTerm := Signed(UnWord(data[20..28])), Signed(UnWord(data[28..36]));
      var count := UnWord(data[36..44]);
      if count == 0 || count > (|data| - 44) / 8 {
        if Unframe(data[44..], count).Some? { CountBound(data[44..], count); }
        return Panicked;
      }
      var ok, newLogs, newEncoded := ReadEntries(codec, data[44..], count);
      if !ok {
        return Panicked;
      }
      currentTerm, votedFor, lastIncludedIndex, lastIncludedTerm := term, vote, index, indexTerm;
      logs, encodedLogs := newLogs, newEncoded;
      result := Restored;
    }

    /** What is read so far, followed by what the rest holds, is the whole. */
    static ghost predicate SoFar(whole: Option<seq<Bytes>>, encoded: seq<Bytes>, rest: Option<seq<Bytes>>) {
      whole == if rest.Some? then Some(encoded + rest.value) else None
    }

    static predicate IsTail(data: Bytes, offset: nat, tail: Bytes) {
      offset + |tail| == |data| && forall j :: 0 <= j < |tail| ==> tail[j] == data[offset + j]
    }

    static lemma Slices(data: Bytes, offset: nat, tail: Bytes, n: nat)
      requires IsTail(data, offset, tail) && 8 + n <= |tail|
      ensures tail[..8] == data[offset..offset + 8]
      ensures tail[8..8 + n] == data[offset + 8..offset + 8 + n]
      ensures IsTail(data, offset + 8 + n, tail[8 + n..])
    {
    }

    static lemma SoFarNext(whole: Option<seq<Bytes>>, encoded: seq<Bytes>, bytes: Bytes, rest: Option<seq<Bytes>>)
      requires SoFar(whole, encoded, Prepend(bytes, rest))
      ensures SoFar(whole, encoded + [bytes], rest)
      ensures whole.Some? ==> |encoded| < |whole.value| && whole.value[|encoded|] == bytes
    {
      if rest.Some? { assert encoded + ([bytes] + rest.value) == encoded + [bytes] + rest.value; }
    }

    static function Prepend(bytes: Bytes, rest: Option<seq<Bytes>>): Option<seq<Bytes>> {
      if rest.None? then None else Some([bytes] + rest.value)
    }

    /** What the reading loop still has to find at `offset`. */
    static function ReadAt(data: Bytes, offset: nat, n: nat): Option<seq<Bytes>>
      requires offset <= |data|
      decreases n
    {
      if n == 0 then if offset == |data| then Some([]) else None
      else if offset + 8 > |data| then None
      else
        var length := UnWord(data[offset..offset + 8]);
        if length > |data| - (offset + 8) then None
        else Prepend(data[offset + 8..offset + 8 + length], ReadAt(data, offset + 8 + length, n - 1))
    }

    static lemma UnframeStep(tail: Bytes, n: nat)
      requires n > 0 && |tail| >= 8
      ensures var length := UnWord(tail[..8]);
              Unframe(tail, n) ==
              if length > |tail| - 8 then None else Prepend(tail[8..8 + length], Unframe(tail[8 + length..], n - 1))
    {
    }

    static lemma ReadAtStep(data: Bytes, offset: nat, tail: Bytes, n: nat)
      requires n > 0 && IsTail(data, offset, tail) && |tail| >= 8
      requires var length := UnWord(tail[..8]);
               length <= |tail| - 8 ==> ReadAt(data, offset + 8 + length, n - 1) == Unframe(tail[8 + length..], n - 1)
      ensures ReadAt(data, offset, n) == Unframe(tail, n)
    {
      UnframeStep(tail, n);
      Slices(data, offset, tail, 0);
      var length := UnWord(tail[..8]);
      if length <= |tail| - 8 { Slices(data, offset, tail, length); }
    }

    static lemma {:induction false} ReadAtIsUnframe(data: Bytes, offset: nat, tail: Bytes, n: nat)
      requires IsTail(data, offset, tail)
      ensures ReadAt(data, offset, n) == Unframe(tail, n)
      decreases n
    {
      if n > 0 && |tail| >= 8 {
        var length := UnWord(tail[..8]);
        if length <= |tail| - 8 {
          Slices(data, offset, tail, length);
          ReadAtIsUnframe(data, offset + 8 + length, tail[8 + length..], n - 1);
        }
        ReadAtStep(data, offset, tail, n);
      }
    }

    /** Reads the frame at `offset`; there is none if the bytes end before it does. */
    static method ReadFrame(data: Bytes, offset: nat, ghost n: nat, ghost whole: Option<seq<Bytes>>,
                            ghost encoded: seq<Bytes>)
        returns (ok: bool, bytes: Bytes, next: nat)
      requires n > 0 && offset <= |data| && SoFar(whole, encoded, ReadAt(data, offset, n))
      ensures !ok ==> whole.None?
      ensures ok ==> offset < next <= |data| && SoFar(whole, encoded + [bytes], ReadAt(data, next, n - 1))
      ensures ok && whole.Some? ==> |encoded| < |whole.value| && whole.value[|encoded|] == bytes
    {
      if offset + 8 > |data| {
        return false, [], offset;
      }
      var length := UnWord(data[offset..offset + 8]);
      if length > |data| - (offset + 8) {
        return false, [], offset;
      }
      next := offset + 8 + length;
      bytes := data[offset + 8..next];
      ok := true;
      SoFarNext(whole, encoded, bytes, ReadAt(data, next, n - 1));
    }

    static lemma OneMore(codec: Codec, entries: seq<Entry>, encoded: seq<Bytes>, entry: Entry, bytes: Bytes)
      requires Corresponds(codec, entries, encoded) && codec.decode(bytes) == Some(entry)
      ensures Corresponds(codec, entries + [entry], encoded + [bytes])
    {
    }

    /** The reading loop, against what there is to find. */
    static method ReadAll(codec: Codec, data: Bytes, count: nat, ghost whole: Option<seq<Bytes>>)
        returns (ok: bool, entries: seq<Entry>, encoded: seq<Bytes>)
      requires whole == ReadAt(data, 0, count)
      ensures ok == (whole.Some? && Readable(codec, whole.value))
      ensures ok ==> whole == Some(encoded) && Corresponds(codec, entries, encoded)
    {
      entries, encoded := [], [];
      var offset := 0;
      assert whole.Some? ==> [] + whole.value == whole.value;
      for k := 0 to count
        invariant 0 <= offset <= |data| && |encoded| == k
        invariant Corresponds(codec, entries, encoded)
        invariant SoFar(whole, encoded, ReadAt(data, offset, count - k))
      {
        var read, bytes, next := ReadFrame(data, offset, count - k, whole, encoded);
        if !read {
          return false, [], [];
        }
        var entry := codec.decode(bytes);
        if entry.None? {
          return false, [], [];
        }
        OneMore(codec, entries, encoded, entry.value, bytes);
        entries, encoded, offset := entries + [entry.value], encoded + [bytes], next;
      }
      assert encoded + [] == encoded;
      ok := offset == |data|;
    }

    static method ReadEntries(codec: Codec, data: Bytes, count: nat)
        returns (ok: bool, entries: seq<Entry>, encoded: seq<Bytes>)
      ensures ok == (Unframe(data, count).Some? && Readable(codec, Unframe(data, count).value))
      ensures ok ==> Unframe(data, count) == Some(encoded) && Corresponds(codec, entries, encoded)
    {
      ReadAtIsUnframe(data, 0, data, count);
      ok, entries, encoded := ReadAll(codec, data, count, Unframe(data, count));
    }
  }
}
