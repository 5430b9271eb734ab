/** What a restart finds on disk: the saved bytes hold exactly the persistent state of the node. */
module RaftDisk {
  import opened KvStore
  import opened RaftLog
  import opened RaftNode
  import opened RaftPersist
  import opened RaftStore

  /** The image the node's fields and its cache of encoded entries make. */
  predicate Saves(codec: Codec, d: Disk, im: Image) {
    && im.currentTerm == d.currentTerm && im.votedFor == d.votedFor
    && im.lastIncludedIndex == d.lastIncludedIndex && im.lastIncludedTerm == d.lastIncludedTerm
    && Corresponds(codec, d.logs, im.entries)
  }

  /** Decodes the entries one by one; None if one of them is damaged. */
  function Decoded(codec: Codec, entries: seq<Bytes>): Option<seq<Entry>> {
    if entries == [] then Some([])
    else
      var rest := Decoded(codec, entries[..|entries| - 1]);
      var last := codec.decode(entries[|entries| - 1]);
      if rest.None? || last.None? then None else Some(rest.value + [last.value])
  }

  /** `readCachedPersist` on the saved bytes, with the snapshot saved beside them; None if the reader
      does not accept them. */
  function Loaded(codec: Codec, data: Bytes, snapshot: Option<Store>): Option<Disk> {
    match Parse(data)
    case Parsed(im) =>
      var logs := Decoded(codec, im.entries);
      if logs.None? || logs.value == [] then None
      else if im.currentTerm < 0 || im.lastIncludedIndex < 0 || im.lastIncludedTerm < 0 then None
      else Some(Disk(im.currentTerm, im.votedFor, logs.value, im.lastIncludedIndex, im.lastIncludedTerm, snapshot))
    case _ => None
  }

  lemma {:induction false} DecodedIsLog(codec: Codec, logs: seq<Entry>, entries: seq<Bytes>)
    requires Corresponds(codec, logs, entries)
    ensures Decoded(codec, entries) == Some(logs)
  {
    if entries == [] {
      assert logs == [];
    } else {
      var last := |entries| - 1;
      DecodedIsLog(codec, logs[..last], entries[..last]);
      assert logs == logs[..last] + [logs[last]];
    }
  }

  /** A node restarted from the bytes is the node restarted from the state that was saved. */
  lemma RestartFromBytes(codec: Codec, me: nat, peers: nat, d: Disk, im: Image)
    requires Fits(im) && Saves(codec, d, im)
    ensures Loaded(codec, Print(im), d.snapshot) == Some(d)
    ensures Booted(me, peers, Loaded(codec, Print(im), d.snapshot).value) == Booted(me, peers, d)
  {
    ParsePrint(im);
    DecodedIsLog(codec, d.logs, im.entries);
  }
}
