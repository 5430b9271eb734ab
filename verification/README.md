# A verified model of the Raft, key/value, sharding, lock and MapReduce services

The system is a set of services written in Go: Raft with log compaction, a replicated key/value store
on top of it, a sharded store whose shards are moved between replica groups by competing controllers,
a lock over a single lossy store, and MapReduce. The Dafny files model what these services do and
prove what they promise, over every run of the services, not over single calls.

How the parts fit together:

- **Raft.** `RaftNode` gives every handler as a function on a server's state, with compacted logs and
  the source's index arithmetic; `RaftServer` is the object with the same fields, whose methods and
  loops are proved equal to those functions. `RaftSystem` runs any number of servers over a network
  that keeps every message, so any message may arrive late, repeatedly or never; a crash keeps only
  the disk. `RaftLog`, `RaftHistory`, `RaftGrowth`, `RaftGroup` and `RaftMoves` prove the protocol on
  full logs and a history of candidacies, votes, terms and acknowledgements. `RaftRep`,
  `RaftFollower`, `RaftLeader` and `RsmRep` prove that the compacted servers and the state machine
  glue follow that protocol step by step; `RaftSafety` draws the conclusions for whole runs.
  `RaftBackup` compares the fast back-up with stepping back one entry at a time. `RaftExact` says of
  every handler, in terms of the full log, exactly when it acts and what it leaves; `RaftAnswers` the
  same for the applier and the calls that wait for it. `RaftPaths`, `RaftElection`, `RaftCatchUp` and
  `RaftProgress` prove that no run is ever stuck. `RaftPersist` and
  `RaftStore` are the binary format and the cache of encoded entries; `RaftDisk` ties them to the
  restart of a node.
- **Store.** `KvStore` is the single-copy store with versions and the deduplicated store around it.
  `Dedup` proves what client watermark and server table achieve together. `KvHistory` says what a
  sequence of puts makes every get and put answer, without a store or a table. `KvServer` holds the
  objects that are updated in place. `ReplicatedKv` puts store and Raft together.
- **Shards.** `ShardGroup` is one shard in one group; `ShardSystem` runs controllers, the versioned
  record they share, groups, clients and every migration request ever sent. `ShardInv`, `ShardSafety`
  and `ShardRuns` state and keep the invariant, `ShardTheorems` has the results, `ShardProgress` shows
  that a change can always be completed. `ShardServer` is the group's object. `Rebalance` and `ShardConfig` are the assignment of shards to groups.
- **Lock.** `KvClerk` is the single server, its clerks and a lossy network; `LockService` is the lock.
- **MapReduce.** `MrGroup` is partitioning and grouping, `MrCoordinator` the coordinator, `MrJob` a
  whole job against the sequential program, `MrProgress` shows that a job can always be finished.

Each replica group of the sharded store is one state machine there; that a replicated store behaves as
one store is what `ReplicatedKv.ReplicatedStoreIsOneStore` proves. Locked sections of the source are
single steps. A key's shard and a key's hash are arbitrary functions. Random identities (clients,
controllers, incarnations, locks) are taken to be distinct and not zero or empty.

Where code and documentation differ, the code is followed: a conditional put with a non-zero version
on a missing key answers `ErrNoKey`, which the repository's own linearizability model does not accept.
That answer is also weaker than it looks: after a resend the put may still take effect later, which
`KvClerk.NoKeyAndStillAnEffect` shows and `KvClerk.NeverLands` and `KvClerk.CanStillLand` delimit. Group 0
stands for "no group" in configurations; a shard moved to it is frozen and deleted, a shard moved from it
starts out empty.

## Model

| member | source | states |
|---|---|---|
| `RaftSafety.ElectionSafety` | src/raft1/raft.go:1356-1443 | in every run with loss, duplication, delay and crash-restart, two servers that lead the same term, at whatever times, are the same server |
| `RaftMoves.FirstLeader` | src/raft1/raft.go:974-1020 | a candidate that counts a majority is the first winner of its term: persisted votes and intersecting majorities leave no other |
| `RaftSafety.LogMatchingInRuns` | src/raft1/raft.go:440-480 | if two servers, at any two moments, show the same term at an index, everything both show up to that index is the same, through merging, truncation, compaction, snapshot installation and restart |
| `RaftHistory.LogMatching` | src/raft1/raft.go:440-480 | any two logs built from leaders' logs agree up to every index at which their terms are equal |
| `RaftSafety.LeaderCompletenessInRuns` | src/raft1/raft.go:499-523 | whatever any server has committed is in the log of every leader of every later term, as far as compaction lets it show |
| `RaftHistory.LeaderCompleteness` | src/raft1/raft.go:1003-1017 | an entry acknowledged by a majority in its own term is in the log every later leader starts its term with |
| `RaftHistory.ChosenAgree` | src/raft1/raft.go:499-523 | two committed prefixes, committed by whomever in whatever terms, agree on the shorter one |
| `RaftSafety.StateMachineSafety` | src/raft1/raft.go:241-298 | one sequence of entries explains a whole run: at every moment every server's committed entries, its snapshot, its service state and the messages queued for the service are that sequence and the fold of the service's operations over it; it holds submitted operations only, each once; every result a submission returned is its own operation's result at its place, and whatever was submitted after that comes later |
| `RaftSafety.NothingPanics` | src/raft1/raft.go:165-192 | in every reachable state no log index is out of range, the disk holds exactly the current persistent state, matchIndex is below nextIndex which is at most one past the leader's log, and the next message to the service is the command one past what it has, or a snapshot strictly ahead of it |
| `RaftSafety.MatchIndexSound` | src/raft1/raft.go:632-719 | while a server is in the leader's term it holds the leader's log through the match index the leader keeps for it, whatever stale, duplicated or reordered requests and replies were handled |
| `RaftSafety.AcknowledgedIsKept` | src/raft1/raft.go:326-363 | what a server has acknowledged, in a reply the leader may never have heard, it holds as long as it stays in the leader's term, whatever late, repeated or reordered requests it handles |
| `RaftSafety.RunSim` | src/raft1/raft.go:1295-1354 | every run of the servers with compacted logs is matched, step by step, by a run of the protocol on full logs that satisfies the protocol invariant |
| `RaftSafety.StepSim` | src/raft1/raft.go:301-734 | every single step, from a timeout to a crash, keeps that correspondence and only adds to the history of candidacies, votes, terms and acknowledgements |
| `RaftFollower.MergeAdopts` | src/raft1/raft.go:440-477 | merging entries into a compacted log gives the compacted form of: keep the log if it already holds the leader's prefix, otherwise replace it by that prefix |
| `RaftFollower.InstallAdopts` | src/raft1/raft.go:326-351 | installing a snapshot keeps the suffix exactly when the boundary entry agrees, and so never drops an entry the leader's prefix does not contradict |
| `RaftFollower.HandleAppendSim` | src/raft1/raft.go:379-496 | an AppendEntries request is one protocol step, and a success reply is a true acknowledgement |
| `RaftFollower.HandleInstallSim` | src/raft1/raft.go:301-377 | an InstallSnapshot request is one protocol step, and its reply acknowledges the snapshot's prefix only if the server is in the sender's term |
| `RaftFollower.HandleVoteSim` | src/raft1/raft.go:974-1020 | a RequestVote request is one protocol step; a granted vote is a recorded ballot for a log at least as up to date |
| `RaftLeader.CommitScanOk` | src/raft1/raft.go:499-523 | the commit scan returns an index of the current term that a majority has acknowledged, or the old commit index |
| `RaftLeader.HandleAppendReplySim` | src/raft1/raft.go:619-719 | a reply, however late or repeated, leaves match indexes that are acknowledged and a commit index that is chosen |
| `RaftLeader.HandleInstallReplySim` | src/raft1/raft.go:561-588 | the same for replies to snapshots |
| `RaftLeader.StartElectionSim` | src/raft1/raft.go:1356-1415 | standing for election records a candidacy and a vote for oneself in a new term |
| `RaftLeader.HandleVoteReplySim` | src/raft1/raft.go:1416-1436 | each peer's vote is counted once, only for the term it was given in, and a majority makes a leader |
| `RaftLeader.CrashSim` | src/raft1/raft.go:1295-1354 | a restart from the disk keeps term, vote, log and snapshot, and the service restarts from the snapshot |
| `RaftLeader.TakeSnapshotSim` | src/raft1/raft.go:923-971 | compacting at the applied index changes nothing in the full log |
| `RaftLeader.ClaimSim` | src/raft1/raft.go:241-298 | a batch claimed for delivery continues the stream without a gap |
| `RaftBackup.BackUpStep` | src/raft1/raft.go:677-719 | against a fixed follower of the leader's term, a request is accepted exactly when it starts at the end of the longest common prefix; every rejection strictly lowers nextIndex, never below that point plus one |
| `RaftBackup.FastSettlesAtCommonEnd` | src/raft1/raft.go:402-438 | the back-up loop with conflict hints ends, and its first accepted request has its previous index exactly at the end of the longest common prefix |
| `RaftBackup.SlowSettlesAtCommonEnd` | src/raft1/raft.go:677-719 | stepping back one entry at a time ends at the same point, so the hints only save round trips |
| `RaftBackup.BackUpInRuns` | src/raft1/raft.go:677-719 | this applies to every leader and follower of its term in every run, when the leader's snapshot boundary lies in the common prefix and nextIndex above it; the follower's boundary always does |
| `RaftBackup.ConflictTermBounds` | src/raft1/raft.go:402-438 | the follower's conflict term and first index of that term bound the common prefix |
| `RaftExact.HasFullLog` | src/raft1/raft.go:1295-1354 | every server of every run, at any time, is the compacted form of some full log; the exact statements below are about that log |
| `RaftExact.VoteExactly` | src/raft1/raft.go:974-1020 | both directions: a vote is granted exactly to a candidate of the server's term or a later one that the server has not voted against in that term and whose log ends at least as late as the server's full log; what is then in term, vote, role and on disk |
| `RaftExact.StandExactly` | src/raft1/raft.go:1356-1415 | standing begins the next term with one's own vote and asks with the end of the full log; a server alone leads at once |
| `RaftExact.CountExactly` | src/raft1/raft.go:1416-1436 | a reply counts exactly if it grants the vote the server stands for, and makes it leader exactly when more than half have voted; then next and match indexes start from the end of the full log |
| `RaftExact.AppendExactly` | src/raft1/raft.go:379-496 | both directions: a request is accepted exactly if it is not of an earlier term and its previous entry is in the full log behind the boundary; after acceptance the commit index is the larger of the old one and the smaller of the leader's and the last index vouched for; a refusal leaves the log alone |
| `RaftExact.ConflictExactly` | src/raft1/raft.go:402-438 | where a refusal points: one past the end, one past the boundary, or the first entry of the conflicting term that is kept |
| `RaftExact.InstallExactly` | src/raft1/raft.go:301-377 | both directions: a snapshot is installed exactly if it is not of an earlier term and reaches past what is committed; boundary, commit and apply index, kept suffix, disk and the message for the service |
| `RaftExact.CommitsHighest` | src/raft1/raft.go:499-523 | the leader's commit index becomes the highest the rule allows: above it no entry of the current term is held by a quorum, and if it has moved, a quorum holds it and its term is current |
| `RaftExact.RequestsExactly` | src/raft1/raft.go:540-618 | a request carries the leader's full log from the peer's next index to its end, or the snapshot exactly when that index is compacted away; a heartbeat names the end of the log |
| `RaftExact.AppendReplyExactly` | src/raft1/raft.go:619-719 | a success moves match and next index to what was sent, never back, and leaves nothing committable uncommitted if it is news; a refusal moves the next index only if it still is the request's |
| `RaftExact.BackUpExactly` | src/raft1/raft.go:677-719 | the leader resumes right after its own last entry of the conflicting term if it has one, otherwise at the conflicting index, within what is confirmed and the end of its log |
| `RaftExact.StartExactly` | src/raft1/raft.go:1222-1247 | a leader's last entry afterwards is the command, in its term, at the returned index, in memory and on disk; any other server is unchanged |
| `RaftExact.ClaimExactly` | src/raft1/raft.go:241-298 | the applier takes the pending snapshot, or all committed commands of the full log it has not taken, in order |
| `RaftExact.SnapshotExactly` | src/raft1/raft.go:923-971 | a snapshot is taken exactly if it covers more than the last one and nothing unapplied; what it covers is dropped from the full log's compacted form and nothing else |
| `RaftElection.LeaderCanBeElected` | src/raft1/raft.go:1356-1443 | every run, the one that has just started included, can go on to a state in which some server leads and nobody is in a later term: stale leaders step down, the most up-to-date server outlives every contested term and gets every vote |
| `RaftCatchUp.BringsUp` | src/raft1/raft.go:526-734 | from every reachable state such a leader can confirm its whole log on any other server, however far behind, ahead in uncommitted entries or compacted it is, with its own heartbeats, requests, back-ups and snapshots |
| `RaftCatchUp.RefusalLowers` | src/raft1/raft.go:677-719 | every refusal of a request that starts past the common prefix strictly lowers the next index, wherever the leader's boundary lies |
| `RaftProgress.NeverStuck` | src/raft1/raft.go:1222-1247 | the replicated store is never stuck: whatever was lost, restarted, compacted or contested in a run, it can go on so that a new call for any request returns OK: elected, appended, replicated, committed, applied and answered |
| `RaftProgress.Commits` | src/raft1/raft.go:499-523 | from every reachable state a leader nobody is ahead of can commit the operation it has just appended |
| `RaftProgress.Applies` | src/raft1/raft.go:241-298 | from every reachable state the applier can bring the service past any committed index, and by then the call that waits for the operation there has its answer |
| `RaftServer.Raft.constructor` | src/raft1/raft.go:1295-1354 | a server starts as the follower its disk describes |
| `RaftServer.Raft.FollowTerm` | src/raft1/raft.go:201-209 | the fields become those of the specified follower, saved if the term moved |
| `RaftServer.Raft.TakeLead` | src/raft1/raft.go:212-228 | the fields become those of the specified leader |
| `RaftServer.Raft.Campaign` | src/raft1/raft.go:1356-1385 | the fields become those of the specified candidate, saved |
| `RaftServer.Raft.RequestVote` | src/raft1/raft.go:974-1020 | new state and reply are those of the vote specification, which `RaftExact.VoteExactly` states in both directions |
| `RaftServer.Raft.VoteReplied` | src/raft1/raft.go:1416-1436 | new state is that of the vote reply specification |
| `RaftServer.Raft.ConflictStart` | src/raft1/raft.go:402-438 | the loop finds the first index of the run of equal terms |
| `RaftServer.Raft.MergeEntries` | src/raft1/raft.go:440-477 | the loop leaves the merged log |
| `RaftServer.Raft.AppendEntries` | src/raft1/raft.go:379-496 | new state and reply are those of the AppendEntries specification, on every branch |
| `RaftServer.Raft.CommitTo` | src/raft1/raft.go:478-496 | the commit index advances to the smaller of the leader's commit and the last index the request vouches for, and never back |
| `RaftServer.Raft.InstallSnapshot` | src/raft1/raft.go:301-377 | new state and reply are those of the InstallSnapshot specification |
| `RaftServer.Raft.ReplaceBySnapshot` | src/raft1/raft.go:326-363 | log, boundary, snapshot and apply state are replaced as specified, keeping an agreeing suffix |
| `RaftServer.Raft.CountMatched` | src/raft1/raft.go:499-523 | the loop counts the servers that have an index |
| `RaftServer.Raft.AdvanceCommitIndex` | src/raft1/raft.go:499-523 | the downward scan commits the highest current-term index with a majority, as `RaftExact.CommitsHighest` states it |
| `RaftServer.Raft.Confirmed` | src/raft1/raft.go:638-660 | match index and next index move forward only, to the acknowledged index |
| `RaftServer.Raft.LastIndexOfTerm` | src/raft1/raft.go:231-238 | the downward scan finds the last entry of a term, or none |
| `RaftServer.Raft.BackUpNext` | src/raft1/raft.go:677-719 | next index backs up as the reply's hints say |
| `RaftServer.Raft.AppendReplied` | src/raft1/raft.go:619-719 | new state is that of the append reply specification |
| `RaftServer.Raft.InstallReplied` | src/raft1/raft.go:561-588 | new state is that of the install reply specification |
| `RaftServer.Raft.StartCommand` | src/raft1/raft.go:1222-1247 | a leader appends and saves the command, any other server does nothing |
| `RaftServer.Raft.ClaimBatch` | src/raft1/raft.go:241-298 | a pending snapshot, or else all newly committed commands, is claimed and marked applied |
| `RaftServer.Raft.Snapshot` | src/raft1/raft.go:923-971 | the log is trimmed at the index, if it is newer than the boundary and committed |
| `RaftPersist.ParsePrint` | src/raft1/raft.go:818-868 | every saved image, votedFor = -1 included, is read back as it was |
| `RaftPersist.PrintParse` | src/raft1/raft.go:818-868 | every byte string the reader accepts is printed back byte for byte |
| `RaftPersist.Layout` | src/raft1/raft.go:785-814 | the format byte by byte: the letters RFT2, the five fields in order as little-endian words with the weight of each byte, negative numbers modulo 2^64, then each entry behind its length, and nothing else |
| `RaftPersist.CountBound` | src/raft1/raft.go:818-868 | the reader's early check on the entry count rejects nothing a full read would accept |
| `RaftPersist.UnframeFramed` | src/raft1/raft.go:785-814 | length-prefixed entries are read back as they were framed |
| `RaftPersist.FramedUnframe` | src/raft1/raft.go:818-868 | whatever parses as framed entries is their framing |
| `RaftStore.SavedIsRestored` | src/raft1/raft.go:785-868 | with an invertible entry codec, what is saved from a corresponding cache is always restored, to the same log and no other |
| `RaftDisk.RestartFromBytes` | src/raft1/raft.go:785-868 | the saved bytes load to exactly the persistent state that was saved, so a node restarted from them is the node the run model restarts |
| `RaftStore.LogStore.RebuildEncodedLogs` | src/raft1/raft.go:758-763 | the cache corresponds to the log entry by entry |
| `RaftStore.LogStore.AppendLogs` | src/raft1/raft.go:765-770 | appending keeps cache and log in correspondence |
| `RaftStore.LogStore.TruncateLogs` | src/raft1/raft.go:772-775 | truncating keeps cache and log in correspondence |
| `RaftStore.LogStore.ReplaceLogs` | src/raft1/raft.go:777-782 | replacing keeps cache and log in correspondence |
| `RaftStore.LogStore.Persist` | src/raft1/raft.go:785-814 | the bytes written, loop by loop into one buffer, are exactly the printed image |
| `RaftStore.LogStore.ReadCachedPersist` | src/raft1/raft.go:818-868 | the fields and the cache become those of the parsed image; foreign data is left alone and damaged data panics |
| `RaftStore.LogStore.ReadEntries` | src/raft1/raft.go:840-868 | the reading loop succeeds exactly on well-framed, decodable entries and returns them with their bytes |
| `KvServer.Glue.constructor` | src/kvraft1/rsm/rsm.go:70-99 | an incarnation starts from the snapshot |
| `KvServer.Glue.Register` | src/kvraft1/rsm/rsm.go:122-140 | a submission gets an identity no waiter has, and a waiter for it |
| `KvServer.Glue.Take` | src/kvraft1/rsm/rsm.go:197-246 | the applier applies one message to the service, answers the waiter of that very operation if it has no answer, and leaves every other waiter alone |
| `RaftAnswers.DeliveredIsAnswered` | src/kvraft1/rsm/rsm.go:197-246 | in every run, a delivered command is the next of the one committed sequence, and the call that waits for it without an answer gets the result of its request after everything before it in that sequence; every other waiting call, and every call at a snapshot, is left as it was |
| `RaftAnswers.AnswerStays` | src/kvraft1/rsm/rsm.go:114-195 | an answer once given is the answer at every later moment at which the call still waits, through crashes, restarts and new submissions |
| `RsmRep.DeliverRsm` | src/kvraft1/rsm/rsm.go:197-246 | every answer given to a waiter is the result of its own operation at its place in the committed log |
| `ReplicatedKv.ReplicatedStoreIsOneStore` | src/kvraft1/server.go:34-123 | linearizability: every replica at every moment is the single-copy store after a prefix of one sequence of submitted operations, each in it once; every reply is that store's reply, which is also stated by the puts before it alone; an operation submitted after another returned comes after it; and no client request in it writes twice |
| `ReplicatedKv.WriteOnce` | src/kvraft1/server.go:34-79 | two committed copies of one request: once the first has written, the second changes no value and gets the first reply or ErrStaleRequest |
| `KvHistory.StoreAnswers` | src/kvraft1/server.go:34-79 | replies by the history alone: a get shows the last put to its key that took effect, with the number of such puts as its version, or ErrNoKey if there is none; a put takes effect exactly if it runs and carries that number; a copy gets the first copy's reply or ErrStaleRequest |
| `KvHistory.GetAnswer` | src/kvraft1/server.go:42-55 | a get after any sequence of puts, without the store: value and version from the puts to the key that took effect |
| `KvHistory.PutAnswer` | src/kvraft1/dedup/dedup.go:66-99 | a put after any sequence of puts, without the store: whether it runs at all, and what it answers |
| `KvHistory.OkTookEffect` | src/kvraft1/dedup/dedup.go:66-99 | a put answered OK has taken effect, itself or in the earlier copy whose reply it got |
| `KvHistory.WinStays` | src/kvraft1/server.go:57-79 | a put that took effect stands in the history of its key at its version ever after |
| `Dedup.AtMostOnce` | src/kvraft1/dedup/dedup.go:66-99 | for any order of copies of any requests with any acknowledgements, a write body runs at most once per client and sequence; later copies change no value and get the original reply or ErrStaleRequest |
| `Dedup.SettledStays` | src/kvraft1/dedup/dedup.go:66-99 | nothing any client sends can make the table forget that a request is settled |
| `Dedup.AckIsLongestPrefix` | src/kvraft1/dedup/dedup.go:35-55 | the acknowledgement is the longest contiguous prefix of completed sequences, and no longer |
| `Dedup.CompleteOk` | src/kvraft1/dedup/dedup.go:41-55 | completing a sequence marks that one done and no other, and moves the acknowledgement to the end of the contiguous run |
| `Dedup.ActiveNeverStale` | src/kvraft1/dedup/dedup.go:18-99 | over all histories of clients with concurrent requests, late copies, replicas, snapshots and moved shards, a request its client has not completed is never answered ErrStaleRequest, so the clerks' panics are unreachable |
| `ReplicatedKv.ActiveNeverStaleInRuns` | src/kvraft1/client.go:78-98 | the same for the replicated store: in every run of it whose puts are copies its clients sent, no call for a request its client has not completed returns ErrStaleRequest, and no replica would answer it so |
| `KvServer.RequestClient.Begin` | src/kvraft1/dedup/dedup.go:18-33 | a new, active sequence is handed out, or the counter is exhausted and the source panics |
| `KvServer.RequestClient.Complete` | src/kvraft1/dedup/dedup.go:41-55 | the loop leaves the counters as specified |
| `KvServer.KVServer.PutLocked` | src/kvraft1/server.go:57-79 | the conditional put of the single-copy store |
| `KvServer.KVServer.Prune` | src/kvraft1/dedup/dedup.go:82-89 | exactly the replies above the watermark are kept, in whatever order the map is walked |
| `KvServer.KVServer.DoPut` | src/kvraft1/dedup/dedup.go:66-99 | new store and reply are those of the deduplicated put |
| `KvServer.KVServer.DoOp` | src/kvraft1/server.go:34-55 | new store and reply are those of the specified operation, which `KvHistory.StoreAnswers` states by the puts before it |
| `KvServer.KVServer.Restore` | src/kvraft1/server.go:100-123 | the store becomes the snapshot's, values and request table, and an empty snapshot changes nothing |
| `ShardTheorems.ShardedStoreIsFlat` | src/shardkv1/shardgrp/server.go:91-195 | shard by shard, at every moment of every run of puts, migrations, late or repeated migration requests and controller takeovers that has not left this shard on group 0: some copy of it, serving or in transit, is there, every such copy equals a flat store that never moved, with versions and request table, and a serving group answers every get and put as the flat store would |
| `ShardTheorems.NoWriteIsLost` | src/shardkv1/shardgrp/server.go:113-178 | no executed write is lost, rolled back or overwritten: while a shard stays on groups, the copy that carries it at any later time, in whatever group, is the earlier copy after exactly the puts serving groups executed in between |
| `ShardTheorems.GroupAnswers` | src/shardkv1/shardgrp/server.go:91-132 | in every run, a group that does not serve the shard answers every get and put ErrWrongGroup and does not change; one that serves it answers a get by the last put to the key that took effect anywhere and their number, and a put by whether it runs and carries that number |
| `ShardTheorems.AcknowledgedIsForever` | src/shardkv1/shardgrp/server.go:113-132 | a put answered OK by any group was executed by one that served the shard; it or the copy whose reply it got has taken effect and stands in the key's history at its version at all later times, through whatever moves |
| `ShardTheorems.MigrationAnswers` | src/shardkv1/shardgrp/server.go:134-195 | both directions: when a freeze, an install and a delete succeed, what the copy then is, and that a refusal changes nothing |
| `ShardTheorems.WriteOnceThroughMoves` | src/shardkv1/shardgrp/server.go:120-178 | two copies of a request executed by whatever groups, with any number of moves between them while the shard stays on groups: once the first has written, the second changes no value and gets the first reply or ErrStaleRequest |
| `ShardTheorems.ActiveNeverStaleInRuns` | src/shardkv1/client.go:146-185 | in every run of the sharded store whose puts are copies its clients sent, through whatever moves, no group answers a request its client has not completed with ErrStaleRequest, so the sharded clerk's panic is unreachable |
| `ShardTheorems.SingleServer` | src/shardkv1/shardgrp/server.go:134-195 | in every run at most one group serves a shard; whenever no plan is pending the owner named by the current configuration serves it and no other group has a copy, and of a shard on group 0 no group has one |
| `ShardTheorems.FrozenOnlyDeleted` | src/shardkv1/shardgrp/server.go:180-195 | a copy frozen for configuration N only ever becomes absent at N, once N is published; unless the shard goes to group 0 its target is by then serving the live copy |
| `ShardTheorems.OnePlanPerNumber` | src/shardkv1/shardctrler/shardctrler.go:128-150 | every configuration number ever gets one configuration and one plan, whoever wrote it, and each plan starts where the one before ended |
| `ShardTheorems.WritesAreFenced` | src/shardkv1/shardctrler/shardctrler.go:83-119 | a write of the record lands only in its own epoch by that epoch's owner, or to begin the next epoch with configuration and plan untouched; nothing an older owner wrote lands after a newer epoch began |
| `ShardTheorems.ReadBackIsSound` | src/shardkv1/shardctrler/shardctrler.go:223-237 | the record read back after an uncertain write equals what was written exactly when that write has landed and nothing has been written since |
| `ShardTheorems.OwnerNeverRefused` | src/shardkv1/shardctrler/shardctrler.go:154-219 | a freeze, install or delete of a controller that replays a plan, including moves from and to group 0, is never refused while that controller is the owner, wherever the previous owner stopped |
| `ShardProgress.ChangeCanComplete` | src/shardkv1/shardctrler/shardctrler.go:128-219 | wherever earlier controllers stopped, crashed or were overtaken in a run, a controller that has not started, or the idle owner, can finish the pending plan and then the change to the next configuration, until every shard is served by the group it names |
| `ShardProgress.Recovers` | src/shardkv1/shardctrler/shardctrler.go:154-219 | from every state of every run the owner can bring a pending plan to its end: not yet migrated, partly migrated, or published and not cleaned up |
| `ShardRuns.StepKeeps` | src/shardkv1/shardctrler/shardctrler.go:83-237 | every step of controllers, metadata server, groups and clients keeps the invariant that ties record, copies, messages in flight and controllers together |
| `ShardRuns.CasLands` | src/shardkv1/shardctrler/shardctrler.go:223-237 | a compare-and-swap that lands, however late, is one its controller is still waiting for, and fits where every shard's copies are |
| `ShardRuns.CasKeeps` | src/shardkv1/shardctrler/shardctrler.go:223-237 | once the version has passed, a controller that goes on after success or gives up after failure still knows what its program counter says it knows |
| `ShardSafety.FreezeOk` | src/shardkv1/shardgrp/server.go:134-160 | a freeze, late or repeated, never stops a shard that is not being moved by that plan |
| `ShardSafety.InstallOk` | src/shardkv1/shardgrp/server.go:162-178 | an install, late or repeated, never overwrites newer data: it takes effect only while the source holds exactly that data frozen, or gives an empty shard that comes from group 0 |
| `ShardSafety.DeleteOk` | src/shardkv1/shardgrp/server.go:180-195 | a delete, late or repeated, removes only a copy whose target is serving or that goes to group 0 |
| `ShardServer.KVServer.constructor` | src/shardkv1/shardgrp/server.go:318-344 | the first group starts out serving every shard, any other none |
| `ShardServer.KVServer.Get` | src/shardkv1/shardgrp/server.go:96-111 | the reply is the specified one, which `ShardTheorems.GroupAnswers` states by the puts that took effect anywhere |
| `ShardServer.KVServer.Put` | src/shardkv1/shardgrp/server.go:113-132 | the shard of the key changes as specified, no other shard does; `ShardTheorems.GroupAnswers` and `ShardTheorems.AcknowledgedIsForever` state what the reply means |
| `ShardServer.KVServer.Freeze` | src/shardkv1/shardgrp/server.go:134-160 | the shard changes and the reply is as specified, no other shard changes |
| `ShardServer.KVServer.Install` | src/shardkv1/shardgrp/server.go:162-178 | the shard changes as specified, no other shard does |
| `ShardServer.KVServer.Delete` | src/shardkv1/shardgrp/server.go:180-195 | the shard changes as specified, no other shard does |
| `ShardServer.KVServer.Snapshot` | src/shardkv1/shardgrp/server.go:203-213 | the snapshot holds every shard |
| `ShardServer.KVServer.Restore` | src/shardkv1/shardgrp/server.go:217-236 | every shard becomes the snapshot's, and an empty snapshot changes nothing |
| `Rebalance.RebalancedIsBalanced` | src/shardkv1/shardcfg/shardcfg.go:122-154 | from any assignment and any set of groups every shard ends up on a member with counts within one of each other; without groups every shard is unassigned |
| `Rebalance.MoveLowersSum` | src/shardkv1/shardcfg/shardcfg.go:138-153 | every move strictly lowers the sum of the squared counts, so the loop ends |
| `Rebalance.EvenMembersKeepTheirShards` | src/shardkv1/shardcfg/shardcfg.go:122-154 | while the members are even among themselves no shard leaves a member |
| `Rebalance.LeaveMovesOrphansOnly` | src/shardkv1/shardcfg/shardcfg.go:215-221 | from an even configuration a leave with survivors moves only orphaned shards |
| `Rebalance.JoinMovesOntoNewcomers` | src/shardkv1/shardcfg/shardcfg.go:207-213 | from a balanced configuration joining any set of groups moves shards only onto the groups that join |
| `ShardConfig.Extremes` | src/shardkv1/shardcfg/shardcfg.go:99-110 | the scan returns the most and the least loaded group with their counts, the smallest identifier winning ties |
| `ShardConfig.ShardConfig.Analyze` | src/shardkv1/shardcfg/shardcfg.go:80-111 | the same for the configuration's own shards and groups, with the source's values when there are no groups |
| `ShardConfig.ShardConfig.AssignOrphans` | src/shardkv1/shardcfg/shardcfg.go:131-137 | the loop leaves each orphan on the least loaded member of its moment |
| `ShardConfig.ShardConfig.MoveOne` | src/shardkv1/shardcfg/shardcfg.go:145-151 | the first shard of one group goes to the other, nothing else changes |
| `ShardConfig.ShardConfig.Level` | src/shardkv1/shardcfg/shardcfg.go:139-153 | the loop ends with the specified even assignment |
| `ShardConfig.ShardConfig.Rebalance` | src/shardkv1/shardcfg/shardcfg.go:122-154 | the shards become the specified rebalanced ones: all on members, counts within one |
| `ShardConfig.ShardConfig.Join` | src/shardkv1/shardcfg/shardcfg.go:156-183 | succeeds exactly when there are groups to join, all new, and no server is in two groups; then exactly they are added and the number goes up |
| `ShardConfig.ShardConfig.Leave` | src/shardkv1/shardcfg/shardcfg.go:185-205 | succeeds exactly when there are groups to remove, all members and none named twice; then exactly they are gone and the number goes up |
| `ShardConfig.ShardConfig.JoinBalance` | src/shardkv1/shardcfg/shardcfg.go:207-213 | a successful join balances, and from a balanced configuration moves shards only onto the groups that join |
| `ShardConfig.ShardConfig.LeaveBalance` | src/shardkv1/shardcfg/shardcfg.go:215-221 | a successful leave balances, and moves only shards of the groups that left a balanced configuration |
| `KvClerk.PutsTakeEffectOnce` | src/kvsrv1/client.go:94-151 | over all patterns of lost, repeated and late requests, every clerk Put takes effect at most once; once it has returned OK exactly once; once it has returned ErrVersion, or ErrNoKey without having been sent again, never, at any later time |
| `KvClerk.NoKeyAndStillAnEffect` | src/kvsrv1/client.go:128-129 | a run in which a Put returns ErrNoKey after being sent again and takes effect later: ErrNoKey after a resend does not mean never |
| `KvClerk.NeverLands` | src/kvsrv1/client.go:94-151 | a returned Put without effect, no attempt of which is in the network with a version the key has not passed, never takes effect |
| `KvClerk.CanStillLand` | src/kvsrv1/client.go:94-151 | with such an attempt some continuation lets it take effect, so that is the exact condition |
| `KvClerk.EffectsMakeTheStore` | src/kvsrv1/server.go:68-108 | the store is what the puts that took effect make it, in the order in which they did |
| `KvClerk.ServerAnswers` | src/kvsrv1/server.go:45-108 | in every run a get shows the last put to its key that took effect with the number of such puts as its version, ErrNoKey if there is none; a put succeeds exactly if its version is that number |
| `KvClerk.ReturnsWhatItHears` | src/kvsrv1/client.go:94-151 | a put returns OK exactly when the reply it waits for is OK, ErrNoKey exactly for ErrNoKey, and for ErrVersion it returns ErrVersion or, after a resend, ErrMaybe |
| `KvClerk.ClerkPut` | src/kvsrv1/client.go:94-151 | the loop ends with the verdict on the first decisive reply; only a reply to the very first call can make it return ErrVersion |
| `KvClerk.KVServer.Get` | src/kvsrv1/server.go:45-58 | the reply of the single-copy store, which `KvClerk.ServerAnswers` states by the puts that took effect |
| `KvClerk.KVServer.Put` | src/kvsrv1/server.go:68-108 | the conditional put of the single-copy store |
| `LockService.MutualExclusion` | src/kvsrv1/lock/lock.go:35-136 | in every run at most one client is between the return of Acquire and its Release, and the lock word names it |
| `LockService.NeverLeaked` | src/kvsrv1/lock/lock.go:35-136 | a client that released the lock or never got it is not named by the lock word, so no lost reply leaves the lock taken for good |
| `LockService.StepKeeps` | src/kvsrv1/lock/lock.go:35-136 | every step of clients, clerks, network and server keeps the lock invariant |
| `MrJob.JobEqualsSequential` | src/main/mrsequential.go:38-84 | when the coordinator declares the job done, the lines of all output files together are a permutation of the sequential program's lines, for an order-insensitive Reduce and however equal keys were sorted, through worker crashes, timeouts, repeated tasks and late reports |
| `MrJob.OnePartitionPerKey` | src/mr/worker.go:57-63 | a key's line is in the output file its hash picks, and in no other |
| `MrJob.ReduceFindsItsFiles` | src/mr/worker.go:100-126 | a worker has a reduce task only when every map task is complete, and finds every intermediate file with the right bucket |
| `MrJob.CompletionIsFinal` | src/mr/coordinator.go:163-196 | in every run completed tasks stay completed and phases only advance |
| `MrProgress.JobCanFinish` | src/mr/worker.go:174-207 | whatever has crashed, stalled or been reported late or twice in a run, any one worker can go on to bring the job to its end |
| `MrCoordinator.RequestOk` | src/mr/coordinator.go:109-161 | a reduce task is handed out only when all maps are complete, a completed task never, and a worker is told to exit exactly when the job is done |
| `MrCoordinator.RequestExactly` | src/mr/coordinator.go:109-161 | both directions: a worker waits exactly when the job is not over and no task of the round is idle or expired; otherwise, until the job is over, it gets the lowest such task and nothing else changes |
| `MrCoordinator.ReportKeeps` | src/mr/coordinator.go:163-196 | a report completes only a task in progress of the current phase and never undoes anything |
| `MrCoordinator.Coordinator.constructor` | src/mr/coordinator.go:84-107 | all tasks idle, map phase |
| `MrCoordinator.Coordinator.AllCompleted` | src/mr/coordinator.go:198-213 | the scan answers whether all tasks are complete |
| `MrCoordinator.Coordinator.Assign` | src/mr/coordinator.go:117-126 | the first idle or timed-out task, if any, is put in progress, and nothing else changes |
| `MrCoordinator.Coordinator.RequestTask` | src/mr/coordinator.go:109-161 | new state and reply are those of the specified request |
| `MrCoordinator.Coordinator.ReportTask` | src/mr/coordinator.go:163-196 | new state is that of the specified report |
| `MrGroup.Group` | src/mr/worker.go:137-156 | the nested loops produce one line per run of equal keys, with that run's values in order |
| `MrGroup.GroupedLines` | src/mr/worker.go:128-156 | grouping sorted pairs yields exactly the line of each key that occurs, once |
| `MrGroup.SortedLines` | src/mr/worker.go:128-156 | the same lines for every way of sorting equal keys |
| `MrGroup.Partition` | src/mr/worker.go:57-63 | every bucket holds the pairs of its keys, in order |
| `MrGroup.BucketValues` | src/mr/worker.go:57-63 | a bucket has all values of its own keys and none of the others |

## Left out

- Time: timeouts, tickers, back-off and leader guessing happen at any moment or never. What is proved is that every run can go on to elect, commit, answer, migrate and finish, not that it does within some time.
- Processes and transport: labrpc, the tester, kill and shutdown, mutexes and channels.
- gob and JSON: one entry's, one snapshot's and one record's encoding are an inverse pair; legacy formats of persistent state and snapshots are not modelled.
- ShardTheorems.ShardedStoreIsFlat: speaks of shards that no record has left on group 0, because the controller drops the data of such a shard on purpose.
- ShardTheorems.NoWriteIsLost: speaks of the time in which no record leaves the shard on group 0, for the same reason.
- ShardTheorems.WriteOnceThroughMoves: speaks of the time in which no record leaves the shard on group 0, for the same reason.
- ShardProgress.ChangeCanComplete: speaks of configurations whose groups exist, because a group that does not exist never answers.
- ShardTheorems.GroupAnswers: says what a serving group answers for shards that no record has left on group 0, because the controller drops the data of such a shard on purpose.
- ShardTheorems.AcknowledgedIsForever: speaks of shards that no record has left on group 0, for the same reason.
- InitConfig: runs start with the record created by one controller, number 1 and every shard on group 1.
- Controller objects: `ensureLeadershipLocked`, `recoverPendingLocked` and `ChangeConfigTo` are steps of a state machine with a program counter, because other controllers act between any two of their calls; update in place of the controller's fields is not modelled as an object.
- The controllers' and migration clerks' check that they are still current before each attempt: sending is allowed without it, which only adds runs.
- Clerks of the replicated and sharded stores: their retry loops, server choice and configuration cache appear only as requests sent any number of times to any server or group.
- Lock.Acquire and Lock.Release: steps of a state machine rather than loops of one method, because other clients act between any two of their calls.
- Groups of the sharded store run the shard operations directly; the shard operations are not put through the Raft model a second time.
- 64-bit wrap-around of versions, terms, indexes, epochs and configuration numbers; only the request counter's exhaustion and the two's complement words of the persistent format are modelled.
- Negative group identifiers.
- ShardConfig.ShardConfig.Join: says nothing about the groups after a result other than success, because the source may already have changed some of them.
- ShardConfig.ShardConfig.Leave: says nothing about the groups after a result other than success, for the same reason.
- Map and Reduce functions that are not deterministic or, for Reduce, look at the order of values; reading and writing of the files themselves, which are maps from task numbers to contents.
- RaftBackup.BackUpInRuns: speaks of leaders whose snapshot boundary lies in the common prefix, because otherwise the leader sends a snapshot instead of backing up.
- Duplicated delivery of one call of a clerk of the single server: a clerk that sends again is modelled, a network that doubles a call is not, because then even a first ErrVersion would say nothing.
