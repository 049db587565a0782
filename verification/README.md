# Ferris Ferry in Dafny

A model of the Raft library Ferris Ferry and proofs of what it promises. `dafny verify dfyconfig.toml` checks the
whole project.

## What is modelled

**The node.** `Node.dfy` holds the fields of `RaftCore` as a value and one pure step function per entry point, with
Rust panics (failed unwraps, subtractions below zero, bad slices) as an explicit outcome. `Core.dfy` is the object
itself: a class with those fields, updated in place loop by loop as in Rust, each method proved to do exactly
what the step function says. The theorems are about the step functions and so about the object.

**The process.** `Storage.dfy`, `Durability.dfy` and `Process.dfy` add the disk, the list of actions still to run, and
crashes between any two actions; a restart goes through recovery.

**The cluster.** `Cluster.dfy` is any number of processes and the set of all messages ever sent. A message may be
delivered at any time, repeatedly or never. `History.dfy` to `Safety.dfy` prove the Raft properties over whole runs.
The proofs build, beside each run, a history that is not part of the cluster state: who voted for whom with which log,
the append-only log of each term's leader, which prefixes were acknowledged, which were committed. The theorems
mention only the run.

**The driver.** `Driver.dfy` is one turn of the event loop with its pending proposals and reads; `Proposals.dfy` and
`Reads.dfy` prove what happens to reply channels over whole process lifetimes; `EventLoop.dfy` is the driver object,
which owns a `RaftCore` and is proved against `Driver.dfy`. `Deposed.dfy` and `StepDown.dfy` treat the turn in which a
leader loses its role, `LocalSnapshots.dfy` the snapshots the driver takes itself.

**Runs that go wrong.** `Guards.dfy`, `StaleRun.dfy`, `OtherCommand.dfy` and `SplitRun.dfy` build runs from boot that show
why the assumptions below are needed; `ShipRun.dfy`, `SnapshotTurns.dfy`, `SnapshotRun.dfy` and `InstallRun.dfy` build
runs in which snapshots lose what was promised.

**The stores.** `Framing.dfy` and `LogStores.dfy` model the byte-framed log file, `MemoryLogs.dfy` its in-memory twin.

Node ids are distinct and `nodes` includes the node itself. The value drawn for the election timeout is a parameter,
and so is the order in which a hash map yields its keys, where it can be observed.

## Assumptions, each a named predicate

- `VoteGuard` (`Cluster.dfy`): a vote granted in an earlier term is not delivered to a candidate of a later one. Needed:
  `TwoLeadersWithoutVoteGuard`.
- `AppendGuard` (`Cluster.dfy`): append responses reach only the leader of their own term, and rejections name an index.
  Needed: `DivergingCommits`, and for proposals `OkForAnotherCommand`. See also `DeposedStillSends`, `BlankProbeAccepted`.
- `SafeRun` (`Safety.dfy`): a run of distinct nodes, of any number, with both guards.
- `AboveSnapshot` (`Process.dfy`) and `KeepsCommitted` (`Applied.dfy`): entries start at or above the receiver's snapshot,
  and leaders have a term above 0. See `BelowSnapshotPanics`.
- `Orderly` (`Applied.dfy`): messages agree with what is committed, and match indices stay inside the node's log.
  `NoPanic` proves that guarded cluster runs meet it.
- `NoReplacement` (`Proposals.dfy`): a leader's log is not replaced by a snapshot of its own term.
- `Unmatched` (`StepDown.dfy`): entries of a higher term do not match at a leader. `HigherTermNeverMatches` proves that
  guarded cluster runs meet it.
- `Listed` (`Core.dfy`): on a success the hash map of barriers is walked completely. `RaftDriver.OnMessage` establishes it.
- `Faithful`, `AllFit` (`LogStores.dfy`, `Framing.dfy`): entries decode to what was encoded; indices fit eight bytes and
  payload lengths four.

The runs of the cluster theorems contain no locally taken snapshots, so no log is compacted in them.

## Where the code falls short of its documentation

- A vote from an earlier election is counted in a later one: two leaders in one term (`TwoLeadersWithoutVoteGuard`).
- A rejection that names no index, sent on a delayed message of an older term, makes a leader probe with nothing at index
  0 and count the follower's whole log as matched: two nodes commit different commands at one index
  (`DivergingCommits`).
- A stale append response lets a new leader overwrite a leader that has not heard of it, and the old leader then answers
  a proposal Ok for another command (`OkForAnotherCommand`; exactly when: `RightExactlyWhen`).
- `truncate_log` does not create the log file, so a snapshot installed on a node that never stored an entry stops the
  event loop and leaves a disk from which the process cannot start (`InstallNeedsLogFile`, `FreshInstallStuck`).
- A crash between storing an installed snapshot and emptying the log leaves the old log on top of the new snapshot
  (`HalfInstalled`, `CrashBetweenWrites`).
- README.md:41 of the repository promises that a snapshot's index and data match. The applied index covers the whole
  batch from its start, so they match only if all later commands of the batch are blank (`SnapshotCoversBatch`,
  `DataBehindIndex`).
- The same snapshot empties the log file while the core keeps its unapplied suffix, which a restart loses although it
  was acknowledged (`SnapshotLosesSuffix`, `AcknowledgedEntryLost`). Two nodes can then apply different commands at one
  index (`SnapshotsDiverge`).

An even cluster commits on half of its nodes (`NeededIsMajority`, `EvenClusterCommitsOnHalf`). That is safe, because an
election takes more than half, and the safety theorems cover it.

The scans of the two log stores differ on torn bytes: the file cuts them off, the buffer keeps them or panics (`ScansAgree`,
`CutPanics`, `TornBufferHides` say exactly when, for arbitrary bytes). The buffer is private and starts empty, and by
`StoresAgree` no sequence of calls whose payloads fit reaches such bytes.

## Model

| member | source | states |
|---|---|---|
| `Safety.StateMachineSafety` | crates/raftcore/src/lib.rs:289-845 | State machine safety (section 5.4.3 of the Raft paper): in every run under both guards, for any cluster size, with lost, duplicated and reordered messages and crashes between actions, two ApplyToStateMachine actions for the same index, of any two nodes at any two moments, carry the same command |
| `Safety.LeaderCompleteness` | crates/raftcore/src/lib.rs:488-816 | Leader completeness (section 5.4): once a leader's commit index stands on an entry of its own term, the whole prefix is in the log of every leader of a later term, whenever observed |
| `Safety.CommittedPrefixesAgree` | crates/raftcore/src/lib.rs:717-740 | The committed prefixes of any two nodes at any two moments are inside their logs and agree as far as both reach |
| `Safety.TruthfulMatchIndex` | crates/raftcore/src/lib.rs:366-758 | A success names the sender's whole log, and that log is a prefix of the log of the leader of that term, then and later, although the follower reports its last index and not the end of what was sent |
| `Replication.CommitKept` | crates/raftcore/src/lib.rs:488-555 | What at least half of the nodes acknowledged in a term, up to an entry of that term, is contained in the log of every later reign: the vote's log check joined to the commit rule by a node in both sets |
| `ElectionSafety.OneLeaderPerTerm` | crates/raftcore/src/lib.rs:391-564 | Election safety (section 5.2): over all runs, any cluster size, at most one node is ever leader in a term, with crash and restart from the persisted term and vote |
| `ElectionSafety.LogMatching` | crates/raftcore/src/lib.rs:674-699 | Log matching (section 5.3): two node logs or in-flight AppendEntries with the same term at the same index agree there and on every earlier index both hold |
| `ElectionSafety.TermsOrdered` | crates/raftcore/src/lib.rs:847-852 | Terms along a log start at 1, never decrease and never exceed the node's current term |
| `NoPanics.NoPanic` | crates/raftcore/src/lib.rs:277-286 | In every state of a guarded run, for any input it may feed, no unwrap, subtraction or slice fails, application continues in order, and no pending action stops the event loop |
| `Applied.AppliedExactlyOnce` | crates/raftcore/src/lib.rs:717-833 | Over any sequence of calls, completions of snapshots prepared now or earlier included, the applied indices run on without gap or repetition except forward over an installed snapshot, every command is the log entry at its index, and snapshot index <= applied = commit index <= last index throughout |
| `Applied.HandleInOrder` | crates/raftcore/src/lib.rs:289-1028 | The same for one tick, proposal, read request or message: no panic, bounds kept, application continues where it stopped |
| `Applied.CompletesInOrder` | crates/raftcore/src/lib.rs:881-906 | Completing a snapshot prepared in any earlier state never panics, and compacts at the index for which it was prepared or does nothing |
| `Applied.NextCallInOrder` | crates/raftcore/src/lib.rs:277-906 | After any sequence of calls no unwrap, subtraction or slice fails in the next one |
| `Applied.HandleKeepsApplied` | crates/raftcore/src/lib.rs:674-699 | The term of every applied entry stays, unless a snapshot swallows it |
| `CommitRule.ReplicatedIsGreatest` | crates/raftcore/src/lib.rs:795-801 | The middle of the sorted match indices is the greatest index held by at least half, rounded up, of the tracked nodes (both directions) |
| `CommitRule.CommitsGreatest` | crates/raftcore/src/lib.rs:802-816 | The sort-and-pick loop sets the commit index to the greatest later index with a current-term entry held by enough nodes, or leaves it unchanged |
| `CommitRule.ScanPanics` | crates/raftcore/src/lib.rs:805-812 | The scan panics exactly when the picked index lies beyond the log |
| `CommitRule.NeededIsMajority` | crates/raftcore/src/lib.rs:799-801 | "Enough" is a strict majority if and only if the cluster is odd |
| `CommitRule.EvenClusterCommitsOnHalf` | crates/raftcore/src/lib.rs:799-801 | A leader of four nodes commits with two copies; half is enough, since an election takes more than half |
| `OrderStatistics.AscendingUnique` | crates/raftcore/src/lib.rs:795-799 | A bag of values has one ascending arrangement, so hash map order cannot influence the sorted match indices |
| `CatchUp.CatchUpTerminates` | crates/raftcore/src/lib.rs:634-668 | With a fixed term and no new proposals the follower accepts after at most (runs of equal term in its log) + 2 exchanges, and its log is then the leader's |
| `CatchUp.RejectionLowers` | crates/raftcore/src/lib.rs:779-788 | Each rejection strictly lowers next_index, changes neither log, and uses up one of the exchanges left |
| `CatchUp.ReachablePair` | crates/raftcore/src/lib.rs:350-379 | Every leader and follower of its term in every state of a guarded run meet the conditions of the catch-up theorem |
| `Logs.MergeIsMergeLog` | crates/raftcore/src/lib.rs:674-699 | The append loop, at or above the snapshot, never panics and keeps the log when all terms agree, else cuts it at the first disagreement and appends the rest |
| `Compaction.ReadsPreserved` | crates/raftcore/src/lib.rs:235-286 | complete_snapshot preserves every term, entry and slice above the snapshot and hides exactly what lies below |
| `Compaction.AppendCommutes` | crates/raftcore/src/lib.rs:628-760 | An accepted AppendEntries at or above the compaction index gives the same actions and logical log whether compaction comes before or after it |
| `Compaction.VoteCommutes` | crates/raftcore/src/lib.rs:488-527 | Votes do not change under compaction |
| `Compaction.BuildCommutes` | crates/raftcore/src/lib.rs:350-379 | Nor do messages to peers above the snapshot; below it they turn into snapshot offers |
| `Compaction.CommitCommutes` | crates/raftcore/src/lib.rs:795-845 | Nor do the commit rule, what it applies and the barriers it releases |
| `Compaction.CompleteIsCompacted` | crates/raftcore/src/lib.rs:881-906 | prepare_snapshot followed by complete_snapshot is compaction at the applied index |
| `Compaction.CompletePanics` | crates/raftcore/src/lib.rs:892-906 | complete_snapshot panics exactly for an index beyond the log and does nothing at or below the old snapshot |
| `Snapshots.TransferCompletes` | crates/raftcore/src/lib.rs:909-1028 | A follower behind the leader's snapshot holds exactly the leader's snapshot and log after one InstallSnapshot and one AppendEntries, if it lacked the snapshot's last entry |
| `Snapshots.TransferJoins` | crates/raftcore/src/lib.rs:957-1028 | One that has that entry keeps its log, and then holds every entry of the leader's log at its index, given log matching and agreement on what it has committed |
| `Snapshots.FollowerInstalls` | crates/raftcore/src/lib.rs:957-1004 | The follower discards its log exactly when it lacks the snapshot's last entry, and answers with the snapshot's index |
| `Snapshots.LeaderResumes` | crates/raftcore/src/lib.rs:1008-1028 | The leader then sends exactly its remaining log from right above the snapshot |
| `Snapshots.OffersSnapshot` | crates/raftcore/src/lib.rs:341-363 | A snapshot is offered if and only if the peer's previous index has no term in the log |
| `Timing.LeaderBeats` | crates/raftcore/src/lib.rs:315-339 | A leader's ticks are silent for an interval but for its last one, which sends to every peer and restores the state |
| `Timing.OthersWait` | crates/raftcore/src/lib.rs:319-327 | Before its timeout any other node only counts ticks |
| `Timing.ThenStands` | crates/raftcore/src/lib.rs:391-430 | At the timeout it becomes candidate of the next term, persists the vote for itself first, then asks every peer with its own last index and term |
| `Process.DiskMirrorsMemory` | crates/raftcore/src/lib.rs:307-312 | At every point of every run of a process with crashes between actions the disk holds term, vote, log and snapshot of the node whenever all actions are done and at every message sent, and recovery rebuilds exactly that |
| `Process.DurableRun` | crates/raft-event-loop/src/lib.rs:281-329 | The invariant behind it, kept by every handler, every executed action and every restart |
| `Process.RecoverHolds` | crates/raft-event-loop/src/lib.rs:155-195 | Recovery reads back exactly what the disk holds and fails only for a snapshot without a log file |
| `Process.InstallNeedsLogFile` | crates/raft-file-storage/src/lib.rs:210-219 | Installing a snapshot stops the event loop if and only if there is no log file yet, and the process can recover if and only if it did not stop |
| `Process.FreshInstallStuck` | crates/raft-event-loop/src/lib.rs:304-329 | A process that has just booted and receives any snapshot is stuck two events later: LoadSnapshot is next, there is no log file, and recovery from what the failing action leaves fails |
| `Process.HalfInstalled` | crates/raft-event-loop/src/lib.rs:309-328 | Storing the snapshot and emptying the log are two writes: recovery after a crash between them equals recovery after both if and only if the old log was empty |
| `InstallRun.CrashBetweenWrites` | crates/raft-event-loop/src/lib.rs:304-329 | For any stored log and any snapshot beyond it there is a run from boot about to install it; recovery after the first of the two writes differs from recovery after both |
| `Storage.StoreContiguous` | crates/raft-file-storage/src/lib.rs:86-142 | On contiguous frames, storing at an index replaces exactly the entries from it on |
| `LocalSnapshots.SnapshotCoversBatch` | crates/raft-event-loop/src/lib.rs:354-404 | When a command of a batch crosses the threshold, the snapshot is stored under the index of the batch's last entry with the state after what has been handed over; that is the state at the stored index if and only if every later command of the batch is blank |
| `LocalSnapshots.BatchHandsOver` | crates/raft-event-loop/src/lib.rs:360-368 | A batch hands over exactly its commands that are not blank, in order |
| `LocalSnapshots.SnapshotLosesSuffix` | crates/raft-event-loop/src/lib.rs:397-403 | A restart right after a snapshot gives back the core's log if and only if nothing lay above the applied index |
| `SnapshotTurns.DataBehindIndex` | crates/raft-event-loop/src/lib.rs:369-404 | Two turns of a follower's driver from its start, on messages of a reachable cluster, with threshold two and three commands: they end with a snapshot of index 4 that lacks the command at index 4 |
| `SnapshotTurns.AcknowledgedEntryLost` | crates/raft-event-loop/src/lib.rs:369-404 | Two turns of a follower's driver from its start, on messages of a reachable cluster, with threshold one: they end with index 3 acknowledged and a disk whose recovery ends at index 2 |
| `SnapshotRun.SnapshotsDiverge` | crates/raft-event-loop/src/lib.rs:369-404 | State machine safety fails with snapshots that the driver takes itself, although both guards hold: three nodes, one snapshot in a batch, one restart, and two nodes have applied different commands at index 3 |
| `ShipRun.Ships` | crates/raftcore/src/lib.rs:762-845 | For any proposals, under both guards: a leader of three that has been turned down by both peers takes them, commits a front part with one peer, and sends the other its whole log |
| `Framing.ParseEncodeAll` | crates/raft-file-storage/src/lib.rs:130-142 | A written file reads back as exactly its frames |
| `Framing.TornParse` | crates/raft-file-storage/src/lib.rs:150-184 | Cutting any file anywhere leaves a prefix of its frames |
| `Framing.TornKeepsWhole` | crates/raft-file-storage/src/lib.rs:150-184 | and every frame that lies wholly before the cut survives |
| `Framing.ScanEndIs` | crates/raft-file-storage/src/lib.rs:97-125 | The bytes the scan keeps are exactly the whole frames before the index sought |
| `Framing.StoreParse` | crates/raft-file-storage/src/lib.rs:82-148 | Storing on any file, torn or not, leaves the whole frames before the index followed by the new ones and nothing else |
| `LogStores.StoreRefines` | crates/raft-file-storage/src/lib.rs:82-148 | Storing bytes refines storing frames |
| `LogStores.TornRestore` | crates/raft-file-storage/src/lib.rs:150-184 | Every byte prefix of a well-formed log file restores to a prefix of its entries |
| `LogStores.TornStore` | crates/raft-file-storage/src/lib.rs:110-142 | Storing at an index on a torn file makes restore return the surviving old entries before it, or all of them if they do not reach it, followed by the new ones |
| `LogStores.WriteFrames` | crates/raft-file-storage/src/lib.rs:130-142 | The write loop emits the encoding of the numbered entries |
| `LogStores.ReadFrames` | crates/raft-file-storage/src/lib.rs:163-183 | The read loop returns the entries of the whole frames, or an error at the first that does not decode |
| `LogStores.FileLog.FindStart` | crates/raft-file-storage/src/lib.rs:97-125 | The scan loop finds the end of the frames to keep |
| `LogStores.FileLog.StoreLogEntries` | crates/raft-file-storage/src/lib.rs:82-148 | The file becomes the kept bytes followed by the new frames, created if missing |
| `LogStores.FileLog.RestoreLogEntries` | crates/raft-file-storage/src/lib.rs:150-184 | No file, an error, or the entries of the whole frames |
| `LogStores.FileLog.TruncateLog` | crates/raft-file-storage/src/lib.rs:210-219 | Empties an existing file; an error without one |
| `MemoryLogs.StoresAgree` | crates/raft-test-utils/src/lib.rs:58-120 | From empty, any sequence of store and truncate calls leaves the same bytes in the buffer and in the file, and no call panics |
| `MemoryLogs.RestoresAgree` | crates/raft-test-utils/src/lib.rs:122-156 | They restore the same entries, those of the frames written, except that an empty buffer answers None |
| `MemoryLogs.ScansAgree` | crates/raft-test-utils/src/lib.rs:74-98 | On any bytes, the two scans cut at the same place if and only if the index is found or nothing is torn |
| `MemoryLogs.CutPanics` | crates/raft-test-utils/src/lib.rs:74-95 | The scan of the buffer panics if and only if the index is not found and the bytes end between an index and a length |
| `MemoryLogs.TornBufferHides` | crates/raft-test-utils/src/lib.rs:90-120 | On any buffer with a torn payload: what is stored next is lost to restore if and only if the torn frame claims more bytes than then follow; in the file it is not lost |
| `MemoryLogs.MemoryLog.FindStart` | crates/raft-test-utils/src/lib.rs:74-95 | The cursor loop finds the cut, the end, or panics on a torn header |
| `MemoryLogs.MemoryLog.StoreLogEntries` | crates/raft-test-utils/src/lib.rs:58-120 | The buffer becomes the kept bytes followed by the new frames |
| `MemoryLogs.MemoryLog.RestoreLogEntries` | crates/raft-test-utils/src/lib.rs:122-156 | None when empty, else like the file |
| `MemoryLogs.MemoryLog.TruncateLog` | crates/raft-test-utils/src/lib.rs:170-174 | Empties the buffer |
| `Core.RaftCore.constructor` | crates/raftcore/src/lib.rs:103-144 | A fresh follower with every other node as peer |
| `Core.RaftCore.Reload` | crates/raftcore/src/lib.rs:162-177 | Restores term, vote and log and nothing else |
| `Core.RaftCore.ResumeAt` | crates/raftcore/src/lib.rs:196-222 | Commit and applied index start at the snapshot |
| `Core.RaftCore.Propose` | crates/raftcore/src/lib.rs:289-313 | Refused unless leader; else the step of the value model that the theorems above speak of |
| `Core.RaftCore.Tick` | crates/raftcore/src/lib.rs:315-327 | Likewise for a tick |
| `Core.RaftCore.Heartbeat` | crates/raftcore/src/lib.rs:329-339 | Likewise for the leader's part of it |
| `Core.RaftCore.ElectionTimeout` | crates/raftcore/src/lib.rs:391-430 | Likewise for the others' part of it |
| `Core.RaftCore.CheckMsgTerm` | crates/raftcore/src/lib.rs:442-464 | Adopting a higher term: new state and the metadata to persist |
| `Core.RaftCore.HandleRequestVote` | crates/raftcore/src/lib.rs:466-527 | New state and actions equal the value model's step |
| `Core.RaftCore.HandleRequestVoteResponse` | crates/raftcore/src/lib.rs:529-564 | New state and actions equal the value model's step |
| `Core.RaftCore.InitializeLeaderState` | crates/raftcore/src/lib.rs:847-864 | The blank entry of the new term is appended and every peer is tracked from right after it |
| `Core.TrackPeers` | crates/raftcore/src/lib.rs:854-857 | The loop over the peers inserts exactly their keys |
| `Core.RaftCore.FindConflict` | crates/raftcore/src/lib.rs:648-657 | The backward loop finds the first index of the conflicting run |
| `Core.RaftCore.AppendNew` | crates/raftcore/src/lib.rs:674-699 | The append loop in place equals the recursive merge, including its panics |
| `Core.RaftCore.FollowLeaderCommit` | crates/raftcore/src/lib.rs:716-740 | New commit index and applications equal the value model's step |
| `Core.RaftCore.HandleAppendEntries` | crates/raftcore/src/lib.rs:566-760 | New state, actions and panics equal the value model's step |
| `Core.Collect` | crates/raftcore/src/lib.rs:795 | Collecting the values of a hash map key by key in any order yields the same bag |
| `Core.RaftCore.MajorityIndex` | crates/raftcore/src/lib.rs:795-801 | Collect, add the own last index, sort and pick equals the specified index whatever the hash map order |
| `Core.RaftCore.FindCommit` | crates/raftcore/src/lib.rs:802-812 | The commit loop equals the specified scan, including its panic |
| `Core.ExtractReady` | crates/raftcore/src/lib.rs:835-842 | Exactly the ready barriers leave the map, in whatever order it is walked |
| `Core.RaftCore.HandleAppendEntriesResponse` | crates/raftcore/src/lib.rs:762-845 | New state, actions and panics equal the value model's step for the order in which the barriers were walked, which lists them all once |
| `Core.RaftCore.RequestReadBarrier` | crates/raftcore/src/lib.rs:867-876 | Refused unless leader; else a fresh id holding the current success count |
| `Core.RaftCore.CompleteSnapshot` | crates/raftcore/src/lib.rs:892-906 | New state and panic equal the value model's |
| `Core.RaftCore.HandleInstallSnapshot` | crates/raftcore/src/lib.rs:909-1005 | New state and actions equal the value model's step |
| `Core.RaftCore.HandleInstallSnapshotResponse` | crates/raftcore/src/lib.rs:1008-1028 | New state and actions equal the value model's step |
| `Proposals.ProposalsConserved` | crates/raft-event-loop/src/lib.rs:228-279 | Proposal replies are conserved: at every turn of every allowed run the channels received are exactly those pending and those answered, each as often as received; nothing pends unless the node leads; a new proposal takes an index nobody waits for; an Ok in a turn that ends as leader is for the very command proposed |
| `Proposals.TurnKeeps` | crates/raft-event-loop/src/lib.rs:354-359 | The same invariant over one turn of the loop |
| `Proposals.LeaderStays` | crates/raftcore/src/lib.rs:599-609 | A leader stays leader of its term with a log that only grows, unless a message carries a higher term |
| `StepDown.RightExactlyWhen` | crates/raft-event-loop/src/lib.rs:260-276 | In a turn in which a leader receives an AppendEntries of a higher term every Ok is for its own command if and only if, for each pending index the turn applies, the merged log keeps the old entry or the message brings the same command |
| `StepDown.EveryOkRight` | crates/raft-event-loop/src/lib.rs:354-359 | In a run in which no entries of a higher term match at a leader every Ok, whatever the role at the end of its turn, is for the very command proposed |
| `Deposed.HigherTermNeverMatches` | crates/raftcore/src/lib.rs:847-857 | In every guarded run an AppendEntries of a term its target has not reached does not match there: a new leader starts behind its own blank entry and goes back only for a peer that has answered |
| `Deposed.DeposedAppliesNothing` | crates/raftcore/src/lib.rs:599-633 | So in every guarded run a leader that loses its role in a call applies nothing in that call |
| `OtherCommand.OkForAnotherCommand` | crates/raft-event-loop/src/lib.rs:260-276 | Without AppendGuard there is a run of three nodes, and of the driver of one, in which a proposal is answered Ok when the blank entry of a later leader is applied at its index |
| `Reads.ReadsInStep` | crates/raft-event-loop/src/lib.rs:249-276 | For every sequence of messages, at each loop start the pending read ids equal the core's barrier ids, both are empty unless leader, and read channels are conserved |
| `Reads.IdsFresh` | crates/raftcore/src/lib.rs:867-876 | Of two reads accepted in a process lifetime the later has the greater id |
| `Reads.ReleaseNeedsSuccesses` | crates/raftcore/src/lib.rs:835-842 | A release answers the channel for which an earlier turn opened that barrier, and at least half the peers, rounded up, of successes were counted in between |
| `Reads.LivesUntilReady` | crates/raftcore/src/lib.rs:442-456 | A barrier outlives a turn if and only if the node still leads and no success has made it ready |
| `Driver.RunActionsRan` | crates/raft-event-loop/src/lib.rs:281-412 | Running a list of actions removes exactly the applied indices and released ids from the pending maps, each with its answer, loses or doubles no channel, and at most compacts the core |
| `EventLoop.Start` | crates/raft-event-loop/src/lib.rs:129-212 | Recovery builds exactly the node the disk holds, with nothing pending, or stops |
| `EventLoop.RaftDriver.HandleAction` | crates/raft-event-loop/src/lib.rs:281-412 | New driver state equals the specified effect of the action, or the loop stops |
| `EventLoop.RaftDriver.HandleActions` | crates/raft-event-loop/src/lib.rs:434-436 | The loop over the actions composes those effects in order |
| `EventLoop.RaftDriver.HandleMessage` | crates/raft-event-loop/src/lib.rs:414-432 | Each message reaches its handler |
| `EventLoop.RaftDriver.OnTick` | crates/raft-event-loop/src/lib.rs:222-227 | The tick arm equals the specified turn |
| `EventLoop.RaftDriver.OnProposal` | crates/raft-event-loop/src/lib.rs:228-248 | The proposal arm equals the specified turn |
| `EventLoop.RaftDriver.OnRead` | crates/raft-event-loop/src/lib.rs:249-259 | The read arm equals the specified turn |
| `EventLoop.RaftDriver.OnMessage` | crates/raft-event-loop/src/lib.rs:260-276 | The message arm, with the drain at step-down, equals the specified turn |
| `Guards.TwoLeadersWithoutVoteGuard` | crates/raftcore/src/lib.rs:529-556 | Without VoteGuard three nodes reach a state with two leaders of one term: a vote of term 1 is counted in term 2 |
| `SplitRun.DivergingCommits` | crates/raftcore/src/lib.rs:779-787 | Without AppendGuard three nodes reach a state in which two of them have committed different commands at index 2: a rejection that names no index reaches the leader of its own term, which probes with nothing at index 0 and counts the answer |
| `Guards.DeposedStillSends` | crates/raftcore/src/lib.rs:767-788 | Without AppendGuard a node just deposed by a rejection sends in the new term: AppendEntries before the index named, or at index 0 and empty if none is named, or its snapshot |
| `Guards.BlankProbeAccepted` | crates/raftcore/src/lib.rs:626-633 | Every follower of that term accepts an empty AppendEntries at index 0, whatever its log, commits its own log as far as the message says, and reports all of it as matched |
| `Guards.BelowSnapshotPanics` | crates/raftcore/src/lib.rs:674-699 | A follower compacted past index 1 panics on entries sent from the start of the log |

## Left out

- Overflow of the 64-bit counters, terms and indices: numbers are unbounded; subtraction below zero is a panic, as with overflow checks on.
- Reads.ReleaseNeedsSuccesses: claims the counting only; barriers count successes and not distinct peers or later requests, so linearizability of reads does not follow.
- Proposals.ProposalsConserved: says nothing about the command behind an Ok in the turn that loses leadership; `RightExactlyWhen` and `EveryOkRight` do.
- Locally taken snapshots in process and cluster runs: durability and state machine safety are false with them (`SnapshotLosesSuffix`, `SnapshotsDiverge`); the theorems about the core's calls and the driver include them. That safety holds for clusters which compact only when nothing lies above the applied index, and deliver InstallSnapshot, is not proved.
- Liveness of elections, and the single-node cluster, which the code says is unsupported.
- Membership changes: the library has none.
- The contents of snapshots against their index across the cluster.
- crates/raft-tcp-transport: sockets, reconnecting and backoff; the network is the message set of the cluster model.
- crates/raft-kv, Docker and Kubernetes files.
- Tokio channels, `select!` and oneshot mechanics: the driver takes one ready input per turn, and a reply channel is a token. The order in which a drained map answers its channels is fixed, since the channels are independent.
- postcard and serde: an abstract pair of functions with a round-trip hypothesis; a failing serialisation is not modelled.
- Metadata and snapshot files, fsync and rename: each storage action is one atomic write, except in the byte model of the log file and in `HalfInstalled`; I/O errors other than a missing log file or snapshot are not modelled.
- Mutexes around the in-memory buffer, tracing and Display implementations.
