/** The values a Raft node exchanges with its event loop and its peers. */
module RaftTypes {

  datatype Option<+T> = None | Some(value: T) {
    function GetOr(default: T): T {
      match this
      case Some(v) => v
      case None => default
    }
  }

  newtype byte = x: int | 0 <= x < 256

  type Bytes = seq<byte>

  type NodeId = nat

  datatype Role = Leader | Follower | Candidate

  datatype LogEntry = LogEntry(term: nat, command: Bytes)

  datatype Message =
    | RequestVote(term: nat, candidate: NodeId, lastLogIndex: nat, lastLogTerm: nat)
    | RequestVoteResponse(id: NodeId, term: nat, granted: bool)
    | AppendEntries(term: nat, leader: NodeId, prevIndex: nat, prevTerm: nat,
                    entries: seq<LogEntry>, leaderCommit: nat)
    | AppendEntriesResponse(id: NodeId, term: nat, matchIndex: nat, success: bool,
                            conflictIndex: Option<nat>, conflictTerm: Option<nat>)
    | InstallSnapshot(term: nat, leader: NodeId, snapIndex: nat, snapTerm: nat, data: Bytes)
    | InstallSnapshotResponse(id: NodeId, term: nat, snapIndex: nat)

  /** What the core asks the event loop to do, in order. */
  datatype Action =
    | SendMessage(target: NodeId, message: Message)
    | ApplyToStateMachine(index: nat, command: Bytes)
    | PersistMetadata(term: nat, votedFor: Option<NodeId>)
    | PersistLogEntries(startIndex: nat, entries: seq<LogEntry>)
    | SendInstallSnapshot(target: NodeId, term: nat, snapIndex: nat, snapTerm: nat)
    | LoadSnapshot(snapIndex: nat, snapTerm: nat, data: Bytes)
    | ReadBarrierReady(id: nat)
}
