/** The durable side of a node: metadata, the framed log and the snapshot, the effect of each action
    on them, and recovery. */
module Storage {
  import opened RaftTypes
  import opened RaftNode
  import opened Frames

  datatype Metadata = Metadata(term: nat, votedFor: Option<NodeId>)

  datatype Snapshot = Snapshot(index: nat, term: nat, data: Bytes)

  /** One record of the log file. */
  type LogFrame = Frame<LogEntry>

  /** `None` stands for a file that does not exist. */
  datatype Disk = Disk(meta: Option<Metadata>, log: Option<seq<LogFrame>>, snapshot: Option<Snapshot>)

  function Entries(frames: seq<LogFrame>): (r: seq<LogEntry>)
    ensures |r| == |frames|
  {
    seq(|frames|, k requires 0 <= k < |frames| => frames[k].body)
  }

  /** Overwrite from the frame with index `start`, or append when there is none. */
  function StoreFrames(frames: seq<LogFrame>, start: nat, entries: seq<LogEntry>): seq<LogFrame> {
    frames[..Position(frames, start)] + Framed(start, entries)
  }

  /** On contiguous frames, storing at `start` replaces exactly the entries from `start` on. */
  lemma StoreContiguous(base: nat, entries: seq<LogEntry>, start: nat, added: seq<LogEntry>)
    requires base <= start <= base + |entries|
    ensures StoreFrames(Framed(base, entries), start, added)
            == Framed(base, entries[..start - base] + added)
  {
    var frames := Framed(base, entries);
    var k := Position(frames, start);
    if start - base < |entries| {
      assert frames[start - base].index == start;
    }
    assert k == start - base;
  }

  /** The outcome of running one action: the disk, and whether the event loop goes on. */
  datatype Executed = Executed(disk: Disk, alive: bool)

  function Execute(disk: Disk, a: Action): Executed {
    match a
    case PersistMetadata(t, v) => Executed(disk.(meta := Some(Metadata(t, v))), true)
    case PersistLogEntries(start, entries) =>
      Executed(disk.(log := Some(StoreFrames(disk.log.GetOr([]), start, entries))), true)
    case LoadSnapshot(index, term, data) =>
      // the snapshot is stored first; clearing a log file that does not exist is an error
      var stored := disk.(snapshot := Some(Snapshot(index, term, data)));
      if disk.log.None? then Executed(stored, false) else Executed(stored.(log := Some([])), true)
    case SendInstallSnapshot(_, _, _, _) => Executed(disk, disk.snapshot.Some?)
    case _ => Executed(disk, true)
  }

  /** Building the node from the disk when the process starts; None is a panic. */
  function Recover(id: NodeId, nodes: seq<NodeId>, heartbeat: Option<nat>, timeout: nat, disk: Disk)
    : Option<Node>
  {
    match disk.snapshot
    case Some(s) =>
      if disk.meta.None? || disk.log.None? then None
      else Some(RestoreWithSnapshot(id, nodes, heartbeat, timeout, disk.meta.value.term,
                                    disk.meta.value.votedFor, Entries(disk.log.value), s.index, s.term))
    case None =>
      if disk.meta.Some? then
        Some(Restore(id, nodes, heartbeat, timeout, disk.meta.value.term, disk.meta.value.votedFor,
                     Entries(disk.log.GetOr([]))))
      else Some(New(id, nodes, heartbeat, timeout))
  }

  // ----- What the disk says about a node -----

  function DiskTerm(disk: Disk): nat { if disk.meta.Some? then disk.meta.value.term else 0 }

  function DiskVote(disk: Disk): Option<NodeId> { if disk.meta.Some? then disk.meta.value.votedFor else None }

  function DiskLog(disk: Disk): seq<LogEntry> { Entries(disk.log.GetOr([])) }

  function DiskSnapIndex(disk: Disk): nat { if disk.snapshot.Some? then disk.snapshot.value.index else 0 }

  function DiskSnapTerm(disk: Disk): nat { if disk.snapshot.Some? then disk.snapshot.value.term else 0 }

  /** Frames run contiguously from just above the snapshot, and nothing but a fresh disk lacks metadata. */
  ghost predicate DiskOk(disk: Disk) {
    && disk.log.GetOr([]) == Framed(DiskSnapIndex(disk) + 1, DiskLog(disk))
    && (disk.meta.None? ==> disk.snapshot.None? && DiskLog(disk) == [])
    && (disk.snapshot.Some? ==> disk.snapshot.value.index > 0)
  }

  /** The disk holds exactly the node's persistent state. */
  ghost predicate Holds(disk: Disk, n: Node) {
    && DiskOk(disk)
    && DiskTerm(disk) == n.currentTerm
    && DiskVote(disk) == n.votedFor
    && DiskLog(disk) == n.log
    && DiskSnapIndex(disk) == n.snapIndex
    && DiskSnapTerm(disk) == n.snapTerm
  }
}
