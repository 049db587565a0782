/** One process: the node in memory, the actions its last handler returned that the event loop has not
    executed yet, and the disk. A crash may happen between any two actions. */
module Process {
  import opened RaftTypes
  import opened RaftNode
  import opened Storage
  import opened Durability

  datatype Config = Config(nodes: seq<NodeId>, heartbeat: Option<nat>)

  datatype Process = Process(node: Node, pending: seq<Action>, disk: Disk)

  datatype Event = Feed(input: Input) | Exec | Restart(timeout: nat)

  const EMPTY_DISK := Disk(None, None, None)

  function Boot(cfg: Config, id: NodeId, timeout: nat): Process {
    Process(New(id, cfg.nodes, cfg.heartbeat, timeout), [], EMPTY_DISK)
  }

  /** The event loop feeds the core only after the previous actions are done. A panic, and an action that
      stops the event loop, leave only `Restart`. */
  ghost predicate Next(cfg: Config, id: NodeId, p: Process, e: Event, p': Process) {
    match e
    case Feed(input) =>
      var r := Handle(p.node, input);
      p.pending == [] && r.Done? && p' == Process(r.node, r.actions, p.disk)
    case Exec =>
      p.pending != [] &&
      var x := Execute(p.disk, p.pending[0]);
      x.alive && p' == Process(p.node, p.pending[1..], x.disk)
    case Restart(timeout) =>
      var n := Recover(id, cfg.nodes, cfg.heartbeat, timeout, p.disk);
      n.Some? && p' == Process(n.value, [], p.disk)
  }

  /** Messages come from nodes in a real term, and entries never start below the receiver's snapshot. */
  ghost predicate AboveSnapshot(p: Process, e: Event) {
    e.Feed? && e.input.Delivery? ==>
      var m := e.input.message;
      && (m.AppendEntries? ==> m.term > 0 && m.prevIndex >= p.node.snapIndex)
      && (m.InstallSnapshot? ==> m.term > 0)
  }

  ghost predicate RealTerm(n: Node) {
    n.role != Follower ==> n.currentTerm > 0
  }

  lemma ReactMirrors(disk: Disk, n: Node, m: Message, timeout: nat, order: seq<nat>)
    requires Holds(disk, n) && RealTerm(n) && n.React(m, timeout, order).Done?
    requires m.AppendEntries? || m.InstallSnapshot? ==> n.currentTerm > 0
    requires m.AppendEntries? ==> m.prevIndex >= n.snapIndex
    ensures Mirrors(disk, n.React(m, timeout, order).actions, n.React(m, timeout, order).node)
  {
    match m {
      case RequestVote(_, _, _, _) => VoteMirrors(disk, n, m, timeout);
      case RequestVoteResponse(_, _, _) => WinMirrors(disk, n, m, timeout);
      case AppendEntries(_, _, _, _, _, _) => AppendMirrors(disk, n, m, timeout);
      case AppendEntriesResponse(_, _, _, _, _, _) => ResponseMirrors(disk, n, m, order);
      case InstallSnapshot(_, _, _, _, _) => SnapshotMirrors(disk, n, m, timeout);
      case InstallSnapshotResponse(_, _, _) =>
        QuietMirrors(disk, [], n.React(m, timeout, order).node);
    }
  }

  lemma ReceiveMirrors(disk: Disk, n: Node, m: Message, timeout: nat, order: seq<nat>)
    requires Holds(disk, n) && RealTerm(n) && n.Receive(m, timeout, order).Done?
    requires m.AppendEntries? || m.InstallSnapshot? ==> m.term > 0
    requires m.AppendEntries? ==> m.prevIndex >= n.snapIndex
    ensures Mirrors(disk, n.Receive(m, timeout, order).actions, n.Receive(m, timeout, order).node)
  {
    hide Node.React, Mirrors;
    var n1 := n.AdoptTerm(m.term, timeout);
    var r := n1.React(m, timeout, order);
    if m.term > n.currentTerm {
      var disk' := disk.(meta := Some(Metadata(m.term, None)));
      ReactMirrors(disk', n1, m, timeout, order);
      MetadataMirrors(disk, m.term, None, r.actions, r.node);
    } else {
      ReactMirrors(disk, n, m, timeout, order);
      assert [] + r.actions == r.actions;
    }
  }

  lemma HandleMirrors(disk: Disk, n: Node, input: Input)
    requires Holds(disk, n) && RealTerm(n) && Handle(n, input).Done?
    requires AboveSnapshot(Process(n, [], disk), Feed(input))
    ensures Mirrors(disk, Handle(n, input).actions, Handle(n, input).node)
  {
    match input {
      case Timer(timeout) => TickMirrors(disk, n, timeout);
      case Proposal(command) => ProposeMirrors(disk, n, command);
      case ReadRequest => QuietMirrors(disk, [], Handle(n, input).node);
      case Delivery(m, timeout, order) => ReceiveMirrors(disk, n, m, timeout, order);
    }
  }

  // ----- Roles and terms -----

  lemma {:induction false} MergeFrame(n: Node, index: nat, entries: seq<LogEntry>)
    requires n.Merge(index, entries).Some?
    ensures n.Merge(index, entries).value == n.(log := n.Merge(index, entries).value.log)
    decreases |entries|
  {
    if entries != [] {
      if index <= n.LastLogIndex() {
        if n.TermAt(index).value == entries[0].term {
          MergeFrame(n, index + 1, entries[1..]);
        } else {
          MergeFrame(n.(log := n.log[..index - n.snapIndex - 1] + [entries[0]]), index + 1, entries[1..]);
        }
      } else {
        MergeFrame(n.(log := n.log + [entries[0]]), index + 1, entries[1..]);
      }
    }
  }

  lemma FinishFrame(g: Node, m: Message)
    requires m.AppendEntries? && g.FinishAppend(m).Done?
    ensures var r := g.FinishAppend(m).node;
            r == g.(commitIndex := r.commitIndex, lastApplied := r.lastApplied)
  {
    FinishShape(g, m, g.PersistSuffix(m).value);
  }

  lemma FromFrame(f: Node, m: Message)
    requires m.AppendEntries? && f.AppendFrom(m).Done?
    ensures var r := f.AppendFrom(m).node;
            r == f.(log := r.log, commitIndex := r.commitIndex, lastApplied := r.lastApplied)
  {
    hide Node.Merge, Node.FinishAppend, Node.Mismatch, Node.Matches;
    if f.Matches(m) {
      MergeFrame(f, m.prevIndex + 1, m.entries);
      FinishFrame(f.Merge(m.prevIndex + 1, m.entries).value, m);
    }
  }

  /** Answering AppendEntries touches neither the term, nor the vote, nor the snapshot. */
  lemma AppendFrame(n: Node, m: Message, timeout: nat)
    requires m.AppendEntries? && n.OnAppendEntries(m, timeout).Done?
    ensures var r := n.OnAppendEntries(m, timeout).node;
            r == n.(role := r.role, ticks := r.ticks, electionTimeout := r.electionTimeout,
                    currentLeader := r.currentLeader, log := r.log,
                    commitIndex := r.commitIndex, lastApplied := r.lastApplied)
            && (r.role == n.role || r.role == Follower)
  {
    hide Node.AppendFrom;
    var f := if m.term == n.currentTerm && n.role == Candidate then n.(role := Follower) else n;
    if f.Follows(m) {
      FromFrame(f.ResetTimer(timeout).(currentLeader := Some(m.leader)), m);
    }
  }

  lemma ReactRole(n: Node, m: Message, timeout: nat, order: seq<nat>)
    requires n.React(m, timeout, order).Done?
    ensures var n' := n.React(m, timeout, order).node;
            && n'.currentTerm == n.currentTerm
            && (n'.role == n.role || n'.role == Follower || n.role == Candidate)
  {
    hide Node.OnAppendEntries, Node.BuildAppendEntries, Node.CommitScan, Node.ReplicatedIndex, Node.ReadyBarriers;
    hide Node.Slice, Node.Grants, Node.TermAt, SetAll, Node.AppendToAll;
    if m.AppendEntries? {
      AppendFrame(n, m, timeout);
    }
  }

  lemma HandleRole(n: Node, input: Input)
    requires RealTerm(n) && Handle(n, input).Done?
    ensures RealTerm(Handle(n, input).node)
  {
    hide Node.React, Node.AppendToAll, Node.RequestVotes;
    if input.Delivery? {
      ReactRole(n.AdoptTerm(input.message.term, input.timeout), input.message, input.timeout, input.order);
    }
  }

  // ----- Every run of one process -----

  ghost predicate DurableInv(p: Process) {
    && Mirrors(p.disk, p.pending, p.node) && RealTerm(p.node)
    && (p.disk.snapshot.Some? ==> p.disk.log.Some?)
  }

  /** Recovery reads back exactly what the disk holds; it fails only for a snapshot without a log file. */
  lemma RecoverHolds(cfg: Config, id: NodeId, timeout: nat, disk: Disk)
    requires DiskOk(disk)
    ensures var r := Recover(id, cfg.nodes, cfg.heartbeat, timeout, disk);
            && (r.None? <==> disk.snapshot.Some? && disk.log.None?)
            && (r.Some? ==> Holds(disk, r.value)
                            && r.value == RestoreWithSnapshot(id, cfg.nodes, cfg.heartbeat, timeout,
                                 DiskTerm(disk), DiskVote(disk), DiskLog(disk),
                                 DiskSnapIndex(disk), DiskSnapTerm(disk)))
  {
  }

  lemma DurableStep(cfg: Config, id: NodeId, p: Process, e: Event, p': Process)
    requires DurableInv(p) && Next(cfg, id, p, e, p') && AboveSnapshot(p, e)
    ensures DurableInv(p')
  {
    match e {
      case Feed(input) =>
        HandleMirrors(p.disk, p.node, input);
        HandleRole(p.node, input);
      case Exec =>
      case Restart(timeout) => RecoverHolds(cfg, id, timeout, p.disk);
    }
  }

  ghost predicate IsRun(cfg: Config, id: NodeId, run: seq<Process>, events: seq<Event>) {
    && |run| == |events| + 1
    && (exists timeout :: run[0] == Boot(cfg, id, timeout))
    && forall k :: 0 <= k < |events| ==>
                     Next(cfg, id, run[k], events[k], run[k + 1]) && AboveSnapshot(run[k], events[k])
  }

  lemma {:induction false} DurableRun(cfg: Config, id: NodeId, run: seq<Process>, events: seq<Event>, k: nat)
    requires IsRun(cfg, id, run, events) && k < |run|
    ensures DurableInv(run[k])
  {
    if k > 0 {
      DurableRun(cfg, id, run, events, k - 1);
      DurableStep(cfg, id, run[k - 1], events[k - 1], run[k]);
    }
  }

  /** Disk mirrors memory, at every point of every run with crashes between actions: the disk holds the
      node whenever all actions are done and whenever the next one reveals something to a peer, and a
      restart between handlers gives back the node's term, vote, log and snapshot. */
  lemma DiskMirrorsMemory(cfg: Config, id: NodeId, run: seq<Process>, events: seq<Event>, k: nat, timeout: nat)
    requires IsRun(cfg, id, run, events) && k < |run|
    ensures var p := run[k];
            && (p.pending == [] || Reveals(p.pending[0]) ==> Holds(p.disk, p.node))
            && (p.pending == [] ==>
                  Recover(id, cfg.nodes, cfg.heartbeat, timeout, p.disk)
                  == Some(RestoreWithSnapshot(id, cfg.nodes, cfg.heartbeat, timeout, p.node.currentTerm,
                            p.node.votedFor, p.node.log, p.node.snapIndex, p.node.snapTerm)))
  {
    DurableRun(cfg, id, run, events, k);
    RecoverHolds(cfg, id, timeout, run[k].disk);
  }

  /** Installing a snapshot stops the event loop exactly when no log file exists yet, and then the process
      can never recover: the snapshot was stored, the log file was not. */
  lemma InstallNeedsLogFile(cfg: Config, id: NodeId, timeout: nat, disk: Disk, a: Action)
    requires a.LoadSnapshot? && DiskOk(disk) && disk.meta.Some?
    ensures Execute(disk, a).alive <==> disk.log.Some?
    ensures Execute(disk, a).alive
            <==> Recover(id, cfg.nodes, cfg.heartbeat, timeout, Execute(disk, a).disk).Some?
  {
  }

  /** It happens: a process that has just booted and is sent any snapshot, as a leader with a compacted log does, is
      stuck two events later. */
  lemma FreshInstallStuck(cfg: Config, id: NodeId, m: Message, timeout: nat)
    returns (run: seq<Process>, events: seq<Event>)
    requires m.InstallSnapshot? && m.term > 0 && m.snapIndex > 0
    ensures IsRun(cfg, id, run, events) && |events| == 2 && events[0] == Feed(Delivery(m, timeout, []))
    ensures var p := run[2];
            && p.pending != [] && p.pending[0] == LoadSnapshot(m.snapIndex, m.snapTerm, m.data) && p.disk.log.None?
            && !Execute(p.disk, p.pending[0]).alive
            && Recover(id, cfg.nodes, cfg.heartbeat, timeout, Execute(p.disk, p.pending[0]).disk).None?
  {
    var p0 := Boot(cfg, id, timeout);
    var r := Handle(p0.node, Delivery(m, timeout, []));
    var load := LoadSnapshot(m.snapIndex, m.snapTerm, m.data);
    var answer := SendMessage(m.leader, InstallSnapshotResponse(id, m.term, m.snapIndex));
    assert r.actions == [PersistMetadata(m.term, None), load, answer];
    var p1 := Process(r.node, r.actions, p0.disk);
    var p2 := Process(r.node, [load, answer], Execute(p0.disk, r.actions[0]).disk);
    assert r.actions[1..] == [load, answer];
    run, events := [p0, p1, p2], [Feed(Delivery(m, timeout, [])), Exec];
    forall k | 0 <= k < |events|
      ensures Next(cfg, id, run[k], events[k], run[k + 1]) && AboveSnapshot(run[k], events[k])
    {
      assert k == 0 || k == 1;
    }
  }

  /** Storing the snapshot and emptying the log file are two writes. A crash between them restores the old log on top
      of the new snapshot: recovery gives what it gives after both if and only if the old log was empty. */
  lemma HalfInstalled(cfg: Config, id: NodeId, timeout: nat, disk: Disk, a: Action)
    requires a.LoadSnapshot? && disk.meta.Some? && disk.log.Some?
    ensures var half := disk.(snapshot := Some(Snapshot(a.snapIndex, a.snapTerm, a.data)));
            Recover(id, cfg.nodes, cfg.heartbeat, timeout, half)
            == Recover(id, cfg.nodes, cfg.heartbeat, timeout, Execute(disk, a).disk)
            <==> DiskLog(disk) == []
  {
    assert Entries([]) == [];
  }
}
