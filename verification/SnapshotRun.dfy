/** A run of three nodes under both guards in which one of them takes a snapshot itself and then restarts: an entry it
    has acknowledged, and that is committed on its word, is gone, and the next leader commits another at its index. */
module SnapshotRun {
  import opened RaftTypes
  import opened RaftNode
  import opened Logs
  import opened Storage
  import opened Durability
  import opened Process
  import opened Cluster
  import opened Guards
  import opened StaleRun
  import opened ShipRun
  import opened SnapshotTurns

  // ----- Snapshots as steps of the cluster -----

  /** Handing a command to the application and taking a snapshot right after it. */
  ghost predicate SnapNext(p: Process, data: Bytes, p': Process) {
    && p.pending != [] && p.pending[0].ApplyToStateMachine? && p.pending[0].command != [] && p.disk.log.Some?
    && var metadata := p.node.PrepareSnapshot();
       && metadata.Some?
       && var (index, term) := metadata.value; var n := p.node.CompleteSnapshot(index, term);
          && n.Some?
          && p' == Process(n.value, p.pending[1..], Disk(p.disk.meta, Some([]), Some(Snapshot(index, term, data))))
  }

  ghost predicate SnapStep(c: Cluster, i: NodeId, data: Bytes, c': Cluster) {
    && i in c.procs && i in c'.procs && SnapNext(c.procs[i], data, c'.procs[i])
    && c' == Cluster(c.procs[i := c'.procs[i]], c.net)
  }

  lemma LeadsStep(o: Cluster, c: Cluster, e: ClusterEvent, c': Cluster)
    requires Leads(TRIO, true, o, c) && PathStep(TRIO, true, c, e, c')
    ensures Leads(TRIO, true, o, c')
  {
    hide Leads, PathStep;
    LeadsNowhere(TRIO, true, c');
    LeadsOn(TRIO, true, c, e, c', c');
    LeadsFurther(TRIO, true, o, c, c');
  }

  // ----- Node 0 takes the log, a snapshot, and restarts -----

  const ONE: seq<Bytes> := [[1]]
  const BOTH: seq<Bytes> := [[1], [2]]

  /** The disk with the snapshot up to index 2 and no entries. */
  function Snapped(data: Bytes): Disk { Disk(Some(Metadata(1, None)), Some([]), Some(Snapshot(2, 1, data))) }

  // What recovery makes of it, and its way to leading term 2.
  const R0: Node := C0.(currentTerm := 1, snapIndex := 2, snapTerm := 1, commitIndex := 2, lastApplied := 2)
  const R1: Node := R0.(role := Candidate, currentTerm := 2, votedFor := Some(0), votesReceived := {0})
  const R2: Node := R1.(role := Leader, currentLeader := Some(0), votesReceived := {0, 2}, log := [NoOp(2)],
                        nextIndex := map[1 := 4, 2 := 4], matchIndex := map[1 := 0, 2 := 0])
  const R3: Node := R2.(nextIndex := map[1 := 4, 2 := 3])
  const R4: Node := R3.(nextIndex := map[1 := 4, 2 := 4], matchIndex := map[1 := 0, 2 := 3], successCount := 1,
                        commitIndex := 3, lastApplied := 3)

  // Node 1 has committed index 3 on node 0's word.
  const L0: Node := Answering(ONE, [[2]])
  const L1: Node := L0.(nextIndex := map[0 := 4, 2 := 3], matchIndex := map[0 := 3, 2 := 2], successCount := 2,
                        commitIndex := 3, lastApplied := 3)

  // Node 2 holds the first two entries and votes for node 0.
  const G0: Node := Caught(ONE)
  const G1: Node := G0.(currentTerm := 2, votedFor := Some(0), currentLeader := None)
  const G2: Node := G1.(currentLeader := Some(0))

  const WORD: Message := AppendEntriesResponse(0, 1, 3, true, None, None)
  const ASKS: Message := RequestVote(2, 0, 2, 1)
  const OFFER: Message := AppendEntries(2, 0, 3, 2, [], 2)
  const SHORT: Message := AppendEntriesResponse(2, 2, 2, false, Some(3), None)
  const REST: Message := AppendEntries(2, 0, 2, 1, [NoOp(2)], 2)
  const MATCHED: Message := AppendEntriesResponse(2, 2, 3, true, None, None)

  lemma LogsAre()
    ensures LogOf(ONE) == [NoOp(1), LogEntry(1, [1])]
    ensures LogOf(BOTH) == [NoOp(1), LogEntry(1, [1]), LogEntry(1, [2])]
    ensures ONE + [[2]] == BOTH
  {
  }

  /** Node 0 while it runs the actions of the whole log: before the snapshot and after. */
  lemma Applying(data: Bytes) returns (p: seq<Process>)
    ensures |p| == 5
    ensures Next(TRIO, 0, Process(C1, [], KNOWS), Feed(Delivery(WholeLog(BOTH, 2), 0, [])), p[0])
    ensures Next(TRIO, 0, p[0], Exec, p[1]) && Next(TRIO, 0, p[1], Exec, p[2]) && SnapNext(p[2], data, p[3])
    ensures p[0].pending != [] && p[0].pending[0].PersistLogEntries?
    ensures p[1].pending != [] && p[1].pending[0].ApplyToStateMachine?
    ensures p[3].pending == [SendMessage(1, WORD)] && p[3].disk == Snapped(data)
    ensures p[4] == Process(p[3].node, [], Snapped(data)) && Next(TRIO, 0, p[3], Exec, p[4])
  {
    hide Handle, LogOf;
    LogsAre();
    WholeBatch(BOTH, 2);
    var log := LogOf(BOTH);
    var n := Handle(C1, Delivery(WholeLog(BOTH, 2), 0, [])).node;
    var persist, a1, a2 := PersistLogEntries(1, log), ApplyToStateMachine(1, []), ApplyToStateMachine(2, [1]);
    var send := SendMessage(1, WORD);
    assert Node.Applies(1, log[..2]) == [a1, a2];
    assert [persist] + [a1, a2] + [send] == [persist, a1, a2, send];
    assert [persist, a1, a2, send][1..] == [a1, a2, send] && [a1, a2, send][1..] == [a2, send];
    assert [a2, send][1..] == [send] && [send][1..] == [];
    var d := KNOWS.(log := Some(StoreFrames([], 1, log)));
    var n' := SnapsAt(n);
    p := [Process(n, [persist, a1, a2, send], KNOWS), Process(n, [a1, a2, send], d), Process(n, [a2, send], d),
          Process(n', [send], Snapped(data)), Process(n', [], Snapped(data))];
  }

  lemma SnapsAt(n: Node) returns (n': Node)
    requires n.log == [NoOp(1), LogEntry(1, [1]), LogEntry(1, [2])] && n.snapIndex == 0 && n.lastApplied == 2
    ensures n.PrepareSnapshot() == Some((2, 1)) && n.CompleteSnapshot(2, 1) == Some(n')
  {
    n' := n.CompleteSnapshot(2, 1).value;
  }

  lemma RecoversShort(data: Bytes)
    ensures Recover(0, TRIO.nodes, TRIO.heartbeat, 0, Snapped(data)) == Some(R0)
  {
    PeersOfTrio();
    assert Entries([]) == [];
  }

  /** The cluster with node 0 replaced. */
  function Set0(c: Cluster, p: Process, more: set<Packet>): Cluster { Cluster(c.procs[0 := p], c.net + more) }

  lemma Guarded0(c: Cluster, p: Process, e: Event, p': Process, more: set<Packet>)
    requires 0 in c.procs && c.procs[0] == p && Next(TRIO, 0, p, e, p') && more == Sent(0, p, e)
    requires e.Feed? ==> e.input.Delivery? && e.input.message.AppendEntries? && Packet(0, e.input.message) in c.net
    ensures PathStep(TRIO, true, c, At(0, e), Set0(c, p', more))
  {
    hide Next;
  }

  /** Up to the snapshot. */
  lemma Before(data: Bytes) returns (o: Cluster, c: Cluster, c': Cluster, p: seq<Process>)
    ensures |p| == 5 && Scene(o, c, C1, L0, G0, KNOWS)
    ensures Initial(TRIO, o) && Leads(TRIO, true, o, c') && SnapStep(c', 0, data, Set0(c, p[3], {}))
    ensures p[3].pending == [SendMessage(1, WORD)] && p[3].disk == Snapped(data)
    ensures p[4] == Process(p[3].node, [], Snapped(data)) && Next(TRIO, 0, p[3], Exec, p[4])
  {
    hide Leads, Initial, Next, SnapNext, PathStep, LogOf;
    LogsAre();
    o, c := Ships(ONE, [[2]]);
    p := Applying(data);
    var c1, c2 := Set0(c, p[0], {}), Set0(c, p[1], {});
    c' := Set0(c, p[2], {});
    assert c.procs[0] == Process(C1, [], KNOWS);
    Guarded0(c, c.procs[0], Feed(Delivery(WholeLog(BOTH, 2), 0, [])), p[0], {});
    LeadsStep(o, c, At(0, Feed(Delivery(WholeLog(BOTH, 2), 0, []))), c1);
    Guarded0(c1, p[0], Exec, p[1], {});
    assert Set0(c1, p[1], {}) == c2;
    LeadsStep(o, c1, At(0, Exec), c2);
    Guarded0(c2, p[1], Exec, p[2], {});
    assert Set0(c2, p[2], {}) == c';
    LeadsStep(o, c2, At(0, Exec), c');
    assert Cluster(c'.procs[0 := p[3]], c'.net) == Set0(c, p[3], {});
  }

  /** After it: node 0 gives its word, and restarts. */
  lemma After(data: Bytes) returns (o: Cluster, c: Cluster, s: Cluster, c': Cluster)
    ensures Initial(TRIO, o) && Leads(TRIO, true, o, c) && SnapStep(c, 0, data, s)
    ensures Scene(s, c', R0, L0, G0, Snapped(data)) && Packet(1, WORD) in c'.net
  {
    hide Leads, Initial, Next, SnapStep, LogOf, Snapped;
    var c0, p;
    o, c0, c, p := Before(data);
    s := Set0(c0, p[3], {});
    c' := WordAndRestart(c0, s, p[3], p[4], data);
  }

  lemma WordAndRestart(c0: Cluster, s: Cluster, p: Process, q: Process, data: Bytes) returns (c': Cluster)
    requires Idle(c0) && s == Set0(c0, p, {}) && Next(TRIO, 0, p, Exec, q)
    requires p.pending == [SendMessage(1, WORD)] && q == Process(p.node, [], Snapped(data))
    ensures Leads(TRIO, true, s, c') && Idle(c') && Packet(1, WORD) in c'.net
    ensures c'.procs == c0.procs[0 := Process(R0, [], Snapped(data))]
  {
    hide Leads, Next, PathStep, Snapped, Recover;
    LeadsNowhere(TRIO, true, s);
    var x := Packet(1, WORD);
    var c1 := Set0(c0, q, {x});
    Guarded0(s, p, Exec, q, {x});
    assert Set0(s, q, {x}) == c1;
    LeadsStep(s, s, At(0, Exec), c1);
    RecoversShort(data);
    var p' := Process(R0, [], Snapped(data));
    c' := Set0(c0, p', {x});
    Restarts(q, p');
    Guarded0(c1, q, Restart(0), p', {});
    assert Set0(c1, p', {}) == c';
    LeadsStep(s, c1, At(0, Restart(0)), c');
  }

  lemma Restarts(p: Process, p': Process)
    requires Recover(0, TRIO.nodes, TRIO.heartbeat, 0, p.disk) == Some(p'.node) && p'.pending == [] && p'.disk == p.disk
    ensures Next(TRIO, 0, p, Restart(0), p')
  {
  }

  // ----- Single calls after the restart -----

  /** On node 0's word index 3 is committed. */
  lemma CommitsOnWord()
    ensures var r := Handle(L0, Delivery(WORD, 0, [])); r.Done? && r.node == L1 && Plain(r.actions)
  {
    hide Node.ReplicatedIndex, Node.CommitScan, Node.CommitTo, Node.ReadyBarriers, LogOf;
    var n := L0.NoteReplicated(WORD);
    WordNoted(n);
    Counts(n, 2, 2, 0, 3);
    ScansOne(n);
    NoneReady(n);
    MovesTo(n, 3);
  }

  lemma WordNoted(n: Node)
    requires n == L0.NoteReplicated(WORD)
    ensures n.matchIndex == map[2 := 2, 0 := 3] && n.nextIndex == L1.nextIndex && n.LastLogIndex() == 3
    ensures n.TermAt(3) == Some(1)
  {
    LogsAre();
  }

  /** One more entry of the current term. */
  lemma ScansOne(n: Node)
    requires n.LastLogIndex() == 3 && n.TermAt(3) == Some(n.currentTerm)
    ensures n.CommitScan(3, 3, 2) == Some(3)
  {
    assert n.CommitScan(4, 3, 3) == Some(3);
  }

  lemma AsksWith()
    ensures R0.LastLogIndex() == 2 && R0.LastLogTerm() == 1 && G0.CandidateUpToDate(ASKS)
  {
    LogsAre();
  }

  lemma CrownedAbove()
    ensures Moves(R1, Delivery(RequestVoteResponse(2, 2, true), 0, []), R2, Packet(2, OFFER))
  {
    hide Moves, SetAll;
    Win(R1, 2, 2);
    SetTwo(R1.nextIndex, 1, 2, 4);
    SetTwo(R1.matchIndex, 1, 2, 0);
    assert [] + [NoOp(2)] == [NoOp(2)];
  }

  /** Node 0 goes back to the end of its snapshot. */
  lemma GoesBack()
    ensures Moves(R2, Delivery(SHORT, 0, []), R3, Packet(2, REST))
  {
    assert R2.nextIndex[2 := 3] == R3.nextIndex;
    assert R3.log[0..1] == R3.log;
    assert R3.BuildAppendEntries(2) == SendMessage(2, REST);
    var r := Handle(R2, Delivery(SHORT, 0, []));
    assert r == Done(R3, [] + [R3.BuildAppendEntries(2)]);
    IsSent(r.actions, 0);
  }

  /** Node 2 takes the entry of term 2 at index 3. */
  lemma TakesRest() returns (n: Node)
    ensures Moves(G2, Delivery(REST, 0, []), n, Packet(0, MATCHED))
  {
    hide Node.OnAppendEntries, LogOf, SentBy;
    var actions := RestActions();
    var r := Handle(G2, Delivery(REST, 0, []));
    n := r.node;
    assert [] + actions == actions;
    IsSent(actions, |actions| - 1);
  }

  lemma RestActions() returns (actions: seq<Action>)
    ensures var r := G2.OnAppendEntries(REST, 0);
            r.Done? && r.actions == actions && Plain(actions) && actions != []
            && actions[|actions| - 1] == SendMessage(0, MATCHED)
  {
    hide Node.OnAppendEntries, Node.FinishAppend, Node.PersistSuffix, Node.FollowCommit, LogOf;
    LogsAre();
    AcceptShape(G2, REST, 0);
    SuffixShape(G2, REST, 0);
    var g := Accepted(G2, REST, 0);
    assert Agree(G2.log, 2, REST.entries) == 0;
    assert g.log == [NoOp(1), LogEntry(1, [1]), NoOp(2)];
    TakesTwo(g);
    Finishes(g, REST);
    FinishShape(g, REST, g.PersistSuffix(REST).value);
    actions := g.FinishAppend(REST).actions;
  }

  lemma TakesTwo(g: Node)
    requires g.snapIndex == 0 && |g.log| == 3 && g.commitIndex == 0
    ensures g.FollowCommit(2).Done?
  {
  }

  lemma CommitsOther()
    ensures var r := Handle(R3, Delivery(MATCHED, 0, [])); r.Done? && r.node == R4 && Plain(r.actions)
  {
    hide Node.ReplicatedIndex, Node.CommitScan, Node.CommitTo, Node.ReadyBarriers;
    var n := R3.NoteReplicated(MATCHED);
    Counts(n, 1, 0, 2, 3);
    ScansOne(n);
    NoneReady(n);
    MovesTo(n, 3);
  }

  // ----- The run -----

  /** The word arrives, and node 0 wins term 2 with node 2's vote. */
  lemma NextTerm(s: Cluster, c: Cluster, d: Disk) returns (c': Cluster, d': Disk)
    requires Scene(s, c, R0, L0, G0, d) && Packet(1, WORD) in c.net
    ensures Scene(s, c', R2, L1, G1, d') && Packet(2, OFFER) in c'.net
  {
    hide Handle, Leads, Moves, Plain, SentBy, DiskAfter, LogOf;
    CommitsOnWord();
    c' := Play(s, c, 1, Delivery(WORD, 0, []), L1);
    AsksWith();
    Stand(R0, 2);
    c' := Cast(s, c', 0, Timer(0), R1, Packet(2, ASKS));
    Grant(G0, ASKS);
    c' := Cast(s, c', 2, Delivery(ASKS, 0, []), G1, Packet(0, RequestVoteResponse(2, 2, true)));
    CrownedAbove();
    c' := Cast(s, c', 0, Delivery(RequestVoteResponse(2, 2, true), 0, []), R2, Packet(2, OFFER));
    d' := c'.procs[0].disk;
  }

  lemma Overturns(s: Cluster, c: Cluster, d: Disk) returns (c': Cluster)
    requires Scene(s, c, R2, L1, G1, d) && Packet(2, OFFER) in c.net
    ensures Leads(TRIO, true, s, c') && Idle(c') && c'.procs[0].node == R4 && c'.procs[1].node == L1
  {
    hide Handle, Leads, Moves, Plain, SentBy, DiskAfter, LogOf;
    ShortLog();
    TurnsDown(G1, OFFER);
    c' := Cast(s, c, 2, Delivery(OFFER, 0, []), G2, Packet(0, SHORT));
    GoesBack();
    c' := Cast(s, c', 0, Delivery(SHORT, 0, []), R3, Packet(2, REST));
    var n := TakesRest();
    c' := Cast(s, c', 2, Delivery(REST, 0, []), n, Packet(0, MATCHED));
    CommitsOther();
    c' := Play(s, c', 0, Delivery(MATCHED, 0, []), R4);
  }

  lemma ShortLog()
    ensures G1.LastLogIndex() == 2
  {
    LogsAre();
  }

  /** With snapshots that the driver takes itself, state machine safety fails although both guards hold. From the
      initial state o guarded steps lead to c, where node 0 hands over a command and takes a snapshot; from there, s,
      guarded steps lead to a state in which two nodes have applied different commands at index 3. */
  lemma SnapshotsDiverge(data: Bytes) returns (o: Cluster, c: Cluster, s: Cluster, c': Cluster)
    ensures Initial(TRIO, o) && Leads(TRIO, true, o, c) && SnapStep(c, 0, data, s) && Leads(TRIO, true, s, c')
    ensures 0 in c'.procs && 1 in c'.procs
    ensures var a, b := c'.procs[0].node, c'.procs[1].node;
            && a.lastApplied == 3 && b.lastApplied == 3
            && a.EntryAt(3) == Some(NoOp(2)) && b.EntryAt(3) == Some(LogEntry(1, [2]))
  {
    hide Leads, Initial, SnapStep, LogOf;
    var c1, d;
    o, c, s, c1 := After(data);
    c', d := NextTerm(s, c1, Snapped(data));
    c' := Overturns(s, c', d);
    LogsAre();
  }
}
