/** Two runs of a follower's driver in which it takes a snapshot itself: the data falls behind the index, and an
    acknowledged entry is lost to a restart. Each is two turns from the start, on messages of a reachable cluster: the
    follower turns down the offer behind the leader's blank entry, and then receives the leader's whole log. */
module SnapshotTurns {
  import opened RaftTypes
  import opened RaftNode
  import opened Frames
  import opened Logs
  import opened Storage
  import opened Durability
  import opened Process
  import opened Compaction
  import opened Cluster
  import opened Driver
  import opened LocalSnapshots
  import opened Guards
  import opened StaleRun
  import opened ShipRun

  const START: Driver := Driver(C0, map[], map[], 0, EMPTY_DISK, [], [], [], [])

  /** After the first turn: in term 1, with nothing in the log and nothing but the term on disk. */
  const TURNED: Driver := START.(core := C1, disk := KNOWS,
                                 sent := [SendMessage(1, STALE)])

  function Success(last: nat): Action {
    SendMessage(1, AppendEntriesResponse(0, 1, last, true, None, None))
  }

  lemma StartStarted()
    ensures Started(START)
  {
    PeersOfTrio();
    assert Recover(0, [0, 1, 2], None, 0, EMPTY_DISK) == Some(C0);
  }

  lemma TurnsDownFirst(s: Setup)
    ensures LoopStep(s, START, Received(FIRST, 0, [])) == Some(TURNED)
  {
    hide RunActions, RunAction;
    LearnsTerm();
    var e, meta, send := Received(FIRST, 0, []), PersistMetadata(1, None), SendMessage(1, STALE);
    var d := START.(core := C1);
    StoresMeta(s, d, send);
    RunTwo(s, d, meta, send);
    assert [] + [send] == [send];
  }

  lemma StoresMeta(s: Setup, d: Driver, send: Action)
    requires d.disk == EMPTY_DISK && send.SendMessage?
    ensures var d1 := d.(disk := KNOWS);
            && RunAction(s, d, PersistMetadata(1, None)) == Some(d1)
            && RunAction(s, d1, send) == Some(d1.(sent := d1.sent + [send]))
  {
  }

  /** What the follower then does with a whole log. */
  lemma WholeBatch(commands: seq<Bytes>, commit: nat)
    requires 0 < commit <= |commands| + 1
    ensures var r := Handle(C1, Delivery(WholeLog(commands, commit), 0, []));
            var entries := LogOf(commands);
            && r.Done? && r.node.role == Follower && r.node.log == entries && r.node.snapIndex == 0
            && r.node.lastApplied == commit && r.node.id == 0
            && r.actions == [PersistLogEntries(1, entries)] + Node.Applies(1, entries[..commit]) + [Success(|entries|)]
  {
    hide Node.OnAppendEntries, LogOf;
    var entries := LogOf(commands);
    TakesAll(C1, commands, commit, 0);
    var applies, persist := Node.Applies(1, entries[..commit]), [PersistLogEntries(1, entries)];
    assert [] + (persist + (applies + [Success(|entries|)])) == persist + applies + [Success(|entries|)];
  }

  lemma TakesAll(n: Node, commands: seq<Bytes>, commit: nat, timeout: nat)
    requires n.role == Follower && n.log == [] && n.snapIndex == 0 && n.commitIndex == 0 && n.currentTerm == 1
             && n.id == 0
    requires 0 < commit <= |commands| + 1
    ensures var r := n.OnAppendEntries(WholeLog(commands, commit), timeout);
            var entries := LogOf(commands);
            && r.Done? && r.node.role == Follower && r.node.log == entries && r.node.snapIndex == 0
            && r.node.lastApplied == commit && r.node.id == 0
            && r.actions
               == [PersistLogEntries(1, entries)] + (Node.Applies(1, entries[..commit]) + [Success(|entries|)])
  {
    hide Node.FinishAppend, Node.PersistSuffix, Node.OnAppendEntries, Node.FollowCommit, LogOf;
    var entries := LogOf(commands);
    var m := WholeLog(commands, commit);
    AcceptShape(n, m, timeout);
    SuffixShape(n, m, timeout);
    var g := Accepted(n, m, timeout);
    assert Agree([], 0, entries) == 0;
    assert g.log == entries && g.log[0..] == entries;
    CommitsFirst(g, commit);
    Finishes(g, m);
    FinishShape(g, m, g.PersistSuffix(m).value);
  }

  lemma CommitsFirst(g: Node, commit: nat)
    requires g.snapIndex == 0 && g.commitIndex == 0 && 0 < commit <= |g.log|
    ensures g.FollowCommit(commit)
         == Done(g.(commitIndex := commit, lastApplied := commit), Node.Applies(1, g.log[..commit]))
  {
    assert g.log[0..commit] == g.log[..commit];
  }

  lemma Finishes(g: Node, m: Message)
    requires m.AppendEntries? && g.PersistSuffix(m).Some? && g.FollowCommit(m.leaderCommit).Done?
    ensures g.FinishAppend(m).Done?
  {
    hide Node.PersistSuffix, Node.FollowCommit;
  }

  /** The driver when the batch starts: everything is persisted. */
  function Persisted(n: Node, entries: seq<LogEntry>): Driver {
    TURNED.(core := n, disk := Disk(Some(Metadata(1, None)), Some(Framed(1, entries)), None))
  }

  /** The second turn is its batch, between persisting and answering. */
  lemma SecondTurn(s: Setup, commands: seq<Bytes>, commit: nat) returns (n: Node)
    requires 0 < commit <= |commands| + 1
    ensures n.role == Follower && n.log == LogOf(commands) && n.snapIndex == 0 && n.lastApplied == commit && n.id == 0
    ensures var entries := LogOf(commands);
            var batch := RunActions(s, Persisted(n, entries), Node.Applies(1, entries[..commit]));
            batch.Some? ==> LoopStep(s, TURNED, Received(WholeLog(commands, commit), 0, []))
                            == Some(batch.value.(sent := batch.value.sent + [Success(|entries|)]))
  {
    hide RunActions, Handle, LogOf;
    WholeBatch(commands, commit);
    var entries := LogOf(commands);
    var e := Received(WholeLog(commands, commit), 0, []);
    var r := Handle(C1, InputOf(e));
    n := r.node;
    var d := TURNED.(core := n);
    assert Register(TURNED, e, n, r.actions) == d;
    var persist := PersistLogEntries(1, entries);
    var applies, answer := Node.Applies(1, entries[..commit]), Success(|entries|);
    RunConcat(s, d, [persist] + applies, [answer]);
    RunConcat(s, d, [persist], applies);
    RunOne(s, d, persist);
    StoresFirst(s, d, entries);
    var batch := RunActions(s, Persisted(n, entries), applies);
    if batch.Some? {
      RunOne(s, batch.value, answer);
      assert !C1.IsLeader();
    }
  }

  lemma StoresFirst(s: Setup, d: Driver, entries: seq<LogEntry>)
    requires d.disk == KNOWS
    ensures RunAction(s, d, PersistLogEntries(1, entries))
         == Some(d.(disk := Disk(Some(Metadata(1, None)), Some(Framed(1, entries)), None)))
  {
    assert StoreFrames([], 1, entries) == Framed(1, entries);
  }

  /** A run of the driver of node 0 on messages that a reachable cluster has sent it. */
  ghost predicate OnRealMessages(s: Setup, c: Cluster, states: seq<Driver>, events: seq<LoopEvent>) {
    && Reachable(TRIO, c) && DriverRun(s, states, events)
    && forall k :: 0 <= k < |events| ==> events[k].Received? && Packet(0, events[k].message) in c.net
  }

  lemma TwoTurns(s: Setup, c: Cluster, m: Message, d: Driver) returns (states: seq<Driver>, events: seq<LoopEvent>)
    requires Reachable(TRIO, c) && Packet(0, FIRST) in c.net && Packet(0, m) in c.net
    requires LoopStep(s, TURNED, Received(m, 0, [])) == Some(d)
    ensures OnRealMessages(s, c, states, events) && events == [Received(FIRST, 0, []), Received(m, 0, [])]
    ensures |states| == 3 && states[2] == d
  {
    hide LoopStep, Started, Reachable;
    StartStarted();
    TurnsDownFirst(s);
    states, events := [START, TURNED, d], [Received(FIRST, 0, []), Received(m, 0, [])];
  }

  // ----- Steps of a batch -----

  lemma BlankStep(s: Setup, d: Driver, index: nat)
    requires d.pendingProposals == map[]
    ensures RunAction(s, d, ApplyToStateMachine(index, [])) == Some(d)
  {
  }

  lemma PlainStep(s: Setup, d: Driver, index: nat, command: Bytes)
    requires d.pendingProposals == map[] && command != [] && d.numEntries + 1 < s.threshold
    ensures RunAction(s, d, ApplyToStateMachine(index, command))
         == Some(d.(outputs := d.outputs + [Command(command)], numEntries := d.numEntries + 1))
  {
  }

  lemma CrossingStep(s: Setup, d: Driver, index: nat, command: Bytes)
    requires d.pendingProposals == map[] && Crosses(s, d, command)
    ensures var d' := RunAction(s, d, ApplyToStateMachine(index, command));
            && d'.Some? && d'.value.core.LastLogIndex() == d.core.LastLogIndex() && d'.value.numEntries == 0
            && d'.value.pendingProposals == map[] && d'.value.disk.log == Some([])
            && d'.value.disk.meta == d.disk.meta && d'.value.disk.snapshot.Some?
            && d'.value.disk.snapshot.value.index == d.core.lastApplied
            && d'.value.outputs == d.outputs + [Command(command)] + [SnapshotRequest]
            && d'.value.disk.snapshot.value.data == s.stateAfter(Handed(d.outputs + [Command(command)]))
            && d'.value.sent == d.sent
  {
    hide Handed;
    HandedMore(d.outputs + [Command(command)], SnapshotRequest);
    assert Handed(d.outputs + [Command(command)]) + [] == Handed(d.outputs + [Command(command)]);
    CompletePanics(d.core, d.core.lastApplied, d.core.TermAt(d.core.lastApplied).value);
  }

  lemma RunTwo(s: Setup, d: Driver, a: Action, b: Action)
    requires RunAction(s, d, a).Some?
    ensures RunActions(s, d, [a, b]) == RunAction(s, RunAction(s, d, a).value, b)
  {
    RunOne(s, d, a);
    RunConcat(s, d, [a], [b]);
    RunOne(s, RunAction(s, d, a).value, b);
    assert [a] + [b] == [a, b];
  }

  // ----- A snapshot in the middle of a batch -----

  const THREE: seq<LogEntry> := [LogEntry(1, []), LogEntry(1, [1]), LogEntry(1, [2]), LogEntry(1, [3])]

  /** With a threshold of two and three commands in one batch, the snapshot is taken after the second, is stored
      under the index of the third, and holds the state without it; the turn ends so. A restart resumes above
      index 4, and the third command is missing from the restored state for good. */
  lemma DataBehindIndex(s: Setup) returns (c: Cluster, states: seq<Driver>, events: seq<LoopEvent>)
    requires s.threshold == 2
    ensures OnRealMessages(s, c, states, events) && |states| == 3
    ensures var d := states[2];
            && Handed(d.outputs) == [Command([1]), Command([2]), Command([3])]
            && d.disk.snapshot.Some? && d.disk.snapshot.value.index == 4
            && d.disk.snapshot.value.data == s.stateAfter([Command([1]), Command([2])])
            && forall timeout: nat :: Recover(0, [0, 1, 2], None, timeout, d.disk).Some?
                                      && Recover(0, [0, 1, 2], None, timeout, d.disk).value.lastApplied == 4
  {
    hide RunActions, RunAction, LoopStep, Handed, LogOf, Reachable, OnRealMessages;
    c := ShipsReachable([[1], [2], [3]], []);
    assert [[1], [2], [3]] + [] == [[1], [2], [3]];
    ThreeIs();
    var n := SecondTurn(s, [[1], [2], [3]], 4);
    assert THREE[..4] == THREE;
    var d1 := FirstHalf(s, Persisted(n, THREE));
    var d2 := SecondHalf(s, d1);
    ThreeApplies();
    RunConcat(s, Persisted(n, THREE), Node.Applies(1, THREE[..2]), Node.Applies(3, THREE[2..]));
    var d := d2.(sent := d2.sent + [Success(4)]);
    states, events := TwoTurns(s, c, WholeLog([[1], [2], [3]], 4), d);
    assert Entries([]) == [];
  }

  lemma ThreeIs()
    ensures LogOf([[1], [2], [3]]) == THREE && LogOf([[1], [2]]) == TWO
  {
  }

  lemma ThreeApplies()
    ensures Node.Applies(1, THREE) == Node.Applies(1, THREE[..2]) + Node.Applies(3, THREE[2..])
    ensures Node.Applies(1, THREE[..2]) == [ApplyToStateMachine(1, []), ApplyToStateMachine(2, [1])]
    ensures Node.Applies(3, THREE[2..]) == [ApplyToStateMachine(3, [2]), ApplyToStateMachine(4, [3])]
  {
  }

  /** The blank entry and the first command. */
  lemma FirstHalf(s: Setup, p: Driver) returns (d: Driver)
    requires s.threshold == 2 && p.numEntries == 0 && p.pendingProposals == map[] && p.outputs == []
    ensures RunActions(s, p, Node.Applies(1, THREE[..2])) == Some(d)
    ensures d == p.(outputs := [Command([1])], numEntries := 1)
  {
    hide RunActions, RunAction;
    ThreeApplies();
    BlankStep(s, p, 1);
    PlainStep(s, p, 2, [1]);
    assert p.outputs + [Command([1])] == [Command([1])];
    RunTwo(s, p, ApplyToStateMachine(1, []), ApplyToStateMachine(2, [1]));
    d := p.(outputs := [Command([1])], numEntries := 1);
  }

  /** The second command, the snapshot, the third command. */
  lemma SecondHalf(s: Setup, d: Driver) returns (d': Driver)
    requires s.threshold == 2 && d.numEntries == 1 && d.pendingProposals == map[] && d.outputs == [Command([1])]
    requires Crosses(s, d, [2]) && d.core.lastApplied == 4
    ensures RunActions(s, d, Node.Applies(3, THREE[2..])) == Some(d')
    ensures Handed(d'.outputs) == [Command([1]), Command([2]), Command([3])]
    ensures d'.disk.log == Some([]) && d'.disk.meta == d.disk.meta && d'.disk.snapshot.Some?
    ensures d'.disk.snapshot.value.index == 4
    ensures d'.disk.snapshot.value.data == s.stateAfter([Command([1]), Command([2])])
  {
    hide RunActions, RunAction, Handed, Crosses, Node.LastLogIndex;
    ThreeApplies();
    var c1, c2, c3 := Command([1]), Command([2]), Command([3]);
    var a2, a3 := ApplyToStateMachine(3, [2]), ApplyToStateMachine(4, [3]);
    CrossingStep(s, d, 3, [2]);
    var d2 := RunAction(s, d, a2).value;
    PlainStep(s, d2, 4, [3]);
    RunTwo(s, d, a2, a3);
    d' := d2.(outputs := d2.outputs + [c3], numEntries := 1);
    HandedTwo(c1, c2, c3);
    assert [c1] + [c2] == [c1, c2];
    assert d'.outputs == [c1, c2, SnapshotRequest, c3];
  }

  lemma HandedTwo(c1: Output, c2: Output, c3: Output)
    requires c1.Command? && c2.Command? && c3.Command?
    ensures Handed([c1, c2]) == [c1, c2] && Handed([c1, c2, SnapshotRequest, c3]) == [c1, c2, c3]
  {
    assert [] + [c1] == [c1] && [c1] + [c2] == [c1, c2];
    HandedMore([], c1);
    HandedMore([c1], c2);
    HandedMore([c1, c2], SnapshotRequest);
    HandedMore([c1, c2, SnapshotRequest], c3);
    assert [c1, c2] + [SnapshotRequest] == [c1, c2, SnapshotRequest];
    assert [c1, c2, SnapshotRequest] + [c3] == [c1, c2, SnapshotRequest, c3];
  }

  // ----- An acknowledged entry lost -----

  const TWO: seq<LogEntry> := [LogEntry(1, []), LogEntry(1, [1]), LogEntry(1, [2])]

  /** With a threshold of one and a leader that has committed only up to index 2, the follower acknowledges index 3,
      keeps entry 3 in memory and not on disk: after a restart its log ends at 2. */
  lemma AcknowledgedEntryLost(s: Setup) returns (c: Cluster, states: seq<Driver>, events: seq<LoopEvent>)
    requires s.threshold == 1
    ensures OnRealMessages(s, c, states, events) && |states| == 3
    ensures var d := states[2];
            && Success(3) in d.sent && d.core.LastLogIndex() == 3
            && forall timeout: nat :: Recover(0, [0, 1, 2], None, timeout, d.disk).Some?
                                      && Recover(0, [0, 1, 2], None, timeout, d.disk).value.LastLogIndex() == 2
  {
    hide RunActions, RunAction, LoopStep, Handed, LogOf, Reachable, OnRealMessages;
    c := ShipsReachable([[1]], [[2]]);
    assert [[1]] + [[2]] == [[1], [2]];
    ThreeIs();
    var n := SecondTurn(s, [[1], [2]], 2);
    var p := Persisted(n, TWO);
    var a0, a1 := ApplyToStateMachine(1, []), ApplyToStateMachine(2, [1]);
    assert Node.Applies(1, TWO[..2]) == [a0, a1];
    BlankStep(s, p, 1);
    CrossingStep(s, p, 2, [1]);
    RunTwo(s, p, a0, a1);
    var d1 := RunAction(s, p, a1).value;
    var d := d1.(sent := d1.sent + [Success(3)]);
    assert d.sent[|d1.sent|] == Success(3);
    states, events := TwoTurns(s, c, WholeLog([[1], [2]], 2), d);
    assert Entries([]) == [];
  }
}
