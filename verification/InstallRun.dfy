/** A run of one process that installs a snapshot over a log it has stored: a crash between the two writes of the
    installation restores the old log above the new snapshot. */
module InstallRun {
  import opened RaftTypes
  import opened RaftNode
  import opened Frames
  import opened Storage
  import opened Process
  import opened Guards
  import opened StaleRun
  import opened ShipRun

  /** The disk that holds the entries too. */
  function Stored(entries: seq<LogEntry>): Disk { KNOWS.(log := Some(Framed(1, entries))) }

  function Log(entries: seq<LogEntry>): Message { AppendEntries(1, 1, 0, 0, entries, 0) }

  function Events(entries: seq<LogEntry>, m: Message): seq<Event> {
    [Feed(Delivery(FIRST, 0, [])), Exec, Exec, Feed(Delivery(Log(entries), 0, [])), Exec, Exec,
     Feed(Delivery(m, 0, []))]
  }

  /** Turn down the first offer. */
  lemma Rejects() returns (p: seq<Process>)
    ensures |p| == 4 && p[0] == Boot(TRIO, 0, 0) && p[3] == Process(C1, [], KNOWS)
    ensures Next(TRIO, 0, p[0], Feed(Delivery(FIRST, 0, [])), p[1])
    ensures Next(TRIO, 0, p[1], Exec, p[2]) && Next(TRIO, 0, p[2], Exec, p[3])
    ensures p[0].node.snapIndex == 0
  {
    hide Handle;
    PeersOfTrio();
    LearnsTerm();
    var meta, send := PersistMetadata(1, None), SendMessage(1, STALE);
    assert [meta, send][1..] == [send] && [send][1..] == [];
    p := [Boot(TRIO, 0, 0), Process(C1, [meta, send], EMPTY_DISK), Process(C1, [send], KNOWS), Process(C1, [], KNOWS)];
  }

  /** Take and store the leader's log. */
  lemma Stores(entries: seq<LogEntry>) returns (p: seq<Process>)
    requires entries != []
    ensures |p| == 3 && p[2] == Process(C1.(log := entries), [], Stored(entries))
    ensures Next(TRIO, 0, Process(C1, [], KNOWS), Feed(Delivery(Log(entries), 0, [])), p[0])
    ensures Next(TRIO, 0, p[0], Exec, p[1]) && Next(TRIO, 0, p[1], Exec, p[2])
  {
    hide Node.OnAppendEntries;
    TakesLog(C1, Log(entries));
    var n := C1.(log := entries);
    var persist := PersistLogEntries(1, entries);
    var send := SendMessage(1, AppendEntriesResponse(0, 1, |entries|, true, None, None));
    assert [] + [persist, send] == [persist, send];
    assert [persist, send][1..] == [send] && [send][1..] == [];
    assert StoreFrames([], 1, entries) == Framed(1, entries);
    p := [Process(n, [persist, send], KNOWS), Process(n, [send], Stored(entries)), Process(n, [], Stored(entries))];
  }

  /** Receive a snapshot beyond it. */
  lemma Receives(entries: seq<LogEntry>, m: Message) returns (p: Process)
    requires m.InstallSnapshot? && m.term == 1 && m.snapIndex > |entries|
    ensures Next(TRIO, 0, Process(C1.(log := entries), [], Stored(entries)), Feed(Delivery(m, 0, [])), p)
    ensures p.disk == Stored(entries)
    ensures p.pending != [] && p.pending[0] == LoadSnapshot(m.snapIndex, m.snapTerm, m.data)
  {
    var n := C1.(log := entries);
    var r := Handle(n, Delivery(m, 0, []));
    assert n.TermAt(m.snapIndex) == None;
    p := Process(r.node, r.actions, Stored(entries));
  }

  lemma StoredLog(entries: seq<LogEntry>)
    ensures DiskLog(Stored(entries)) == entries
  {
  }

  /** It happens: for any log that a leader of term 1 sends and any snapshot beyond it, there is a run from boot that
      has stored the log and is about to install the snapshot. Recovery after only the first of the two writes differs
      from recovery after both. */
  lemma CrashBetweenWrites(entries: seq<LogEntry>, m: Message, timeout: nat)
    returns (run: seq<Process>, events: seq<Event>)
    requires entries != [] && m.InstallSnapshot? && m.term == 1 && m.snapIndex > |entries|
    ensures IsRun(TRIO, 0, run, events) && |run| == 8 && run[7].pending != []
    ensures var p := run[7]; var a := p.pending[0];
            && a == LoadSnapshot(m.snapIndex, m.snapTerm, m.data) && DiskLog(p.disk) == entries
            && Execute(p.disk, a).alive
            && Recover(0, TRIO.nodes, TRIO.heartbeat, timeout,
                       p.disk.(snapshot := Some(Snapshot(m.snapIndex, m.snapTerm, m.data))))
               != Recover(0, TRIO.nodes, TRIO.heartbeat, timeout, Execute(p.disk, a).disk)
  {
    hide Next, Recover, DiskLog;
    var p := Rejects();
    var q := Stores(entries);
    var last := Receives(entries, m);
    run, events := p + q + [last], Events(entries, m);
    StoredLog(entries);
    HalfInstalled(TRIO, 0, timeout, last.disk, last.pending[0]);
    assert run == [p[0], p[1], p[2], p[3], q[0], q[1], q[2], last];
    forall k | 0 <= k < |events|
      ensures Next(TRIO, 0, run[k], events[k], run[k + 1]) && AboveSnapshot(run[k], events[k])
    {
      assert k == 0 || k == 1 || k == 2 || k == 3 || k == 4 || k == 5 || k == 6;
    }
  }
}
