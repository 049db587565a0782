/** What a snapshot taken by the event loop itself covers, and what it leaves on disk. */
module LocalSnapshots {
  import opened RaftTypes
  import opened RaftNode
  import opened Storage
  import opened Compaction
  import opened Driver

  // ----- Data against index -----

  /** The commands of the entries that reach the application. */
  function Commands(entries: seq<LogEntry>): seq<Output> {
    if entries == [] then []
    else
      var last := entries[|entries| - 1].command;
      Commands(entries[..|entries| - 1]) + if last == [] then [] else [Command(last)]
  }

  lemma {:induction false} CommandsConcat(a: seq<LogEntry>, b: seq<LogEntry>)
    ensures Commands(a + b) == Commands(a) + Commands(b)
  {
    if b == [] {
      assert a + b == a;
    } else {
      assert (a + b)[..|a + b| - 1] == a + b[..|b| - 1];
      CommandsConcat(a, b[..|b| - 1]);
    }
  }

  lemma {:induction false} NoCommands(entries: seq<LogEntry>)
    ensures Commands(entries) == [] <==> forall k :: 0 <= k < |entries| ==> entries[k].command == []
  {
    if entries != [] {
      var rest := entries[..|entries| - 1];
      NoCommands(rest);
      assert forall k :: 0 <= k < |rest| ==> rest[k] == entries[k];
    }
  }

  lemma HandedMore(outputs: seq<Output>, x: Output)
    ensures Handed(outputs + [x]) == Handed(outputs) + if x.SnapshotRequest? then [] else [x]
  {
    assert (outputs + [x])[..|outputs|] == outputs;
  }

  /** Applying one command hands it over unless it is blank, whether or not a snapshot follows. */
  lemma ApplyHandsOver(s: Setup, d: Driver, index: nat, command: Bytes)
    requires RunAction(s, d, ApplyToStateMachine(index, command)).Some?
    ensures var d' := RunAction(s, d, ApplyToStateMachine(index, command)).value;
            && Handed(d'.outputs) == Handed(d.outputs) + (if command == [] then [] else [Command(command)])
            && d'.core.lastApplied == d.core.lastApplied
  {
    hide Handed;
    HandedMore(d.outputs, Command(command));
    HandedMore(d.outputs + [Command(command)], SnapshotRequest);
  }

  lemma {:induction false} BatchHandsOver(s: Setup, d: Driver, start: nat, entries: seq<LogEntry>)
    requires RunActions(s, d, Node.Applies(start, entries)).Some?
    ensures var d' := RunActions(s, d, Node.Applies(start, entries)).value;
            Handed(d'.outputs) == Handed(d.outputs) + Commands(entries) && d'.core.lastApplied == d.core.lastApplied
    decreases |entries|
  {
    hide RunAction, Handed;
    if entries != [] {
      var k := |entries| - 1;
      BatchSnoc(s, d, start, entries, k);
      assert entries[..k + 1] == entries;
      BatchHandsOver(s, d, start, entries[..k]);
      var d1 := RunActions(s, d, Node.Applies(start, entries[..k])).value;
      ApplyHandsOver(s, d1, start + k, entries[k].command);
    }
  }

  lemma BatchSnoc(s: Setup, d: Driver, start: nat, entries: seq<LogEntry>, k: nat)
    requires k < |entries|
    ensures RunActions(s, d, Node.Applies(start, entries[..k + 1]))
         == match RunActions(s, d, Node.Applies(start, entries[..k]))
            case None => None
            case Some(d1) => RunAction(s, d1, ApplyToStateMachine(start + k, entries[k].command))
  {
    hide RunAction, RunActions;
    var a := ApplyToStateMachine(start + k, entries[k].command);
    assert Node.Applies(start, entries[..k + 1]) == Node.Applies(start, entries[..k]) + [a];
    RunConcat(s, d, Node.Applies(start, entries[..k]), [a]);
    if RunActions(s, d, Node.Applies(start, entries[..k])).Some? {
      RunOne(s, RunActions(s, d, Node.Applies(start, entries[..k])).value, a);
    }
  }

  /** A batch that runs to its end has run every front part of it. */
  lemma {:induction false} BatchFront(s: Setup, d: Driver, start: nat, entries: seq<LogEntry>, k: nat)
    requires k <= |entries| && RunActions(s, d, Node.Applies(start, entries)).Some?
    ensures RunActions(s, d, Node.Applies(start, entries[..k])).Some?
    decreases |entries| - k
  {
    hide RunAction;
    if k == |entries| {
      assert entries[..k] == entries;
    } else {
      BatchFront(s, d, start, entries, k + 1);
      BatchSnoc(s, d, start, entries, k);
    }
  }

  /** The driver before and after command k of a batch. */
  function Upto(s: Setup, d: Driver, start: nat, entries: seq<LogEntry>, k: nat): Option<Driver>
    requires k <= |entries|
  {
    RunActions(s, d, Node.Applies(start, entries[..k]))
  }

  /** The core has moved its applied index over the whole batch before the first command of it is handed over, and a
      snapshot is stored under that index. So when command k of a batch crosses the threshold, the state stored is
      the one at the index stored, after the whole batch, if and only if every later command of it is blank. */
  lemma SnapshotCoversBatch(s: Setup, d: Driver, start: nat, entries: seq<LogEntry>, k: nat)
    requires d.core.lastApplied + 1 == start + |entries| && k < |entries|
    requires Upto(s, d, start, entries, |entries|).Some?
    ensures Upto(s, d, start, entries, k).Some? && Upto(s, d, start, entries, k + 1).Some?
    ensures var before, after := Upto(s, d, start, entries, k).value, Upto(s, d, start, entries, k + 1).value;
            var done := Upto(s, d, start, entries, |entries|).value;
            entries[k].command != [] && before.numEntries + 1 >= s.threshold ==>
              && after.disk.snapshot.Some? && after.disk.snapshot.value.index == start + |entries| - 1
              && after.disk.snapshot.value.data == s.stateAfter(Handed(after.outputs))
              && (Handed(after.outputs) == Handed(done.outputs)
                  <==> forall j :: k < j < |entries| ==> entries[j].command == [])
  {
    hide RunActions, Handed, Commands;
    var n := |entries|;
    assert entries[..n] == entries;
    BatchFront(s, d, start, entries, k);
    BatchFront(s, d, start, entries, k + 1);
    BatchSnoc(s, d, start, entries, k);
    BatchHandsOver(s, d, start, entries[..k]);
    BatchHandsOver(s, d, start, entries[..k + 1]);
    BatchHandsOver(s, d, start, entries);
    LaterBlank(d, entries, k);
    var before := Upto(s, d, start, entries, k).value;
    if entries[k].command != [] && before.numEntries + 1 >= s.threshold {
      StoresAtApplied(s, before, start + k, entries[k].command);
    }
  }

  lemma LaterBlank(d: Driver, entries: seq<LogEntry>, k: nat)
    requires k < |entries|
    ensures Handed(d.outputs) + Commands(entries[..k + 1]) == Handed(d.outputs) + Commands(entries)
            <==> forall j :: k < j < |entries| ==> entries[j].command == []
  {
    hide Handed, Commands;
    var a, b := entries[..k + 1], entries[k + 1..];
    assert a + b == entries;
    CommandsConcat(a, b);
    NoCommands(b);
    assert forall j :: 0 <= j < |b| ==> b[j] == entries[k + 1 + j];
    assert forall j :: k < j < |entries| ==> entries[j] == b[j - (k + 1)];
    if Commands(b) != [] {
      assert |Commands(a) + Commands(b)| > |Commands(a)|;
    }
  }

  /** A snapshot is stored under the core's applied index, with the state after what has been handed over. */
  lemma StoresAtApplied(s: Setup, d: Driver, index: nat, command: Bytes)
    requires command != [] && d.numEntries + 1 >= s.threshold
    requires RunAction(s, d, ApplyToStateMachine(index, command)).Some?
    ensures var d' := RunAction(s, d, ApplyToStateMachine(index, command)).value;
            && d'.disk.snapshot.Some? && d'.disk.snapshot.value.index == d.core.lastApplied
            && d'.disk.snapshot.value.data == s.stateAfter(Handed(d'.outputs))
            && d'.disk.log == Some([]) && d'.disk.meta == d.disk.meta && d'.numEntries == 0
  {
    hide Handed;
  }

  // ----- The log file -----

  /** The application of this command reaches the snapshot threshold. */
  ghost predicate Crosses(s: Setup, d: Driver, command: Bytes) {
    && command != [] && d.numEntries + 1 >= s.threshold && d.disk.log.Some?
    && d.core.snapIndex <= d.core.lastApplied <= d.core.LastLogIndex()
  }

  /** The core keeps its entries above the snapshot, but the log file is emptied: a restart right after it gives
      back the core's log if and only if nothing lies above the applied index. */
  lemma SnapshotLosesSuffix(s: Setup, d: Driver, index: nat, command: Bytes, nodes: seq<NodeId>,
                            heartbeat: Option<nat>, timeout: nat)
    requires Crosses(s, d, command) && d.disk.meta.Some?
    ensures RunAction(s, d, ApplyToStateMachine(index, command)).Some?
    ensures var d' := RunAction(s, d, ApplyToStateMachine(index, command)).value;
            var n := Recover(d.core.id, nodes, heartbeat, timeout, d'.disk);
            && d'.core.LastLogIndex() == d.core.LastLogIndex()
            && n.Some? && n.value.LastLogIndex() == d.core.lastApplied
            && (n.value.log == d'.core.log <==> d.core.lastApplied == d.core.LastLogIndex())
  {
    hide RunAction;
    KeepsSuffix(s, d, index, command);
    StoresAtApplied(s, d, index, command);
    assert Entries([]) == [];
  }

  lemma KeepsSuffix(s: Setup, d: Driver, index: nat, command: Bytes)
    requires Crosses(s, d, command)
    ensures var d' := RunAction(s, d, ApplyToStateMachine(index, command));
            && d'.Some? && d'.value.core.LastLogIndex() == d.core.LastLogIndex()
            && |d'.value.core.log| == d.core.LastLogIndex() - d.core.lastApplied
  {
    var n := d.core;
    HasTerm(n, n.lastApplied);
    CompletesAt(n, n.lastApplied, n.TermAt(n.lastApplied).value);
    hide Node.TermAt, Node.CompleteSnapshot, Execute;
  }

  lemma CompletesAt(n: Node, index: nat, term: nat)
    requires n.snapIndex <= index <= n.LastLogIndex()
    ensures var r := n.CompleteSnapshot(index, term);
            r.Some? && r.value.LastLogIndex() == n.LastLogIndex() && |r.value.log| == n.LastLogIndex() - index
  {
  }
}
