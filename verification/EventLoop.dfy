/** The event loop as the object that owns the core: its methods change the pending maps, the counters, the disk
    and the core action by action; each is proved against the functions of `Driver`. */
module EventLoop {
  import opened RaftTypes
  import opened RaftNode
  import opened Storage
  import opened OrderStatistics
  import opened Core
  import opened Driver

  /** The loop goes on in the state given, or has stopped. */
  ghost predicate Becomes(expected: Option<Driver>, d: Driver, alive: bool) {
    match expected
    case None => !alive
    case Some(d') => alive && d == d'
  }

  class RaftDriver {
    const core: RaftCore
    const setup: Setup
    var pendingProposals: map<nat, Token>
    var pendingReads: map<nat, Token>
    var numEntries: nat
    var disk: Disk
    var answers: seq<Answer>
    var readAnswers: seq<Answer>
    var outputs: seq<Output>
    var sent: seq<Action>

    function View(): Driver
      reads this, core
    {
      Driver(core.Model(), pendingProposals, pendingReads, numEntries, disk, answers, readAnswers, outputs, sent)
    }

    constructor (core: RaftCore, setup: Setup, disk: Disk)
      ensures this.core == core && this.setup == setup
      ensures View() == Driver(core.Model(), map[], map[], 0, disk, [], [], [], [])
    {
      this.core, this.setup, this.disk := core, setup, disk;
      pendingProposals, pendingReads, numEntries := map[], map[], 0;
      answers, readAnswers, outputs, sent := [], [], [], [];
    }

    // ----- handle_action -----

    method AnswerPending(index: nat, command: Bytes)
      modifies this
      ensures View() == AnswerProposal(old(View()), index, command)
    {
      if index !in pendingProposals { return; }
      answers := answers + [Answer(pendingProposals[index], Applied(index, command))];
      pendingProposals := pendingProposals - {index};
    }

    method ReleaseRead(id: nat)
      modifies this
      ensures View() == AnswerRead(old(View()), id)
    {
      if id !in pendingReads { return; }
      readAnswers := readAnswers + [Answer(pendingReads[id], Released(id))];
      pendingReads := pendingReads - {id};
    }

    method DeliverCommand(command: Bytes) returns (alive: bool)
      modifies this, core
      ensures Becomes(Deliver(setup, old(View()), command), View(), alive)
    {
      if command == [] { return true; }
      outputs := outputs + [Command(command)];
      numEntries := numEntries + 1;
      if numEntries < setup.threshold { return true; }
      alive := SnapshotNow();
    }

    method SnapshotNow() returns (alive: bool)
      modifies this, core
      ensures Becomes(TakeSnapshot(setup, old(View())), View(), alive)
    {
      outputs := outputs + [SnapshotRequest];
      var metadata := core.Model().PrepareSnapshot();
      if metadata.None? { return false; }
      var stored := Some(Snapshot(metadata.value.0, metadata.value.1, setup.stateAfter(Handed(outputs))));
      var ok := core.CompleteSnapshot(metadata.value.0, metadata.value.1);
      if !ok || disk.log.None? { return false; }
      disk := disk.(snapshot := stored, log := Some([]));
      numEntries := 0;
      return true;
    }

    method HandleAction(a: Action) returns (alive: bool)
      modifies this, core
      ensures Becomes(RunAction(setup, old(View()), a), View(), alive)
    {
      match a {
        case ApplyToStateMachine(index, command) =>
          AnswerPending(index, command);
          alive := DeliverCommand(command);
        case ReadBarrierReady(id) =>
          ReleaseRead(id);
          alive := true;
        case _ =>
          alive := Persist(a);
      }
    }

    /** Sending and storing. */
    method Persist(a: Action) returns (alive: bool)
      requires !a.ApplyToStateMachine? && !a.ReadBarrierReady?
      modifies this
      ensures Becomes(RunAction(setup, old(View()), a), View(), alive)
    {
      var x := Execute(disk, a);
      if !x.alive { return false; }
      disk := x.disk;
      match a {
        case SendMessage(_, _) => sent := sent + [a];
        case SendInstallSnapshot(target, t, index, term) =>
          sent := sent + [SendMessage(target, InstallSnapshot(t, core.id, index, term, disk.snapshot.value.data))];
        case LoadSnapshot(_, _, data) => outputs := outputs + [LoadState(data)];
        case _ =>
      }
      return true;
    }

    /** The core's actions, in order. */
    method HandleActions(actions: seq<Action>) returns (alive: bool)
      modifies this, core
      ensures Becomes(RunActions(setup, old(View()), actions), View(), alive)
    {
      assert actions[0..] == actions;
      for k := 0 to |actions|
        invariant RunActions(setup, View(), actions[k..]) == RunActions(setup, old(View()), actions)
      {
        assert actions[k..][1..] == actions[k + 1..];
        alive := HandleAction(actions[k]);
        if !alive { return; }
      }
      return true;
    }

    // ----- The arms of the loop -----

    method OnTick(timeout: nat) returns (alive: bool)
      modifies this, core
      ensures Becomes(LoopStep(setup, old(View()), TimerFired(timeout)), View(), alive)
    {
      hide Node.Tick, RunActions;
      var actions := core.Tick(timeout);
      alive := HandleActions(actions);
    }

    method OnProposal(token: Token, command: Bytes) returns (alive: bool)
      modifies this, core
      ensures Becomes(LoopStep(setup, old(View()), Proposed(token, command)), View(), alive)
    {
      hide RunActions;
      var accepted, actions := core.Propose(command);
      if !accepted {
        answers := answers + [Answer(token, FollowerNode(core.currentLeader))];
        Nothing(setup, View());
        return true;
      }
      var index := FindPersist(actions);
      if index.Some? { pendingProposals := pendingProposals[index.value := token]; }
      hide Node.Propose;
      alive := HandleActions(actions);
    }

    method OnRead(token: Token)
      modifies this, core
      ensures LoopStep(setup, old(View()), ReadAsked(token)) == Some(View())
    {
      hide RunActions;
      var id := core.RequestReadBarrier();
      if id.Some? {
        pendingReads := pendingReads[id.value := token];
      } else {
        readAnswers := readAnswers + [Answer(token, FollowerNode(core.currentLeader))];
      }
      Nothing(setup, View());
    }

    method OnMessage(m: Message, timeout: nat) returns (alive: bool, ghost order: seq<nat>)
      modifies this, core
      ensures Becomes(LoopStep(setup, old(View()), Received(m, timeout, order)), View(), alive)
      ensures alive ==> Listed(old(core.Model()), Delivery(m, timeout, order))
    {
      hide Node.Receive, RunActions, Listed;
      var before := core.role == Leader;
      var actions;
      actions, order := HandleMessage(m, timeout);
      if actions.None? { return false, order; }
      alive := HandleActions(actions.value);
      if alive && before && core.role != Leader {
        DrainPending();
      }
    }

    method HandleMessage(m: Message, timeout: nat) returns (r: Option<seq<Action>>, ghost order: seq<nat>)
      modifies core
      ensures Ends(old(core.Model()).Receive(m, timeout, order), core.Model(), r)
      ensures r.Some? ==> Listed(old(core.Model()), Delivery(m, timeout, order))
    {
      hide Node.Receive;
      order := [];
      match m {
        case RequestVote(_, _, _, _) =>
          var actions := core.HandleRequestVote(m, timeout);
          r := Some(actions);
        case RequestVoteResponse(_, _, _) =>
          var actions := core.HandleRequestVoteResponse(m, timeout);
          r := Some(actions);
        case AppendEntries(_, _, _, _, _, _) => r := core.HandleAppendEntries(m, timeout);
        case AppendEntriesResponse(_, _, _, _, _, _) => r, order := core.HandleAppendEntriesResponse(m, timeout);
        case InstallSnapshot(_, _, _, _, _) =>
          var actions := core.HandleInstallSnapshot(m, timeout);
          r := Some(actions);
        case InstallSnapshotResponse(_, _, _) =>
          var actions := core.HandleInstallSnapshotResponse(m, timeout);
          r := Some(actions);
      }
    }

    /** Everybody still waiting learns that leadership is lost. */
    method DrainPending()
      modifies this
      ensures View() == Drain(old(View()))
    {
      var lost := DrainMap(pendingProposals);
      answers := answers + lost;
      pendingProposals := map[];
      lost := DrainMap(pendingReads);
      readAnswers := readAnswers + lost;
      pendingReads := map[];
    }
  }

  lemma Nothing(s: Setup, d: Driver)
    ensures RunActions(s, d, []) == Some(d)
  {
  }

  method FindPersist(actions: seq<Action>) returns (index: Option<nat>)
    ensures index == FirstPersist(actions)
  {
    assert actions[0..] == actions;
    for k := 0 to |actions|
      invariant FirstPersist(actions[k..]) == FirstPersist(actions)
    {
      assert actions[k..][1..] == actions[k + 1..];
      if actions[k].PersistLogEntries? { return Some(actions[k].startIndex); }
    }
    return None;
  }

  /** Each channel is independent, so the order in which the map is drained is not observable; ascending here. */
  method DrainMap(pending: map<nat, Token>) returns (lost: seq<Answer>)
    ensures lost == Losses(ValuesOf(pending))
  {
    lost := [];
    var keys := pending.Keys;
    assert Losses(ValuesOver(pending, keys)) == lost + Losses(ValuesOver(pending, keys));
    while keys != {}
      invariant keys <= pending.Keys
      invariant Losses(ValuesOf(pending)) == lost + Losses(ValuesOver(pending, keys))
      decreases |keys|
    {
      var k := Least(keys);
      LossesFirst(pending[k], ValuesOver(pending, keys - {k}));
      lost := lost + [Answer(pending[k], LostLeadership)];
      keys := keys - {k};
    }
  }

  lemma LossesFirst(token: Token, tokens: seq<Token>)
    ensures Losses([token] + tokens) == [Answer(token, LostLeadership)] + Losses(tokens)
  {
  }

  /** Recovery: restore from the disk, with its snapshot if it has one; None is a panic. */
  method Start(id: NodeId, nodes: seq<NodeId>, heartbeat: Option<nat>, timeout: nat, setup: Setup, disk: Disk)
    returns (r: Option<RaftDriver>)
    ensures r.Some? <==> Recover(id, nodes, heartbeat, timeout, disk).Some?
    ensures r.Some? ==> fresh(r.value) && r.value.setup == setup && Started(r.value.View()) && r.value.disk == disk
                        && Recover(id, nodes, heartbeat, timeout, disk) == Some(r.value.core.Model())
  {
    var core := new RaftCore(id, nodes, heartbeat, timeout);
    if disk.snapshot.Some? {
      if disk.meta.None? || disk.log.None? { return None; }
      core.Reload(disk.meta.value.term, disk.meta.value.votedFor, Entries(disk.log.value));
      core.ResumeAt(disk.snapshot.value.index, disk.snapshot.value.term);
    } else if disk.meta.Some? {
      core.Reload(disk.meta.value.term, disk.meta.value.votedFor, Entries(disk.log.GetOr([])));
    }
    assert Recover(id, nodes, heartbeat, timeout, disk) == Some(core.Model());
    var driver := new RaftDriver(core, setup, disk);
    r := Some(driver);
  }
}
