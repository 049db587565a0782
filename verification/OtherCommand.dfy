/** The driver of node 0 through the run of `StaleRun`: its proposal is answered Ok, and a blank command was applied. */
module OtherCommand {
  import opened RaftTypes
  import opened RaftNode
  import opened Logs
  import opened Storage
  import opened Durability
  import opened Process
  import opened Cluster
  import opened Driver
  import opened Guards
  import opened StaleRun

  /** Actions that only store and send. */
  ghost predicate Storing(actions: seq<Action>) {
    forall k :: 0 <= k < |actions| ==>
      actions[k].SendMessage? || actions[k].PersistMetadata? || actions[k].PersistLogEntries?
  }

  lemma {:induction false} StoringRuns(s: Setup, d: Driver, actions: seq<Action>) returns (d': Driver)
    requires Storing(actions)
    ensures RunActions(s, d, actions) == Some(d')
    ensures d' == d.(disk := d'.disk, sent := d'.sent)
    decreases |actions|
  {
    if actions == [] {
      d' := d;
    } else {
      var d1 := RunAction(s, d, actions[0]).value;
      d' := StoringRuns(s, d1, actions[1..]);
    }
  }

  /** A turn in which nothing is applied. */
  lemma StoringTurn(s: Setup, d: Driver, e: LoopEvent, n: Node) returns (d': Driver)
    requires var r := Handle(d.core, InputOf(e)); r.Done? && r.node == n && Storing(r.actions)
    requires !e.ReadAsked? && (d.core.IsLeader() ==> n.IsLeader())
    ensures LoopStep(s, d, e) == Some(d') && d'.core == n
    ensures d'.pendingProposals == Register(d, e, n, Handle(d.core, InputOf(e)).actions).pendingProposals
    ensures d.core.IsLeader() || !e.Proposed? ==> d'.answers == d.answers
  {
    hide Handle, RunActions, Storing;
    var r := Handle(d.core, InputOf(e));
    d' := StoringRuns(s, Register(d, e, n, r.actions), r.actions);
  }

  // ----- The calls of node 0 only store and send -----

  lemma RejectStores()
    ensures var r := Handle(C0, Delivery(FIRST, 0, [])); r.Done? && r.node == C1 && Storing(r.actions)
  {
    TurnsDown(C0, FIRST);
  }

  lemma StandStores()
    ensures var r := Handle(C1, Timer(0)); r.Done? && r.node == C2 && Storing(r.actions)
  {
    hide Node.LastLogTerm;
  }

  lemma WinStores()
    ensures var r := Handle(C2, Delivery(RequestVoteResponse(2, 2, true), 0, []));
            r.Done? && r.node == C3 && Storing(r.actions)
  {
    Crowned();
    var r := Handle(C2, Delivery(RequestVoteResponse(2, 2, true), 0, []));
    PlainLeader(C2, C3, r.actions);
  }

  /** What a leader of an uncompacted log sends to its peers are messages. */
  lemma PlainLeader(n: Node, w: Node, actions: seq<Action>)
    requires Plain(actions)
    requires actions == [] + ([PersistLogEntries(w.LastLogIndex(), [LogEntry(n.currentTerm, [])])] + w.AppendToAll())
    ensures Storing(actions)
  {
    forall k | 0 <= k < |actions|
      ensures actions[k].SendMessage? || actions[k].PersistMetadata? || actions[k].PersistLogEntries?
    {
      if k > 0 {
        assert actions[k] == w.AppendToAll()[k - 1];
      }
    }
  }

  lemma ProposeStores()
    ensures var r := Handle(C3, Proposal(PROPOSED));
            r.Done? && r.node == C4 && Storing(r.actions) && FirstPersist(r.actions) == Some(2)
  {
    Proposes();
    var r := Handle(C3, Proposal(PROPOSED));
    assert r.actions == [PersistLogEntries(2, [LogEntry(2, PROPOSED)])] + C4.AppendToAll();
    forall k | 0 <= k < |r.actions|
      ensures r.actions[k].SendMessage? || r.actions[k].PersistMetadata? || r.actions[k].PersistLogEntries?
    {
      if k > 0 {
        assert r.actions[k] == C4.AppendToAll()[k - 1];
      }
    }
  }

  // ----- The last call -----

  const TAKEN: seq<LogEntry> := [NoOp(1), NoOp(3)]

  function LastActions(answer: Action): seq<Action> {
    [PersistMetadata(3, None), PersistLogEntries(1, TAKEN)]
    + ([ApplyToStateMachine(1, []), ApplyToStateMachine(2, [])] + [answer])
  }

  /** The entries of term 3 match from the start, replace both entries of term 2, and are committed. */
  lemma Overwritten() returns (answer: Action)
    ensures var r := Handle(C4, Delivery(OVERWRITE, 0, []));
            r.Done? && r.node.role == Follower && r.actions == LastActions(answer) && answer.SendMessage?
  {
    hide Node.OnAppendEntries, Node.FinishAppend, Node.PersistSuffix, Node.FollowCommit;
    var n := C4.AdoptTerm(3, 0);
    AcceptShape(n, OVERWRITE, 0);
    SuffixShape(n, OVERWRITE, 0);
    var g := Accepted(n, OVERWRITE, 0);
    assert Agree(C4.log, 0, TAKEN) == 0;
    assert g.log == TAKEN && TAKEN[0..] == TAKEN;
    TakesBoth(g);
    Finished(g);
    FinishShape(g, OVERWRITE, g.PersistSuffix(OVERWRITE).value);
    answer := SendMessage(1, AppendEntriesResponse(0, 3, 2, true, None, None));
    var applies := [ApplyToStateMachine(1, []), ApplyToStateMachine(2, [])];
    assert [PersistMetadata(3, None)] + ([PersistLogEntries(1, TAKEN)] + (applies + [answer])) == LastActions(answer);
  }

  lemma TakesBoth(g: Node)
    requires g.snapIndex == 0 && g.log == TAKEN && g.commitIndex == 0
    ensures var r := g.FollowCommit(2);
            r.Done? && r.node.role == g.role && r.actions == [ApplyToStateMachine(1, []), ApplyToStateMachine(2, [])]
  {
    assert g.Slice(1, 3) == Some(g.log[0..2]) && g.log[0..2] == TAKEN;
  }

  lemma Finished(g: Node)
    requires g.PersistSuffix(OVERWRITE).Some? && g.FollowCommit(2).Done?
    ensures g.FinishAppend(OVERWRITE).Done?
  {
    hide Node.PersistSuffix, Node.FollowCommit;
  }

  /** Running them answers the proposal at index 2. */
  lemma LastRun(s: Setup, d: Driver, token: Token, answer: Action) returns (d': Driver)
    requires d.pendingProposals == map[2 := token] && answer.SendMessage?
    ensures RunActions(s, d, LastActions(answer)) == Some(d')
    ensures d'.core == d.core && Answer(token, Applied(2, [])) in d'.answers
  {
    var applies := [ApplyToStateMachine(1, []), ApplyToStateMachine(2, [])];
    var persist, rest := LastActions(answer)[..2], [answer];
    var d1 := StoringRuns(s, d, persist);
    var x := Answer(token, Applied(2, []));
    var d2 := d1.(pendingProposals := d1.pendingProposals - {2}, answers := d1.answers + [x]);
    AppliesBoth(s, d1, d2, token);
    d' := StoringRuns(s, d2, rest);
    assert d'.answers[|d1.answers|] == x;
    assert LastActions(answer) == persist + (applies + rest);
    RunConcat(s, d, persist, applies + rest);
    RunConcat(s, d1, applies, rest);
  }

  lemma AppliesBoth(s: Setup, d: Driver, d': Driver, token: Token)
    requires d.pendingProposals == map[2 := token]
    requires d' == d.(pendingProposals := d.pendingProposals - {2},
                      answers := d.answers + [Answer(token, Applied(2, []))])
    ensures RunActions(s, d, [ApplyToStateMachine(1, []), ApplyToStateMachine(2, [])]) == Some(d')
  {
    var a, b := ApplyToStateMachine(1, []), ApplyToStateMachine(2, []);
    assert [a, b][1..] == [b] && [b][1..] == [];
    assert RunAction(s, d, a) == Some(d);
    assert RunAction(s, d, b) == Some(d');
    assert RunActions(s, d, [b]) == RunActions(s, d', []);
  }

  lemma LastTurn(s: Setup, d: Driver, token: Token) returns (d': Driver)
    requires d.core == C4 && d.pendingProposals == map[2 := token]
    ensures LoopStep(s, d, Received(OVERWRITE, 0, [])) == Some(d')
    ensures Answer(token, Applied(2, [])) in d'.answers
  {
    hide Handle, RunActions, LastActions;
    var answer := Overwritten();
    var e := Received(OVERWRITE, 0, []);
    var r := Handle(d.core, InputOf(e));
    assert Register(d, e, r.node, r.actions) == d.(core := r.node);
    var d2 := LastRun(s, d.(core := r.node), token, answer);
    d' := Drain(d2);
    var j :| 0 <= j < |d2.answers| && d2.answers[j] == Answer(token, Applied(2, []));
    assert d'.answers[j] == d2.answers[j];
  }

  // ----- The driver's run -----

  function Events(token: Token): seq<LoopEvent> {
    [Received(FIRST, 0, []), TimerFired(0), Received(RequestVoteResponse(2, 2, true), 0, []),
     Proposed(token, PROPOSED), Received(OVERWRITE, 0, [])]
  }

  lemma Waits(s: Setup, token: Token) returns (states: seq<Driver>)
    ensures |states| == 5 && Started(states[0])
    ensures forall k :: 0 <= k < 4 ==> LoopStep(s, states[k], Events(token)[k]) == Some(states[k + 1])
    ensures states[4].core == C4 && states[4].pendingProposals == map[2 := token]
  {
    hide Handle, LoopStep, Storing;
    var es := Events(token);
    var d0 := Driver(C0, map[], map[], 0, EMPTY_DISK, [], [], [], []);
    Recovered();
    RejectStores();
    var d1 := StoringTurn(s, d0, es[0], C1);
    StandStores();
    var d2 := StoringTurn(s, d1, es[1], C2);
    WinStores();
    var d3 := StoringTurn(s, d2, es[2], C3);
    ProposeStores();
    var d4 := StoringTurn(s, d3, es[3], C4);
    assert map[][2 := token] == map[2 := token];
    states := [d0, d1, d2, d3, d4];
  }

  lemma Recovered()
    ensures Recover(0, [0, 1, 2], None, 0, EMPTY_DISK) == Some(C0)
  {
    PeersOfTrio();
  }

  /** Without AppendGuard an Ok can be for another command. There is a run of the cluster, and a run of node 0's driver
      that receives only messages sent in it, in which the proposal [7] waits at index 2 and is answered Ok when the
      blank entry of a later leader is applied there. */
  lemma OkForAnotherCommand(s: Setup, token: Token) returns (c: Cluster, states: seq<Driver>, events: seq<LoopEvent>)
    ensures Reachable(TRIO, c) && DriverRun(s, states, events)
    ensures forall k :: 0 <= k < |events| && events[k].Received? ==> Packet(0, events[k].message) in c.net
    ensures |events| == 5 && events[3] == Proposed(token, [7]) && 0 in c.procs && c.procs[0].node == states[4].core
    ensures Answer(token, Applied(2, [])) in states[5].answers
  {
    hide LoopStep, Started;
    c := ThirdTerm();
    events := Events(token);
    var waits := Waits(s, token);
    var last := LastTurn(s, waits[4], token);
    states := waits + [last];
    forall k | 0 <= k < |events| ensures LoopStep(s, states[k], events[k]) == Some(states[k + 1]) {
      if k < 4 {
        assert states[k] == waits[k] && states[k + 1] == waits[k + 1];
      }
    }
  }
}
