/** A run of three nodes that commits two different entries at one index. It counts no stale vote and breaks AppendGuard
    once: a rejection that names no index reaches the leader of its own term. */
module SplitRun {
  import opened RaftTypes
  import opened RaftNode
  import opened Cluster
  import opened Guards
  import opened StaleRun

  // Node 1 leads term 3, probes node 0 at index 0, and counts an answer that says nothing about its entries.
  const A9: Node := A5.(nextIndex := map[0 := 0, 2 := 3])
  const A10: Node := A9.(nextIndex := map[0 := 3, 2 := 3], matchIndex := map[0 := 2, 2 := 0], successCount := 1,
                         commitIndex := 2, lastApplied := 2)

  // Node 0 keeps the log it had as leader of term 2, and leads term 4 with it.
  const D1: Node := C0.(role := Candidate, currentTerm := 1, votedFor := Some(0), votesReceived := {0})
  const D5: Node := C4.(role := Follower, currentTerm := 3, votedFor := None, currentLeader := Some(1))
  const D6: Node := D5.(role := Candidate, currentTerm := 4, votedFor := Some(0), votesReceived := {0},
                        currentLeader := None)
  const KEPT: seq<LogEntry> := [NoOp(2), LogEntry(2, PROPOSED), NoOp(4)]
  const D7: Node := D6.(role := Leader, currentLeader := Some(0), votesReceived := {0, 2}, log := KEPT,
                        nextIndex := map[1 := 4, 2 := 4], matchIndex := map[1 := 0, 2 := 0])
  const D8: Node := D7.(nextIndex := map[1 := 4, 2 := 1])
  const D9: Node := D8.(nextIndex := map[1 := 4, 2 := 4], matchIndex := map[1 := 0, 2 := 3], successCount := 1,
                        commitIndex := 3, lastApplied := 3)

  // Node 2 follows node 0 in term 4.
  const E4: Node := B3.(currentTerm := 4, votedFor := Some(0))
  const E5: Node := E4.(currentLeader := Some(0))
  const E6: Node := E5.(log := KEPT)

  const REFUSAL: Message := AppendEntriesResponse(0, 3, 2, false, None, None)
  const NOTHING: Message := AppendEntries(3, 1, 0, 0, [], 0)
  const CLAIM: Message := AppendEntriesResponse(0, 3, 2, true, None, None)
  const NEXT: Message := AppendEntries(4, 0, 3, 4, [], 0)
  const LACKING: Message := AppendEntriesResponse(2, 4, 0, false, Some(1), None)
  const ALL: Message := AppendEntries(4, 0, 0, 0, KEPT, 0)
  const HELD: Message := AppendEntriesResponse(2, 4, 3, true, None, None)

  // ----- Single calls -----

  /** Node 0 joins term 3 and turns down the probe, keeping its log. */
  lemma Joins()
    ensures var r := Handle(C4, Delivery(PROBE, 0, [])); r.Done? && r.node == D5 && Plain(r.actions)
  {
    var n := C4.AdoptTerm(3, 0).ResetTimer(0).(currentLeader := Some(1));
    assert !n.Matches(PROBE);
  }

  /** A leader's message of term 1 is refused without an index. */
  lemma RefusesOld()
    ensures Moves(D5, Delivery(FIRST, 0, []), D5, Packet(1, REFUSAL))
  {
    var r := Handle(D5, Delivery(FIRST, 0, []));
    assert r.actions == [] + [SendMessage(1, REFUSAL)];
    IsSent(r.actions, 0);
  }

  /** Node 1 then sends nothing from index 0, */
  lemma SendsNothing()
    ensures Moves(A5, Delivery(REFUSAL, 0, []), A9, Packet(0, NOTHING))
  {
    assert A5.nextIndex[0 := 0] == A9.nextIndex;
    assert A9.BuildAppendEntries(0) == SendMessage(0, NOTHING);
    var r := Handle(A5, Delivery(REFUSAL, 0, []));
    assert r == Done(A9, [] + [A9.BuildAppendEntries(0)]);
    IsSent(r.actions, 0);
  }

  /** which node 0 accepts, claiming all it has, */
  lemma Claims()
    ensures Moves(D5, Delivery(NOTHING, 0, []), D5, Packet(1, CLAIM))
  {
    assert D5.Merge(1, []) == Some(D5);
    assert D5.FinishAppend(NOTHING) == Done(D5, [] + [] + [SendMessage(1, CLAIM)]);
    var r := Handle(D5, Delivery(NOTHING, 0, []));
    assert r.actions == [SendMessage(1, CLAIM)];
    IsSent(r.actions, 0);
  }

  /** and node 1 commits its blank entry at index 2. */
  lemma CommitsAlone()
    ensures var r := Handle(A9, Delivery(CLAIM, 0, [])); r.Done? && r.node == A10 && Plain(r.actions)
  {
    hide Node.ReplicatedIndex, Node.CommitScan, Node.CommitTo, Node.ReadyBarriers;
    var n := A9.NoteReplicated(CLAIM);
    assert n.matchIndex == map[2 := 0, 0 := 2];
    Counts(n, 2, 0, 0, 2);
    Scans(n);
    NoneReady(n);
    MovesTo(n, 2);
  }

  lemma CrownedLast()
    ensures Moves(D6, Delivery(RequestVoteResponse(2, 4, true), 0, []), D7, Packet(2, NEXT))
  {
    hide Moves, SetAll;
    Win(D6, 2, 2);
    SetTwo(D6.nextIndex, 1, 2, 4);
    SetTwo(D6.matchIndex, 1, 2, 0);
    assert D6.log + [NoOp(4)] == KEPT;
  }

  lemma Takes()
    ensures Moves(E5, Delivery(ALL, 0, []), E6, Packet(0, HELD))
  {
    hide Node.OnAppendEntries;
    TakesLog(E5, ALL);
    var r := Handle(E5, Delivery(ALL, 0, []));
    var actions := [PersistLogEntries(1, KEPT), SendMessage(0, HELD)];
    assert [] + actions == actions;
    IsSent(r.actions, 1);
  }

  /** Node 0 commits all three of its entries. */
  lemma CommitsKept()
    ensures var r := Handle(D8, Delivery(HELD, 0, [])); r.Done? && r.node == D9 && Plain(r.actions)
  {
    hide Node.ReplicatedIndex, Node.CommitScan, Node.CommitTo, Node.ReadyBarriers;
    var n := D8.NoteReplicated(HELD);
    Counts(n, 1, 0, 2, 3);
    ScansKept(n);
    NoneReady(n);
    MovesTo(n, 3);
  }

  lemma ScansKept(n: Node)
    requires n.log == KEPT && n.snapIndex == 0 && n.currentTerm == 4
    ensures n.CommitScan(1, 3, 0) == Some(3)
  {
    assert n.CommitScan(4, 3, 3) == Some(3);
    assert n.CommitScan(3, 3, 0) == Some(3);
    assert n.CommitScan(2, 3, 0) == Some(3);
  }

  // ----- The run -----

  /** Terms 1 and 2: node 1 leads and is not heard, node 0 leads and takes a proposal. */
  lemma TwoTerms() returns (c: Cluster)
    ensures Stage(c, C4, A3, B2) && Packet(0, FIRST) in c.net
  {
    hide Handle, Reachable, Moves, Plain, SentBy;
    c := StartStage();
    Stand(A0, 2);
    c := Send(c, 1, Timer(0), A1, Packet(2, RequestVote(1, 1, 0, 0)));
    Grant(B0, RequestVote(1, 1, 0, 0));
    c := Send(c, 2, Delivery(RequestVote(1, 1, 0, 0), 0, []), B1, Packet(1, RequestVoteResponse(2, 1, true)));
    Crowned();
    c := Send(c, 1, Delivery(RequestVoteResponse(2, 1, true), 0, []), A2, Packet(0, FIRST));
    Stand(C0, 2);
    c := Send(c, 0, Timer(0), D1, Packet(2, RequestVote(1, 0, 0, 0)));
    c := TakesOver(c);
  }

  lemma TakesOver(c: Cluster) returns (c': Cluster)
    requires Stage(c, D1, A2, B1)
    ensures Stage(c', C4, A3, B2) && c.net <= c'.net
  {
    hide Handle, Reachable, Moves, Plain, SentBy;
    c' := AsksBoth(c);
    Grant(B1, RequestVote(2, 0, 0, 0));
    c' := Send(c', 2, Delivery(RequestVote(2, 0, 0, 0), 0, []), B2, Packet(0, RequestVoteResponse(2, 2, true)));
    Crowned();
    var offer := Packet(1, AppendEntries(2, 0, 1, 2, [], 0));
    c' := Send(c', 0, Delivery(RequestVoteResponse(2, 2, true), 0, []), C3, offer);
    Proposes();
    c' := Take(c', 0, Proposal(PROPOSED), C4);
    Learns();
    c' := Take(c', 1, Delivery(RequestVote(2, 0, 0, 0), 0, []), A3);
  }

  lemma AsksBoth(c: Cluster) returns (c': Cluster)
    requires Stage(c, D1, A2, B1)
    ensures Stage(c', C2, A2, B1) && c.net <= c'.net
    ensures Packet(1, RequestVote(2, 0, 0, 0)) in c'.net && Packet(2, RequestVote(2, 0, 0, 0)) in c'.net
  {
    hide Handle, Reachable, Plain, SentBy;
    Stand(D1, 2);
    Stand(D1, 1);
    c' := Take(c, 0, Timer(0), C2);
  }

  /** Term 3: node 1 leads again, and commits index 2 although only it holds its entry there. */
  lemma FalseCommit() returns (c: Cluster)
    ensures Stage(c, D5, A10, B3)
  {
    hide Handle, Reachable, Moves, Plain, SentBy;
    c := TwoTerms();
    LastOf();
    Stand(A3, 2);
    c := Send(c, 1, Timer(0), A4, Packet(2, RequestVote(3, 1, 1, 1)));
    Grant(B2, RequestVote(3, 1, 1, 1));
    c := Send(c, 2, Delivery(RequestVote(3, 1, 1, 1), 0, []), B3, Packet(1, RequestVoteResponse(2, 3, true)));
    CrownedAgain();
    c := Send(c, 1, Delivery(RequestVoteResponse(2, 3, true), 0, []), A5, Packet(0, PROBE));
    Joins();
    c := Take(c, 0, Delivery(PROBE, 0, []), D5);
    c := Deceived(c);
  }

  lemma Deceived(c: Cluster) returns (c': Cluster)
    requires Stage(c, D5, A5, B3) && Packet(0, FIRST) in c.net
    ensures Stage(c', D5, A10, B3)
  {
    hide Handle, Reachable, Moves, Plain, SentBy;
    RefusesOld();
    c' := Send(c, 0, Delivery(FIRST, 0, []), D5, Packet(1, REFUSAL));
    SendsNothing();
    c' := Send(c', 1, Delivery(REFUSAL, 0, []), A9, Packet(0, NOTHING));
    Claims();
    c' := Send(c', 0, Delivery(NOTHING, 0, []), D5, Packet(1, CLAIM));
    CommitsAlone();
    c' := Take(c', 1, Delivery(CLAIM, 0, []), A10);
  }

  lemma LastOfKept()
    ensures D5.LastLogIndex() == 2 && D5.LastLogTerm() == 2 && B3.CandidateUpToDate(RequestVote(4, 0, 2, 2))
  {
  }

  /** Without AppendGuard three nodes can reach a state in which two of them have committed different commands at
      index 2, so state machine safety fails: term 4 goes to node 0, which commits the log it never gave up. */
  lemma DivergingCommits() returns (c: Cluster)
    ensures Reachable(TRIO, c) && 0 in c.procs && 1 in c.procs
    ensures var a, b := c.procs[0].node, c.procs[1].node;
            && 2 <= a.lastApplied <= |a.log| && 2 <= b.lastApplied <= |b.log|
            && a.log[1].command == PROPOSED != b.log[1].command
  {
    hide Handle, Reachable, Moves, Plain, SentBy;
    c := FalseCommit();
    LastOfKept();
    Stand(D5, 2);
    c := Send(c, 0, Timer(0), D6, Packet(2, RequestVote(4, 0, 2, 2)));
    Grant(B3, RequestVote(4, 0, 2, 2));
    c := Send(c, 2, Delivery(RequestVote(4, 0, 2, 2), 0, []), E4, Packet(0, RequestVoteResponse(2, 4, true)));
    CrownedLast();
    c := Send(c, 0, Delivery(RequestVoteResponse(2, 4, true), 0, []), D7, Packet(2, NEXT));
    TurnsDown(E4, NEXT);
    c := Send(c, 2, Delivery(NEXT, 0, []), E5, Packet(0, LACKING));
    c := Restores(c);
  }

  lemma Restores(c: Cluster) returns (c': Cluster)
    requires Stage(c, D7, A10, E5) && Packet(0, LACKING) in c.net
    ensures Stage(c', D9, A10, E6)
  {
    hide Handle, Reachable, Moves, Plain, SentBy;
    ReachesBack(D7, LACKING, D8.nextIndex);
    c' := Send(c, 0, Delivery(LACKING, 0, []), D8, Packet(2, ALL));
    Takes();
    c' := Send(c', 2, Delivery(ALL, 0, []), E6, Packet(0, HELD));
    CommitsKept();
    c' := Take(c', 0, Delivery(HELD, 0, []), D9);
  }
}
