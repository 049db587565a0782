/** A run of three nodes in which a proposal is answered Ok although another command is applied at its index. One stale
    append response, which AppendGuard excludes, makes a new leader reach back before it has been answered. */
module StaleRun {
  import opened RaftTypes
  import opened RaftNode
  import opened Frames
  import opened Logs
  import opened Durability
  import opened Process
  import opened Cluster
  import opened CommitRule
  import opened OrderStatistics
  import opened Timing
  import opened Guards

  function NoOp(term: nat): LogEntry { LogEntry(term, []) }

  const PROPOSED: Bytes := [7]

  // Node 1 leads term 1, is deposed in term 2, and leads again in term 3.
  const A0: Node := Node(1, [0, 2], Follower, 0, None, [], 0, 0, None, map[], map[], {}, 0, 0, 0, 0, 5, 0, 0, map[])
  const A1: Node := A0.(role := Candidate, currentTerm := 1, votedFor := Some(1), votesReceived := {1})
  const A2: Node := A1.(role := Leader, currentLeader := Some(1), votesReceived := {1, 2}, log := [NoOp(1)],
                        nextIndex := map[0 := 2, 2 := 2], matchIndex := map[0 := 0, 2 := 0])
  const A3: Node := A2.(role := Follower, currentTerm := 2, votedFor := None, currentLeader := None)
  const A4: Node := A3.(role := Candidate, currentTerm := 3, votedFor := Some(1), votesReceived := {1})
  const A5: Node := A4.(role := Leader, currentLeader := Some(1), votesReceived := {1, 2}, log := [NoOp(1), NoOp(3)],
                        nextIndex := map[0 := 3, 2 := 3], matchIndex := map[0 := 0, 2 := 0])
  const A6: Node := A5.(nextIndex := map[0 := 3, 2 := 1])
  const A7: Node := A6.(nextIndex := map[0 := 3, 2 := 3], matchIndex := map[0 := 0, 2 := 2], successCount := 1,
                        commitIndex := 2, lastApplied := 2)
  const A8: Node := A7.(nextIndex := map[0 := 1, 2 := 3])

  // Node 2 votes in every term and follows in the third.
  const B0: Node := Node(2, [0, 1], Follower, 0, None, [], 0, 0, None, map[], map[], {}, 0, 0, 0, 0, 5, 0, 0, map[])
  const B1: Node := B0.(currentTerm := 1, votedFor := Some(1))
  const B2: Node := B1.(currentTerm := 2, votedFor := Some(0))
  const B3: Node := B2.(currentTerm := 3, votedFor := Some(1))
  const B4: Node := B3.(currentLeader := Some(1))
  const B5: Node := B4.(log := [NoOp(1), NoOp(3)])

  // Node 0 rejects node 1 in term 1 and leads term 2, with a proposal waiting at index 2.
  const C0: Node := Node(0, [1, 2], Follower, 0, None, [], 0, 0, None, map[], map[], {}, 0, 0, 0, 0, 5, 0, 0, map[])
  const C1: Node := C0.(currentTerm := 1, currentLeader := Some(1))
  const C2: Node := C1.(role := Candidate, currentTerm := 2, votedFor := Some(0), votesReceived := {0},
                        currentLeader := None)
  const C3: Node := C2.(role := Leader, currentLeader := Some(0), votesReceived := {0, 2}, log := [NoOp(2)],
                        nextIndex := map[1 := 2, 2 := 2], matchIndex := map[1 := 0, 2 := 0])
  const C4: Node := C3.(log := [NoOp(2), LogEntry(2, PROPOSED)])

  const FIRST: Message := AppendEntries(1, 1, 1, 1, [], 0)
  const STALE: Message := AppendEntriesResponse(0, 1, 0, false, Some(1), None)
  const PROBE: Message := AppendEntries(3, 1, 2, 3, [], 0)
  const BEHIND: Message := AppendEntriesResponse(2, 3, 0, false, Some(1), None)
  const WHOLE: Message := AppendEntries(3, 1, 0, 0, [NoOp(1), NoOp(3)], 0)
  const DONE: Message := AppendEntriesResponse(2, 3, 2, true, None, None)
  const OVERWRITE: Message := AppendEntries(3, 1, 0, 0, [NoOp(1), NoOp(3)], 2)

  // ----- Single calls -----

  /** A call leads from one node to another, needs no snapshot, and sends the packet. */
  ghost predicate Moves(n: Node, input: Input, n': Node, x: Packet) {
    var r := Handle(n, input);
    r.Done? && r.node == n' && Plain(r.actions) && x in SentBy(r.actions)
  }

  lemma Stand(n: Node, peer: NodeId)
    requires n.role != Leader && n.electionTimeout == 0 && n.ticks == 0 && peer in n.peers
    ensures Moves(n, Timer(0),
                  n.(role := Candidate, currentTerm := n.currentTerm + 1, votedFor := Some(n.id),
                     votesReceived := {n.id}, currentLeader := None),
                  Packet(peer, RequestVote(n.currentTerm + 1, n.id, n.LastLogIndex(), n.LastLogTerm())))
  {
    hide Node.Tick, Node.RequestVotes, SentBy;
    Stands(n, 0);
    var r := n.Tick(0);
    SameLast(n, r.node);
    Requests(r.node, n.LastLogIndex(), n.LastLogTerm());
    var k :| 0 <= k < |n.peers| && n.peers[k] == peer;
    assert r.actions[k + 1] == r.node.RequestVotes()[k];
    IsSent(r.actions, k + 1);
  }

  lemma Grant(n: Node, m: Message)
    requires m.RequestVote? && m.term > n.currentTerm && n.CandidateUpToDate(m) && n.electionTimeout == 0
             && n.ticks == 0
    ensures Moves(n, Delivery(m, 0, []),
                  n.(role := Follower, currentTerm := m.term, votedFor := Some(m.candidate), currentLeader := None,
                     readBarriers := map[]),
                  Packet(m.candidate, RequestVoteResponse(n.id, m.term, true)))
  {
    var r := Handle(n, Delivery(m, 0, []));
    assert n.AdoptTerm(m.term, 0).Grants(m);
    assert r.actions == [PersistMetadata(m.term, None), PersistMetadata(m.term, Some(m.candidate)),
                         SendMessage(m.candidate, RequestVoteResponse(n.id, m.term, true))];
    IsSent(r.actions, 2);
  }

  /** One vote more makes a leader of three, which offers every peer what follows its own blank entry. */
  lemma Win(n: Node, voter: NodeId, peer: NodeId)
    requires n.role == Candidate && |n.peers| == 2 && n.votesReceived == {n.id} && voter != n.id
    requires peer in n.peers && n.electionTimeout == 0 && n.ticks == 0
    ensures var last := n.LastLogIndex() + 1;
            Moves(n, Delivery(RequestVoteResponse(voter, n.currentTerm, true), 0, []),
                  n.(role := Leader, currentLeader := Some(n.id), votesReceived := {n.id, voter},
                     log := n.log + [NoOp(n.currentTerm)], nextIndex := SetAll(n.nextIndex, n.peers, last + 1),
                     matchIndex := SetAll(n.matchIndex, n.peers, 0)),
                  Packet(peer, AppendEntries(n.currentTerm, n.id, last, n.currentTerm, [], n.commitIndex)))
  {
    hide Node.AppendToAll, SetAll, Handle, SentBy;
    var w := n.(votesReceived := {n.id, voter}).WinElection(0);
    Wins(n, voter, w);
    var k := Offers(n.(votesReceived := {n.id, voter}), w, peer);
    var r := Handle(n, Delivery(RequestVoteResponse(voter, n.currentTerm, true), 0, []));
    assert r.actions[k + 1] == w.AppendToAll()[k];
    IsSent(r.actions, k + 1);
  }

  lemma Wins(n: Node, voter: NodeId, w: Node)
    requires n.role == Candidate && |n.peers| == 2 && n.votesReceived == {n.id} && voter != n.id
    requires w == n.(votesReceived := {n.id, voter}).WinElection(0)
    ensures Handle(n, Delivery(RequestVoteResponse(voter, n.currentTerm, true), 0, []))
         == Done(w, [PersistLogEntries(w.LastLogIndex(), [NoOp(n.currentTerm)])] + w.AppendToAll())
  {
    hide Node.AppendToAll, SetAll;
    assert n.votesReceived + {voter} == {n.id, voter};
    var actions := [PersistLogEntries(w.LastLogIndex(), [NoOp(n.currentTerm)])] + w.AppendToAll();
    assert [] + actions == actions;
  }

  /** What a new leader sends to a peer. */
  function FirstOffer(n: Node, p: NodeId): Action {
    SendMessage(p, AppendEntries(n.currentTerm, n.id, n.LastLogIndex() + 1, n.currentTerm, [], n.commitIndex))
  }

  lemma Offers(n: Node, w: Node, peer: NodeId) returns (k: nat)
    requires peer in n.peers && w == n.WinElection(0)
    ensures Plain(w.AppendToAll()) && k < |w.AppendToAll()| && w.AppendToAll()[k] == FirstOffer(n, peer)
  {
    hide Node.BuildAppendEntries, FirstOffer;
    forall p | p in w.peers ensures w.BuildAppendEntries(p) == FirstOffer(n, p) && FirstOffer(n, p).SendMessage? {
      Offer(n, w, p);
    }
    k :| k < |w.peers| && w.peers[k] == peer;
    assert w.AppendToAll()[k] == w.BuildAppendEntries(peer);
  }

  lemma Offer(n: Node, w: Node, p: NodeId)
    requires p in n.peers && w == n.WinElection(0)
    ensures w.BuildAppendEntries(p) == FirstOffer(n, p) && FirstOffer(n, p).SendMessage?
  {
    assert w.nextIndex[p] == w.LastLogIndex() + 1;
    assert w.log[|w.log|..|w.log|] == [];
  }

  lemma SetTwo(m: map<NodeId, nat>, a: NodeId, b: NodeId, v: nat)
    requires a != b && m.Keys <= {a, b}
    ensures SetAll(m, [a, b], v) == map[a := v, b := v]
  {
  }

  lemma Crowned()
    ensures Moves(A1, Delivery(RequestVoteResponse(2, 1, true), 0, []), A2, Packet(0, FIRST))
    ensures Moves(C2, Delivery(RequestVoteResponse(2, 2, true), 0, []), C3, Packet(1, AppendEntries(2, 0, 1, 2, [], 0)))
  {
    hide Moves, SetAll;
    Win(A1, 2, 0);
    SetTwo(A1.nextIndex, 0, 2, 2);
    SetTwo(A1.matchIndex, 0, 2, 0);
    Win(C2, 2, 1);
    SetTwo(C2.nextIndex, 1, 2, 2);
    SetTwo(C2.matchIndex, 1, 2, 0);
    assert [] + [NoOp(1)] == [NoOp(1)] && [] + [NoOp(2)] == [NoOp(2)];
  }

  lemma CrownedAgain()
    ensures Moves(A4, Delivery(RequestVoteResponse(2, 3, true), 0, []), A5, Packet(2, PROBE))
    ensures Moves(A4, Delivery(RequestVoteResponse(2, 3, true), 0, []), A5, Packet(0, PROBE))
  {
    hide Moves, SetAll;
    Win(A4, 2, 2);
    Win(A4, 2, 0);
    SetTwo(A4.nextIndex, 0, 2, 3);
    SetTwo(A4.matchIndex, 0, 2, 0);
    assert [NoOp(1)] + [NoOp(3)] == [NoOp(1), NoOp(3)];
  }

  /** A node whose log is too short turns down what follows an entry it lacks. */
  lemma TurnsDown(n: Node, m: Message)
    requires m.AppendEntries? && m.prevIndex > n.LastLogIndex() && m.term >= n.currentTerm && n.role == Follower
    requires n.electionTimeout == 0 && n.ticks == 0 && n.readBarriers == map[]
    ensures var last := n.LastLogIndex();
            Moves(n, Delivery(m, 0, []),
                  n.(currentTerm := m.term, currentLeader := Some(m.leader),
                     votedFor := if m.term > n.currentTerm then None else n.votedFor),
                  Packet(m.leader, AppendEntriesResponse(n.id, m.term, last, false, Some(last + 1), None)))
  {
    var r := Handle(n, Delivery(m, 0, []));
    IsSent(r.actions, |r.actions| - 1);
  }

  lemma Proposes()
    ensures var r := Handle(C3, Proposal(PROPOSED)); r.Done? && r.node == C4 && Plain(r.actions)
  {
    assert [NoOp(2)] + [LogEntry(2, PROPOSED)] == [NoOp(2), LogEntry(2, PROPOSED)];
    forall p | p in C4.peers ensures C4.BuildAppendEntries(p).SendMessage? {
      assert C4.nextIndex[p] == 2;
    }
  }

  /** Node 1 learns of term 2 from a candidate it does not vote for. */
  lemma Learns()
    ensures var r := Handle(A2, Delivery(RequestVote(2, 0, 0, 0), 0, [])); r.Done? && r.node == A3 && Plain(r.actions)
  {
    assert A2.AdoptTerm(2, 0).LastLogTerm() == 1;
  }

  /** A rejection makes node 1 send its whole log, of whatever term the rejection is. */
  lemma ReachesBack(n: Node, m: Message, next: map<NodeId, nat>)
    requires n.role == Leader && n.snapIndex == 0 && n.snapTerm == 0
    requires m.AppendEntriesResponse? && !m.success && m.conflictIndex == Some(1) && m.term <= n.currentTerm
    requires m.id in n.nextIndex && next == n.nextIndex[m.id := 1]
    ensures Moves(n, Delivery(m, 0, []), n.(nextIndex := next),
                  Packet(m.id, AppendEntries(n.currentTerm, n.id, 0, 0, n.log, n.commitIndex)))
  {
    var n' := n.(nextIndex := next);
    TakeAll(n.log);
    assert n'.BuildAppendEntries(m.id)
        == SendMessage(m.id, AppendEntries(n.currentTerm, n.id, 0, 0, n.log, n.commitIndex));
    var r := Handle(n, Delivery(m, 0, []));
    assert r == Done(n', [n'.BuildAppendEntries(m.id)]);
    IsSent(r.actions, 0);
  }

  /** Node 2 takes the whole log. */
  lemma Catches()
    ensures Moves(B4, Delivery(WHOLE, 0, []), B5, Packet(1, DONE))
  {
    hide Node.OnAppendEntries;
    TakesLog(B4, WHOLE);
    var r := Handle(B4, Delivery(WHOLE, 0, []));
    var actions := [PersistLogEntries(1, WHOLE.entries), SendMessage(1, DONE)];
    assert [] + actions == actions;
    IsSent(r.actions, 1);
  }

  lemma TakesLog(n: Node, m: Message)
    requires n.role == Follower && n.log == [] && n.snapIndex == 0 && n.ticks == 0 && n.electionTimeout == 0
    requires m.AppendEntries? && m.term == n.currentTerm && m.prevIndex == 0 && m.leaderCommit == 0 && m.entries != []
    requires n.currentLeader == Some(m.leader)
    ensures n.OnAppendEntries(m, 0)
         == Done(n.(log := m.entries),
                 [PersistLogEntries(1, m.entries),
                  SendMessage(m.leader, AppendEntriesResponse(n.id, n.currentTerm, |m.entries|, true, None, None))])
  {
    hide Node.OnAppendEntries, Node.FinishAppend;
    AcceptShape(n, m, 0);
    var g := Accepted(n, m, 0);
    assert Agree([], 0, m.entries) == 0;
    assert g.log == m.entries;
    assert g == n.(log := m.entries);
    Answers(g, m);
  }

  lemma Answers(g: Node, m: Message)
    requires m.AppendEntries? && m.prevIndex == 0 && m.leaderCommit == 0 && m.entries != []
    requires g.snapIndex == 0 && g.log == m.entries
    ensures g.FinishAppend(m)
         == Done(g, [PersistLogEntries(1, m.entries),
                     SendMessage(m.leader, AppendEntriesResponse(g.id, g.currentTerm, |m.entries|, true, None, None))])
  {
    assert g.log[0..|g.log|] == g.log;
    assert g.PersistSuffix(m) == Some([PersistLogEntries(1, m.entries)]);
    hide Node.PersistSuffix;
  }

  /** With node 2 caught up, node 1 commits its blank entry at index 2. */
  lemma Commits()
    ensures var r := Handle(A6, Delivery(DONE, 0, [])); r.Done? && r.node == A7 && Plain(r.actions)
  {
    hide Node.ReplicatedIndex, Node.CommitScan, Node.CommitTo, Node.ReadyBarriers;
    var n := A6.NoteReplicated(DONE);
    Counts(n, 0, 0, 2, 2);
    Scans(n);
    NoneReady(n);
    MovesTo(n, 2);
  }

  lemma NoneReady(n: Node)
    ensures n.ReadyBarriers([]) == []
  {
  }

  lemma Scans(n: Node)
    requires n.log == [NoOp(1), NoOp(3)] && n.snapIndex == 0 && n.currentTerm == 3
    ensures n.CommitScan(1, 2, 0) == Some(2)
  {
    assert n.CommitScan(3, 2, 2) == Some(2);
    assert n.CommitScan(2, 2, 0) == Some(2);
  }

  lemma MovesTo(n: Node, c: nat)
    requires n.snapIndex <= n.lastApplied <= c <= n.LastLogIndex()
    ensures var r := n.CommitTo(c, []);
            r.Done? && r.node == n.(commitIndex := c, lastApplied := c) && Plain(r.actions)
  {
    assert n.readBarriers - (set k | k in []) == n.readBarriers;
  }

  /** Two peers of which one has everything the leader has, and one less. */
  lemma Counts(n: Node, a: NodeId, x: nat, b: NodeId, c: nat)
    requires a != b && x < c && n.matchIndex == map[a := x, b := c] && n.LastLogIndex() == c
    ensures n.ReplicatedIndex() == c
  {
    hide Node.ReplicatedIndex;
    assert n.matchIndex.Keys == {a, b};
    assert Reaching(n.matchIndex, n.matchIndex.Keys, c) == {b};
    assert Reaching(n.matchIndex, n.matchIndex.Keys, c + 1) == {};
    ReplicatedIsGreatest(n, c);
    ReplicatedIsGreatest(n, c + 1);
  }

  // ----- The run -----

  /** A reachable state in which no actions are left to run, with the given nodes. */
  ghost predicate Stage(c: Cluster, n0: Node, n1: Node, n2: Node) {
    && Reachable(TRIO, c) && Idle(c)
    && c.procs[0].node == n0 && c.procs[1].node == n1 && c.procs[2].node == n2
  }

  function With(c: Cluster, i: NodeId, j: NodeId, n: Node): Node
    requires j in c.procs
  {
    if i == j then n else c.procs[j].node
  }

  lemma Take(c: Cluster, i: NodeId, input: Input, n: Node) returns (c': Cluster)
    requires Reachable(TRIO, c) && Idle(c) && i in c.procs
    requires input.Delivery? ==> Packet(i, input.message) in c.net
    requires var r := Handle(c.procs[i].node, input); r.Done? && r.node == n && Plain(r.actions)
    ensures Stage(c', With(c, i, 0, n), With(c, i, 1, n), With(c, i, 2, n))
    ensures c'.net == c.net + SentBy(Handle(c.procs[i].node, input).actions)
  {
    hide Handle, Reachable, Plain, SentBy;
    c' := HandleOne(TRIO, c, i, input);
  }

  lemma Send(c: Cluster, i: NodeId, input: Input, n: Node, x: Packet) returns (c': Cluster)
    requires Reachable(TRIO, c) && Idle(c) && i in c.procs && Moves(c.procs[i].node, input, n, x)
    requires input.Delivery? ==> Packet(i, input.message) in c.net
    ensures Stage(c', With(c, i, 0, n), With(c, i, 1, n), With(c, i, 2, n))
    ensures c.net <= c'.net && x in c'.net
  {
    hide Handle, Reachable, Stage, Plain, SentBy;
    c' := Take(c, i, input, n);
  }

  lemma StartStage() returns (c: Cluster)
    ensures Stage(c, C0, A0, B0)
  {
    hide Reachable;
    PeersOfTrio();
    c := Cluster(map[0 := Boot(TRIO, 0, 0), 1 := Boot(TRIO, 1, 0), 2 := Boot(TRIO, 2, 0)], {});
    assert forall i :: i in c.procs ==> c.procs[i] == Boot(TRIO, i, 0);
    assert c.procs.Keys == (set i | i in TRIO.nodes);
    StartsRun(TRIO, c);
  }

  /** Term 1: node 1 leads, node 0 rejects its first offer; the rejection will be delivered again much later. */
  lemma FirstTerm() returns (c: Cluster)
    ensures Stage(c, C1, A2, B1) && Packet(1, STALE) in c.net && Packet(0, FIRST) in c.net
  {
    hide Handle, Reachable, Moves;
    c := StartStage();
    Stand(A0, 2);
    c := Send(c, 1, Timer(0), A1, Packet(2, RequestVote(1, 1, 0, 0)));
    Grant(B0, RequestVote(1, 1, 0, 0));
    c := Send(c, 2, Delivery(RequestVote(1, 1, 0, 0), 0, []), B1, Packet(1, RequestVoteResponse(2, 1, true)));
    Crowned();
    c := Send(c, 1, Delivery(RequestVoteResponse(2, 1, true), 0, []), A2, Packet(0, FIRST));
    TurnsDown(C0, FIRST);
    c := Send(c, 0, Delivery(FIRST, 0, []), C1, Packet(1, STALE));
  }

  /** Term 2: node 0 leads and takes a proposal. */
  lemma SecondTerm() returns (c: Cluster)
    ensures Stage(c, C4, A3, B2) && Packet(1, STALE) in c.net
    ensures Packet(0, FIRST) in c.net && Packet(0, RequestVoteResponse(2, 2, true)) in c.net
  {
    hide Handle, Reachable, Moves, Plain, SentBy;
    c := FirstTerm();
    c := AsksForVotes(c);
    Grant(B1, RequestVote(2, 0, 0, 0));
    c := Send(c, 2, Delivery(RequestVote(2, 0, 0, 0), 0, []), B2, Packet(0, RequestVoteResponse(2, 2, true)));
    Crowned();
    c := Send(c, 0, Delivery(RequestVoteResponse(2, 2, true), 0, []), C3, Packet(1, AppendEntries(2, 0, 1, 2, [], 0)));
    Proposes();
    c := Take(c, 0, Proposal(PROPOSED), C4);
    Learns();
    c := Take(c, 1, Delivery(RequestVote(2, 0, 0, 0), 0, []), A3);
  }

  lemma AsksForVotes(c: Cluster) returns (c': Cluster)
    requires Stage(c, C1, A2, B1)
    ensures Stage(c', C2, A2, B1) && c.net <= c'.net
    ensures Packet(1, RequestVote(2, 0, 0, 0)) in c'.net && Packet(2, RequestVote(2, 0, 0, 0)) in c'.net
  {
    hide Handle, Reachable, Plain, SentBy;
    Stand(C1, 2);
    Stand(C1, 1);
    c' := Take(c, 0, Timer(0), C2);
  }

  /** Term 3: node 1 leads again, brings node 2 up to date and commits its blank entry at index 2. Then the stale
      rejection of term 1 arrives, and node 1 sends its whole log to node 0, which has not heard of term 3. */
  lemma ThirdTerm() returns (c: Cluster)
    ensures Stage(c, C4, A8, B5) && Packet(0, OVERWRITE) in c.net
    ensures Packet(0, FIRST) in c.net && Packet(0, RequestVoteResponse(2, 2, true)) in c.net
  {
    hide Handle, Reachable, Moves, Plain, SentBy;
    c := SecondTerm();
    LastOf();
    Stand(A3, 2);
    c := Send(c, 1, Timer(0), A4, Packet(2, RequestVote(3, 1, 1, 1)));
    Grant(B2, RequestVote(3, 1, 1, 1));
    c := Send(c, 2, Delivery(RequestVote(3, 1, 1, 1), 0, []), B3, Packet(1, RequestVoteResponse(2, 3, true)));
    CrownedAgain();
    c := Send(c, 1, Delivery(RequestVoteResponse(2, 3, true), 0, []), A5, Packet(2, PROBE));
    TurnsDown(B3, PROBE);
    c := Send(c, 2, Delivery(PROBE, 0, []), B4, Packet(1, BEHIND));
    c := Recovers(c);
  }

  lemma LastOf()
    ensures A3.LastLogIndex() == 1 && A3.LastLogTerm() == 1
    ensures B2.CandidateUpToDate(RequestVote(3, 1, 1, 1))
  {
  }

  lemma Recovers(c: Cluster) returns (c': Cluster)
    requires Stage(c, C4, A5, B4) && Packet(1, BEHIND) in c.net && Packet(1, STALE) in c.net
    ensures Stage(c', C4, A8, B5) && Packet(0, OVERWRITE) in c'.net && c.net <= c'.net
  {
    hide Handle, Reachable, Moves, Plain, SentBy;
    ReachesBack(A5, BEHIND, A6.nextIndex);
    c' := Send(c, 1, Delivery(BEHIND, 0, []), A6, Packet(2, WHOLE));
    Catches();
    c' := Send(c', 2, Delivery(WHOLE, 0, []), B5, Packet(1, DONE));
    Commits();
    c' := Take(c', 1, Delivery(DONE, 0, []), A7);
    ReachesBack(A7, STALE, A8.nextIndex);
    c' := Send(c', 1, Delivery(STALE, 0, []), A8, Packet(0, OVERWRITE));
  }
}
