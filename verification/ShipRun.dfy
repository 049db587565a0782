/** A run of three nodes in which the leader of term 1 sends node 0, which has nothing yet, its whole log: node 0 has
    turned down the offer behind the leader's blank entry, and node 2 has taken a front part of the log, which is
    committed. Both guards hold throughout. */
module ShipRun {
  import opened RaftTypes
  import opened RaftNode
  import opened Frames
  import opened Storage
  import opened Process
  import opened Cluster
  import opened CommitRule
  import opened Guards
  import opened StaleRun

  /** The leader's log after these proposals. */
  function LogOf(commands: seq<Bytes>): (log: seq<LogEntry>)
    ensures |log| == |commands| + 1
    ensures forall k :: 0 <= k < |log| ==> log[k].term == 1
  {
    [NoOp(1)] + seq(|commands|, k requires 0 <= k < |commands| => LogEntry(1, commands[k]))
  }

  function WholeLog(commands: seq<Bytes>, commit: nat): Message {
    AppendEntries(1, 1, 0, 0, LogOf(commands), commit)
  }

  // Node 1: a leader that has taken proposals, knows that node 2 is behind, and then that it has caught up.
  function Taken(n: Node, commands: seq<Bytes>): Node { n.(log := LogOf(commands)) }

  function Reaching2(commands: seq<Bytes>): Node { Taken(A2, commands).(nextIndex := map[0 := 2, 2 := 1]) }

  function Committed(commands: seq<Bytes>): Node {
    var c := |commands| + 1;
    Taken(A2, commands).(nextIndex := map[0 := 2, 2 := c + 1], matchIndex := map[0 := 0, 2 := c], successCount := 1,
                         commitIndex := c, lastApplied := c)
  }

  // Node 2: a follower that has nothing, and then the committed part.
  const F1: Node := B1.(currentLeader := Some(1))

  function Caught(commands: seq<Bytes>): Node { F1.(log := LogOf(commands)) }

  const EMPTY: Message := AppendEntriesResponse(2, 1, 0, false, Some(1), None)

  function Holding(last: nat): Message { AppendEntriesResponse(2, 1, last, true, None, None) }

  const KNOWS: Disk := Disk(Some(Metadata(1, None)), None, None)

  // ----- Guarded scenes -----

  /** Reached from o under both guards, with no actions left to run, with these nodes and this disk of node 0. */
  ghost predicate Scene(o: Cluster, c: Cluster, n0: Node, n1: Node, n2: Node, d0: Disk) {
    && Leads(TRIO, true, o, c) && Idle(c)
    && c.procs[0].node == n0 && c.procs[1].node == n1 && c.procs[2].node == n2 && c.procs[0].disk == d0
  }

  /** Both guards allow the input. */
  ghost predicate Fair(n: Node, input: Input) {
    VoteGuard(n, Feed(input)) && AppendGuard(n, Feed(input))
  }

  lemma Play(o: Cluster, c: Cluster, i: NodeId, input: Input, n: Node) returns (c': Cluster)
    requires Leads(TRIO, true, o, c) && Idle(c) && i in c.procs && Fair(c.procs[i].node, input)
    requires input.Delivery? ==> Packet(i, input.message) in c.net
    requires var r := Handle(c.procs[i].node, input); r.Done? && r.node == n && Plain(r.actions)
    ensures var actions := Handle(c.procs[i].node, input).actions; var d := c.procs[0].disk;
            && Scene(o, c', With(c, i, 0, n), With(c, i, 1, n), With(c, i, 2, n),
                     if i == 0 then DiskAfter(d, actions) else d)
            && c'.net == c.net + SentBy(actions)
  {
    hide Handle, Leads, Plain, SentBy, DiskAfter;
    c' := HandleIdle(TRIO, true, c, i, input);
    LeadsFurther(TRIO, true, o, c, c');
  }

  lemma Cast(o: Cluster, c: Cluster, i: NodeId, input: Input, n: Node, x: Packet) returns (c': Cluster)
    requires Leads(TRIO, true, o, c) && Idle(c) && i in c.procs && Moves(c.procs[i].node, input, n, x)
    requires Fair(c.procs[i].node, input) && (input.Delivery? ==> Packet(i, input.message) in c.net)
    ensures var actions := Handle(c.procs[i].node, input).actions; var d := c.procs[0].disk;
            && Scene(o, c', With(c, i, 0, n), With(c, i, 1, n), With(c, i, 2, n),
                     if i == 0 then DiskAfter(d, actions) else d)
            && c.net <= c'.net && x in c'.net
  {
    hide Handle, Leads, Scene, Plain, SentBy, DiskAfter, Fair;
    c' := Play(o, c, i, input, n);
  }

  // ----- Proposals -----

  /** A leader that can reach all its peers by entries takes a proposal. */
  lemma TakesProposal(n: Node, command: Bytes)
    requires n.role == Leader && n.snapIndex == 0 && n.ticks == 0
    requires forall p :: p in n.peers ==> p in n.nextIndex && 0 < n.nextIndex[p] <= |n.log| + 1
    ensures var r := Handle(n, Proposal(command));
            r.Done? && r.node == n.(log := n.log + [LogEntry(n.currentTerm, command)]) && Plain(r.actions)
  {
    hide Node.BuildAppendEntries;
    var n' := n.(log := n.log + [LogEntry(n.currentTerm, command)]);
    forall p | p in n'.peers ensures n'.BuildAppendEntries(p).SendMessage? {
      ByEntries(n', p);
    }
  }

  lemma ByEntries(n: Node, p: NodeId)
    requires n.snapIndex == 0 && p in n.nextIndex && 0 < n.nextIndex[p] <= |n.log| + 1
    ensures n.BuildAppendEntries(p).SendMessage?
  {
  }

  /** Any number of proposals, one after the other. */
  lemma {:induction false} TakesAllProposals(o: Cluster, c: Cluster, n0: Node, n: Node, n2: Node, d0: Disk,
                                             commands: seq<Bytes>, k: nat) returns (c': Cluster)
    requires k <= |commands| && Scene(o, c, n0, Taken(n, commands[..k]), n2, d0)
    requires n.role == Leader && n.snapIndex == 0 && n.ticks == 0 && n.currentTerm == 1
    requires forall p :: p in n.peers ==> p in n.nextIndex && 0 < n.nextIndex[p] <= k + 2
    ensures Scene(o, c', n0, Taken(n, commands), n2, d0) && c.net <= c'.net
    decreases |commands| - k
  {
    hide Handle, Leads, Plain, SentBy;
    if k == |commands| {
      TakeAll(commands);
      c' := c;
    } else {
      TakesProposal(Taken(n, commands[..k]), commands[k]);
      assert LogOf(commands[..k]) + [LogEntry(1, commands[k])] == LogOf(commands[..k + 1]);
      c' := Play(o, c, 1, Proposal(commands[k]), Taken(n, commands[..k + 1]));
      c' := TakesAllProposals(o, c', n0, n, n2, d0, commands, k + 1);
    }
  }

  // ----- Single calls -----

  lemma CatchesUp(commands: seq<Bytes>)
    ensures Moves(F1, Delivery(WholeLog(commands, 0), 0, []), Caught(commands), Packet(1, Holding(|commands| + 1)))
  {
    hide Node.OnAppendEntries, LogOf;
    var m := WholeLog(commands, 0);
    TakesLog(F1, m);
    var r := Handle(F1, Delivery(m, 0, []));
    var actions := [PersistLogEntries(1, m.entries), SendMessage(1, Holding(|commands| + 1))];
    assert [] + actions == actions;
    IsSent(r.actions, 1);
  }

  /** With node 2 caught up, everything in the leader's log is committed. */
  lemma CommitsAll(commands: seq<Bytes>)
    ensures var r := Handle(Reaching2(commands), Delivery(Holding(|commands| + 1), 0, []));
            r.Done? && r.node == Committed(commands) && Plain(r.actions)
  {
    hide Node.ReplicatedIndex, Node.CommitScan, Node.CommitTo, Node.ReadyBarriers, LogOf;
    var c := |commands| + 1;
    var n := Reaching2(commands).NoteReplicated(Holding(c));
    Counts(n, 0, 0, 2, c);
    ScansAll(n, c);
    NoneReady(n);
    MovesTo(n, c);
  }

  lemma ScansAll(n: Node, c: nat)
    requires |n.log| == c > 0 && n.snapIndex == 0 && forall k :: 0 <= k < |n.log| ==> n.log[k].term == n.currentTerm
    ensures n.CommitScan(1, c, 0) == Some(c)
  {
    hide Node.CommitScan;
    ScanFindsLast(n, 1, c, 0);
    assert n.TermAt(c) == Some(n.currentTerm);
  }

  // ----- The run -----

  lemma Opening() returns (o: Cluster)
    ensures Initial(TRIO, o) && Scene(o, o, C0, A0, B0, EMPTY_DISK)
  {
    PeersOfTrio();
    o := Cluster(map[0 := Boot(TRIO, 0, 0), 1 := Boot(TRIO, 1, 0), 2 := Boot(TRIO, 2, 0)], {});
    assert forall i :: i in o.procs ==> o.procs[i] == Boot(TRIO, i, 0);
    assert o.procs.Keys == (set i | i in TRIO.nodes);
    LeadsNowhere(TRIO, true, o);
    hide Leads;
  }

  /** Node 1 wins term 1 and offers both peers what follows its blank entry. */
  lemma WinsFirst() returns (o: Cluster, c: Cluster)
    ensures Initial(TRIO, o) && Scene(o, c, C0, A2, B1, EMPTY_DISK)
    ensures Packet(0, FIRST) in c.net && Packet(2, FIRST) in c.net
  {
    hide Handle, Leads, Moves, Initial, Plain, SentBy, SetAll;
    o := Opening();
    Stand(A0, 2);
    c := Cast(o, o, 1, Timer(0), A1, Packet(2, RequestVote(1, 1, 0, 0)));
    Grant(B0, RequestVote(1, 1, 0, 0));
    c := Cast(o, c, 2, Delivery(RequestVote(1, 1, 0, 0), 0, []), B1, Packet(1, RequestVoteResponse(2, 1, true)));
    OffersBoth();
    c := Play(o, c, 1, Delivery(RequestVoteResponse(2, 1, true), 0, []), A2);
  }

  lemma OffersBoth()
    ensures var r := Handle(A1, Delivery(RequestVoteResponse(2, 1, true), 0, []));
            && r.Done? && r.node == A2 && Plain(r.actions)
            && Packet(0, FIRST) in SentBy(r.actions) && Packet(2, FIRST) in SentBy(r.actions)
  {
    hide Handle, Plain, SentBy, SetAll;
    Crowned();
    Win(A1, 2, 2);
    SetTwo(A1.nextIndex, 0, 2, 2);
    SetTwo(A1.matchIndex, 0, 2, 0);
    assert [] + [NoOp(1)] == [NoOp(1)];
  }

  /** Both peers turn the first offer down; node 0 now knows term 1, on disk too. */
  lemma BothBehind() returns (o: Cluster, c: Cluster)
    ensures Initial(TRIO, o) && Scene(o, c, C1, A2, F1, KNOWS)
    ensures Packet(0, FIRST) in c.net && Packet(1, STALE) in c.net && Packet(1, EMPTY) in c.net
  {
    hide Handle, Leads, Moves, Initial, DiskAfter;
    o, c := WinsFirst();
    TurnsDown(C0, FIRST);
    LearnsTerm();
    c := Cast(o, c, 0, Delivery(FIRST, 0, []), C1, Packet(1, STALE));
    TurnsDown(B1, FIRST);
    c := Cast(o, c, 2, Delivery(FIRST, 0, []), F1, Packet(1, EMPTY));
  }

  lemma LearnsTerm()
    ensures Handle(C0, Delivery(FIRST, 0, [])) == Done(C1, [PersistMetadata(1, None), SendMessage(1, STALE)])
    ensures DiskAfter(EMPTY_DISK, [PersistMetadata(1, None), SendMessage(1, STALE)]) == KNOWS
  {
    var r := Handle(C0, Delivery(FIRST, 0, []));
    assert r.actions == [PersistMetadata(1, None)] + [SendMessage(1, STALE)];
    assert [PersistMetadata(1, None), SendMessage(1, STALE)][1..] == [SendMessage(1, STALE)];
    assert [SendMessage(1, STALE)][1..] == [];
    assert DiskAfter(KNOWS, [SendMessage(1, STALE)]) == DiskAfter(KNOWS, []);
  }

  /** Node 1 when it has answered node 0. */
  function Answering(first: seq<Bytes>, rest: seq<Bytes>): Node {
    Taken(Committed(first), first + rest).(nextIndex := map[0 := 1, 2 := |first| + 2])
  }

  /** The leader takes proposals, brings node 2 up to date and commits; takes more proposals; and answers node 0. */
  lemma Ships(first: seq<Bytes>, rest: seq<Bytes>) returns (o: Cluster, c: Cluster)
    ensures Initial(TRIO, o) && Scene(o, c, C1, Answering(first, rest), Caught(first), KNOWS)
    ensures Packet(0, FIRST) in c.net && Packet(0, WholeLog(first + rest, |first| + 1)) in c.net
  {
    hide Handle, Leads, Moves, Plain, SentBy, LogOf, Initial, DiskAfter;
    o, c := BothBehind();
    StartsBlank();
    c := TakesAllProposals(o, c, C1, A2, F1, KNOWS, first, 0);
    c := BringsUp(o, c, first);
    assert (first + rest)[..|first|] == first;
    c := TakesAllProposals(o, c, C1, Committed(first), Caught(first), KNOWS, first + rest, |first|);
    var n := Taken(Committed(first), first + rest);
    ReachesBack(n, STALE, Answering(first, rest).nextIndex);
    c := Cast(o, c, 1, Delivery(STALE, 0, []), Answering(first, rest), Packet(0, WholeLog(first + rest, |first| + 1)));
  }

  /** In particular the messages are those of a reachable cluster. */
  lemma ShipsReachable(first: seq<Bytes>, rest: seq<Bytes>) returns (c: Cluster)
    ensures Reachable(TRIO, c)
    ensures Packet(0, FIRST) in c.net && Packet(0, WholeLog(first + rest, |first| + 1)) in c.net
  {
    hide Leads, Initial, Reachable;
    var o;
    o, c := Ships(first, rest);
    StartsRun(TRIO, o);
    ReachesOn(TRIO, true, o, c);
  }

  lemma StartsBlank()
    ensures LogOf([]) == [NoOp(1)] && Taken(A2, []) == A2
  {
  }

  lemma BringsUp(o: Cluster, c: Cluster, first: seq<Bytes>) returns (c': Cluster)
    requires Scene(o, c, C1, Taken(A2, first), F1, KNOWS) && Packet(1, EMPTY) in c.net
    ensures Scene(o, c', C1, Committed(first), Caught(first), KNOWS) && c.net <= c'.net
  {
    hide Handle, Leads, Moves, Plain, SentBy, LogOf, DiskAfter;
    ReachesBack(Taken(A2, first), EMPTY, Reaching2(first).nextIndex);
    c' := Cast(o, c, 1, Delivery(EMPTY, 0, []), Reaching2(first), Packet(2, WholeLog(first, 0)));
    CatchesUp(first);
    c' := Cast(o, c', 2, Delivery(WholeLog(first, 0), 0, []), Caught(first), Packet(1, Holding(|first| + 1)));
    CommitsAll(first);
    c' := Play(o, c', 1, Delivery(Holding(|first| + 1), 0, []), Committed(first));
  }
}
