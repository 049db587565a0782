/** Leader completeness and state machine safety over every run. */
module Safety {
  import opened RaftTypes
  import opened RaftNode
  import opened Storage
  import opened Process
  import opened History
  import opened Cluster
  import opened Elections
  import opened ElectionSteps
  import opened ElectionSafety
  import opened Replication
  import opened ReplicationSteps

  // ----- Handling a message -----

  lemma VoteCounted(nodes: seq<NodeId>, i: NodeId, n: Node, v: NodeId, d: Disk, h: History)
    requires ReplicaReady(nodes, i, n, d, h) && n.role == Candidate
    requires v in nodes && VotedFor(h, v, n.currentTerm, i)
    ensures ReplicaReady(nodes, i, n.(votesReceived := n.votesReceived + {v}), d, h)
  {
    var n1 := n.(votesReceived := n.votesReceived + {v});
    assert CandidateOk(nodes, i, n1, h);
  }

  lemma ResponseCases(n: Node, m: Message, timeout: nat, i: NodeId, h: History)
    requires m.RequestVoteResponse?
    ensures var n1 := n.(votesReceived := n.votesReceived + {m.id});
            var w := n1.WinElection(timeout);
            var r := n.OnRequestVoteResponse(m, timeout);
            if n.role != Candidate || !m.granted then r == Done(n, []) && AfterFeed(h, i, n, r.node) == h
            else if |n1.votesReceived| > (|n.peers| + 1) / 2 then
              r == Done(w, WinActions(w))
              && AfterFeed(h, i, n, r.node) == Crown(h, n1.currentTerm, i, n1.votesReceived, w.log)
            else r == Done(n1, []) && AfterFeed(h, i, n, r.node) == h
  {
  }

  lemma IdleReplica(nodes: seq<NodeId>, i: NodeId, n: Node, d: Disk, h: History)
    requires ReplicaReady(nodes, i, n, d, h)
    ensures AckHistoryOk(nodes, h) && ReplicaReacted(i, Done(n, []), d, h)
  {
  }

  /** A vote response: a win opens a reign, anything else changes nothing that matters here. */
  lemma VoteResponseReplica(nodes: seq<NodeId>, i: NodeId, n: Node, d: Disk, m: Message, timeout: nat, h: History,
                            h': History)
    requires ReplicaReady(nodes, i, n, d, h) && m.RequestVoteResponse? && HistoryOk(nodes, h') && Grows(h, h')
    requires m.granted && n.role == Candidate ==> DiskLog(d) == n.log
    requires n.role == Candidate && m.granted ==> m.id in nodes && VotedFor(h, m.id, n.currentTerm, i)
    requires h' == AfterFeed(h, i, n, n.OnRequestVoteResponse(m, timeout).node)
    ensures AckHistoryOk(nodes, h') && ReplicaReacted(i, n.OnRequestVoteResponse(m, timeout), d, h')
  {
    hide *;
    ResponseCases(n, m, timeout, i, h);
    if n.role != Candidate || !m.granted {
      IdleReplica(nodes, i, n, d, h);
    } else {
      var n1 := n.(votesReceived := n.votesReceived + {m.id});
      VoteCounted(nodes, i, n, m.id, d, h);
      if |n1.votesReceived| > (|n.peers| + 1) / 2 {
        WinReplica(nodes, i, n1, d, timeout, h, h');
      } else {
        IdleReplica(nodes, i, n1, d, h);
      }
    }
  }

  /** How handling an input moves the history, including a commit by the leader. */
  ghost predicate Committed(h1: History, h2: History) {
    h2 == h1 || exists t: nat, c: nat :: h2 == Commit(h1, t, c)
  }

  lemma ResponseReplica(nodes: seq<NodeId>, i: NodeId, n: Node, d: Disk, m: Message, order: seq<nat>, h: History)
    returns (h': History)
    requires Distinct(nodes)
    requires ReplicaReady(nodes, i, n, d, h) && DiskLog(d) == n.log && m.AppendEntriesResponse?
    requires n.role == Leader && m.term == n.currentTerm && (!m.success ==> m.conflictIndex.Some?)
    requires m.id in nodes && ReplicaMessageOk(i, m, h)
    ensures AckHistoryOk(nodes, h') && ReplicaReacted(i, n.OnAppendEntriesResponse(m, order), d, h')
    ensures Committed(h, h') && Grows(h, h')
  {
    if m.success {
      var n1 := n.NoteReplicated(m);
      NoteReplica(nodes, i, n, d, m, h);
      ResponseNodeOk(nodes, i, n, d, n1, h);
      h' := AdvanceReplica(nodes, i, n1, d, order, h);
    } else {
      h' := h;
      RejectReplica(nodes, i, n, d, m, h);
    }
  }

  /** Messages other than vote responses leave the history of reigns alone. */
  lemma SteadyHistory(nodes: seq<NodeId>, i: NodeId, n: Node, m: Message, timeout: nat, order: seq<nat>, h: History)
    requires n.React(m, timeout, order).Done? && MessageOk(nodes, i, m, h) && !m.RequestVoteResponse?
    ensures AfterFeed(h, i, n, n.React(m, timeout, order).node) == h
  {
    LeaderSteady(nodes, i, n, m, timeout, order, h);
  }

  lemma ReactReplica(nodes: seq<NodeId>, i: NodeId, n: Node, d: Disk, m: Message, timeout: nat, order: seq<nat>,
                     h: History, h1: History) returns (h2: History)
    requires Distinct(nodes)
    requires ReplicaReady(nodes, i, n, d, h) && m.term <= n.currentTerm && n.React(m, timeout, order).Done?
    requires MessageOk(nodes, i, m, h) && ReplicaMessageOk(i, m, h)
    requires m.RequestVoteResponse? && m.granted && n.role == Candidate ==>
               DiskLog(d) == n.log && m.term == n.currentTerm
    requires m.AppendEntriesResponse? ==> DiskLog(d) == n.log && n.role == Leader && m.term == n.currentTerm
                                          && (!m.success ==> m.conflictIndex.Some?)
    requires h1 == AfterFeed(h, i, n, n.React(m, timeout, order).node) && HistoryOk(nodes, h1) && Grows(h, h1)
    ensures AckHistoryOk(nodes, h2) && ReplicaReacted(i, n.React(m, timeout, order), d, h2)
    ensures Committed(h1, h2) && Grows(h1, h2)
  {
    h2 := h1;
    if m.RequestVoteResponse? {
      VoteResponseReplica(nodes, i, n, d, m, timeout, h, h1);
    } else {
      SteadyHistory(nodes, i, n, m, timeout, order, h);
      match m {
        case RequestVote(_, _, _, _) => VoteReplica(nodes, i, n, d, m, timeout, h);
        case AppendEntries(_, _, _, _, _, _) => AppendReplica(nodes, i, n, d, m, timeout, h);
        case AppendEntriesResponse(_, _, _, _, _, _) => h2 := ResponseReplica(nodes, i, n, d, m, order, h);
      }
    }
  }

  /** Adopting a term first only adds a metadata write. */
  lemma PrependReplica(i: NodeId, n: Node, pre: seq<Action>, actions: seq<Action>, h: History)
    requires ReplicaPendingOk(i, n, actions, h) && forall k :: 0 <= k < |pre| ==> pre[k].PersistMetadata?
    ensures ReplicaPendingOk(i, n, pre + actions, h)
  {
    forall k | 0 <= k < |pre + actions| ensures ReplicaActionOk(i, n, (pre + actions)[k], h) {
      if k >= |pre| {
        assert (pre + actions)[k] == actions[k - |pre|];
      }
    }
  }

  lemma AdoptedReady(nodes: seq<NodeId>, i: NodeId, n: Node, d: Disk, t: nat, timeout: nat, h: History)
    requires Ready(nodes, i, n, d, [], h) && AckHistoryOk(nodes, h) && ReplicaOk(i, n, d, h)
    ensures ReplicaReady(nodes, i, n.AdoptTerm(t, timeout), d, h)
    ensures DiskLog(d) == n.AdoptTerm(t, timeout).log && t <= n.AdoptTerm(t, timeout).currentTerm
  {
    AdoptReady(nodes, i, n, d, t, timeout, h);
    AdoptReplica(i, n, d, t, timeout, h);
  }

  lemma ReceiveIs(nodes: seq<NodeId>, i: NodeId, n: Node, m: Message, timeout: nat, order: seq<nat>, h: History)
    requires n.Receive(m, timeout, order).Done? && MessageOk(nodes, i, m, h)
    ensures var n1 := n.AdoptTerm(m.term, timeout); var r := n1.React(m, timeout, order);
            && r.Done? && n.Receive(m, timeout, order) == Done(r.node, n.AdoptActions(m.term) + r.actions)
            && AfterFeed(h, i, n, r.node) == AfterFeed(h, i, n1, r.node)
            && (m.term <= n.currentTerm ==> n1 == n)
            && (forall k :: 0 <= k < |n.AdoptActions(m.term)| ==> n.AdoptActions(m.term)[k].PersistMetadata?)
  {
    var n1 := n.AdoptTerm(m.term, timeout);
    if n1 != n {
      StaysFollower(n1, m, timeout, order);
    }
  }

  lemma ReceiveReplica(nodes: seq<NodeId>, i: NodeId, n: Node, d: Disk, m: Message, timeout: nat, order: seq<nat>,
                       h: History, h1: History) returns (h2: History)
    requires Distinct(nodes) && n.Receive(m, timeout, order).Done?
    requires Ready(nodes, i, n, d, [], h) && AckHistoryOk(nodes, h) && ReplicaOk(i, n, d, h)
    requires MessageOk(nodes, i, m, h) && ReplicaMessageOk(i, m, h)
    requires VoteGuard(n, Feed(Delivery(m, timeout, order))) && AppendGuard(n, Feed(Delivery(m, timeout, order)))
    requires h1 == AfterFeed(h, i, n, n.Receive(m, timeout, order).node) && HistoryOk(nodes, h1) && Grows(h, h1)
    ensures AckHistoryOk(nodes, h2) && ReplicaReacted(i, n.Receive(m, timeout, order), d, h2)
    ensures Committed(h1, h2) && Grows(h1, h2)
  {
    var n1 := n.AdoptTerm(m.term, timeout);
    AdoptedReady(nodes, i, n, d, m.term, timeout, h);
    ReceiveIs(nodes, i, n, m, timeout, order, h);
    h2 := ReactReplica(nodes, i, n1, d, m, timeout, order, h, h1);
    var r := n1.React(m, timeout, order);
    PrependReplica(i, r.node, n.AdoptActions(m.term), r.actions, h2);
  }

  lemma TickSteady(n: Node, timeout: nat, i: NodeId, h: History)
    ensures AfterFeed(h, i, n, n.Tick(timeout).node) == h
  {
  }

  lemma FeedReplica(nodes: seq<NodeId>, i: NodeId, n: Node, d: Disk, input: Input, h: History, h1: History)
    returns (h2: History)
    requires Distinct(nodes) && Handle(n, input).Done?
    requires Ready(nodes, i, n, d, [], h) && AckHistoryOk(nodes, h) && ReplicaOk(i, n, d, h)
    requires input.Delivery? ==> MessageOk(nodes, i, input.message, h) && ReplicaMessageOk(i, input.message, h)
    requires VoteGuard(n, Feed(input)) && AppendGuard(n, Feed(input))
    requires h1 == AfterFeed(h, i, n, Handle(n, input).node) && HistoryOk(nodes, h1) && Grows(h, h1)
    ensures AckHistoryOk(nodes, h2) && ReplicaReacted(i, Handle(n, input), d, h2)
    ensures Committed(h1, h2) && Grows(h1, h2)
  {
    h2 := h1;
    match input {
      case Timer(timeout) =>
        TickSteady(n, timeout, i, h);
        TickReplica(nodes, i, n, d, timeout, h);
      case Proposal(command) =>
        if n.role == Leader {
          ProposeReplica(nodes, i, n, d, command, h, h1);
        }
      case ReadRequest =>
      case Delivery(m, timeout, order) => h2 := ReceiveReplica(nodes, i, n, d, m, timeout, order, h, h1);
    }
  }

  // ----- Executing an action -----

  /** The acknowledgements an action makes durable: a leader's own log, or a follower's success. */
  function Acked(i: NodeId, n: Node, a: Action): set<(NodeId, nat, nat)> {
    if a.PersistLogEntries? && n.role == Leader then AckedUpTo(i, n.currentTerm, |n.log|)
    else if a.SendMessage? && a.message.AppendEntriesResponse? && a.message.success then
      AckedUpTo(i, a.message.term, a.message.matchIndex)
    else {}
  }

  function AckedUpTo(i: NodeId, t: nat, m: nat): set<(NodeId, nat, nat)> {
    set k: nat | k <= m :: (i, t, k)
  }

  function Ack(h: History, acks: set<(NodeId, nat, nat)>): History {
    h.(acks := h.acks + acks)
  }

  /** A node acknowledges only what its disk holds in the term it is in, and it has not voted later. */
  lemma AckHistory(nodes: seq<NodeId>, i: NodeId, n: Node, d: Disk, m: nat, h: History)
    requires AckHistoryOk(nodes, h) && HistoryOk(nodes, h) && NodeOk(nodes, i, n, d, h) && Holds(d, n)
    requires InReign(h, n.currentTerm, m)
    ensures var h' := Ack(h, AckedUpTo(i, n.currentTerm, m)); AckHistoryOk(nodes, h') && GrowsBy(h, h', i)
  {
    var h' := Ack(h, AckedUpTo(i, n.currentTerm, m));
    forall v: NodeId, t: nat, k: nat, u: nat | (v, t, k) in h'.acks && (v, u) in h'.votes && t < u
      ensures Held(h'.votes[(v, u)].log, t, k, u, h')
    {
      HeldSame(h.votes[(v, u)].log, t, k, u, h, h');
    }
    forall v: NodeId, t: nat, k: nat, u: nat | (v, t, k) in h'.acks && Elected(h', v, u) && t < u
      ensures Held(h'.votes[(v, u)].log, t, k, u - 1, h')
    {
      assert Elected(h, v, u);
      HeldSame(h.votes[(v, u)].log, t, k, u - 1, h, h');
    }
    forall t: nat, c: nat | (t, c) in h'.commits ensures CommitOk(nodes, h', t, c) {
      CommitGrows(nodes, h, h', t, c);
    }
  }

  lemma AckKept(nodes: seq<NodeId>, i: NodeId, log: seq<LogEntry>, term: nat, m: nat, h: History)
    requires AcksKept(i, log, term, h) && HistoryOk(nodes, h)
    requires InReign(h, term, m) && Front(h, term, m) <= log
    ensures AcksKept(i, log, term, Ack(h, AckedUpTo(i, term, m)))
  {
    var h' := Ack(h, AckedUpTo(i, term, m));
    forall t: nat, k: nat | (i, t, k) in h'.acks ensures t <= term && Held(log, t, k, term, h') {
      if (i, t, k) in h.acks {
        HeldSame(log, t, k, term, h, h');
      } else {
        assert Front(h', term, k) <= Front(h, term, m);
      }
    }
  }

  lemma AckReplica(nodes: seq<NodeId>, i: NodeId, n: Node, d: Disk, m: nat, h: History)
    requires HistoryOk(nodes, h) && ReplicaOk(i, n, d, h) && Holds(d, n)
    requires InReign(h, n.currentTerm, m) && Front(h, n.currentTerm, m) <= n.log
    ensures ReplicaOk(i, n, d, Ack(h, AckedUpTo(i, n.currentTerm, m)))
  {
    var h' := Ack(h, AckedUpTo(i, n.currentTerm, m));
    AckKept(nodes, i, n.log, n.currentTerm, m, h);
    assert Grows(h, h');
    CommittedGrows(n.log, n.commitIndex, n.currentTerm, h, h');
  }

  /** A vote is cast with a log that holds everything acknowledged so far. */
  lemma CastHistory(nodes: seq<NodeId>, i: NodeId, log: seq<LogEntry>, t: nat, c: NodeId, h: History)
    requires AckHistoryOk(nodes, h) && HistoryOk(nodes, h) && AcksKept(i, log, t, h) && (i, t) !in h.votes
    ensures AckHistoryOk(nodes, Cast(h, i, t, c, log))
  {
    var h' := Cast(h, i, t, c, log);
    assert Grows(h, h');
    forall v: NodeId, s: nat, k: nat, u: nat | (v, s, k) in h'.acks && (v, u) in h'.votes && s < u
      ensures Held(h'.votes[(v, u)].log, s, k, u, h')
    {
      HeldSame(h'.votes[(v, u)].log, s, k, u, h, h');
    }
    forall v: NodeId, s: nat, k: nat, u: nat | (v, s, k) in h'.acks && Elected(h', v, u) && s < u
      ensures Held(h'.votes[(v, u)].log, s, k, u - 1, h')
    {
      assert ReignOk(nodes, h, u) && VotedFor(h, v, u, h.reigns[u].leader);
      assert Elected(h, v, u);
      HeldSame(h.votes[(v, u)].log, s, k, u - 1, h, h');
    }
    forall s: nat, m: nat | (s, m) in h'.commits ensures CommitOk(nodes, h', s, m) {
      CommitGrows(nodes, h, h', s, m);
    }
  }

  lemma MetadataReplica(nodes: seq<NodeId>, i: NodeId, n: Node, d: Disk, v: Option<NodeId>, h: History, h': History)
    requires ReplicaReady(nodes, i, n, d, h) && GrowsBy(h, h', i)
    requires h' == h || (v.Some? && h' == Cast(h, i, n.currentTerm, v.value, n.log))
    ensures AckHistoryOk(nodes, h')
    ensures ReplicaOk(i, n, d.(meta := Some(Metadata(n.currentTerm, v))), h')
  {
    var d' := d.(meta := Some(Metadata(n.currentTerm, v)));
    if h' != h {
      CastHistory(nodes, i, n.log, n.currentTerm, v.value, h);
    }
    AcksGrow(nodes, i, n.log, n.currentTerm, h, h');
    AcksGrow(nodes, i, DiskLog(d), DiskTerm(d), h, h');
    AcksLater(i, DiskLog(d), DiskTerm(d), n.currentTerm, h');
    assert DiskLog(d') == DiskLog(d);
    CommittedGrows(n.log, n.commitIndex, n.currentTerm, h, h');
  }

  /** The new log is on disk: a leader has thereby acknowledged it to itself. */
  lemma StoreReplica(nodes: seq<NodeId>, i: NodeId, n: Node, d: Disk, d': Disk, h: History) returns (h': History)
    requires ReplicaReady(nodes, i, n, d, h) && NodeOk(nodes, i, n, d', h) && Holds(d', n)
    ensures AckHistoryOk(nodes, h') && ReplicaOk(i, n, d', h') && GrowsBy(h, h', i)
    ensures h' == if n.role == Leader then Ack(h, AckedUpTo(i, n.currentTerm, |n.log|)) else h
  {
    if n.role == Leader {
      h' := Ack(h, AckedUpTo(i, n.currentTerm, |n.log|));
      AckHistory(nodes, i, n, d', |n.log|, h);
      AckKept(nodes, i, n.log, n.currentTerm, |n.log|, h);
      CommittedGrows(n.log, n.commitIndex, n.currentTerm, h, h');
      assert ProgressOk(n.peers, n.matchIndex, n.currentTerm, h');
      assert (i, n.currentTerm, |n.log|) in h'.acks;
    } else {
      h' := h;
    }
  }

  lemma SendReplica(nodes: seq<NodeId>, i: NodeId, n: Node, d: Disk, target: NodeId, m: Message, h: History)
    returns (h': History)
    requires ReplicaReady(nodes, i, n, d, h) && Holds(d, n) && SendOk(i, n, target, m, h)
             && ReplicaSendOk(i, n, target, m, h)
    ensures AckHistoryOk(nodes, h') && ReplicaOk(i, n, d, h') && GrowsBy(h, h', i)
    ensures h' == Ack(h, Acked(i, n, SendMessage(target, m)))
    ensures ReplicaMessageOk(target, m, h')
  {
    hide HistoryOk, AckHistoryOk, NodeOk, DiskOk;
    h' := Ack(h, Acked(i, n, SendMessage(target, m)));
    if m.AppendEntriesResponse? && m.success {
      assert Front(h, n.currentTerm, |n.log|) == n.log;
      AckHistory(nodes, i, n, d, |n.log|, h);
      AckReplica(nodes, i, n, d, |n.log|, h);
    } else {
      assert h' == h;
    }
  }

  // ----- One step of the cluster -----

  /** Acknowledgements and commits are not part of the election invariant. */
  lemma ProcessSame(nodes: seq<NodeId>, j: NodeId, p: Process, h: History, h': History)
    requires ProcessOk(nodes, j, p, h) && Grows(h, h') && h'.votes == h.votes && h'.reigns == h.reigns
    ensures ProcessOk(nodes, j, p, h')
  {
    LogGrows(p.node.log, p.node.currentTerm, h, h');
    LogGrows(DiskLog(p.disk), DiskTerm(p.disk), h, h');
    PendingGrows(j, p.node, p.disk, p.pending, h, h');
  }

  lemma HistorySame(nodes: seq<NodeId>, h: History, h': History)
    requires HistoryOk(nodes, h) && Grows(h, h') && h'.votes == h.votes && h'.reigns == h.reigns
    ensures HistoryOk(nodes, h')
  {
    forall v: NodeId, t: nat | (v, t) in h'.votes ensures VoteOk(nodes, h', v, t) {
      VoteGrows(nodes, h, h', v, t);
    }
    forall t | t in h'.reigns ensures ReignOk(nodes, h', t) {
      assert ReignOk(nodes, h, t);
    }
  }

  /** What a step of node i must leave behind. */
  ghost predicate Kept(cfg: Config, i: NodeId, p: Process, e: Event, p': Process, h: History, h': History) {
    && GrowsBy(h, h', i) && HistoryOk(cfg.nodes, h') && AckHistoryOk(cfg.nodes, h')
    && ProcessOk(cfg.nodes, i, p', h') && ReplicaProcessOk(i, p', h')
    && forall x :: x in Sent(i, p, e) ==>
         MessageOk(cfg.nodes, x.target, x.message, h') && ReplicaMessageOk(x.target, x.message, h')
  }

  ghost predicate Before(cfg: Config, i: NodeId, p: Process, h: History) {
    && HistoryOk(cfg.nodes, h) && AckHistoryOk(cfg.nodes, h)
    && ProcessOk(cfg.nodes, i, p, h) && ReplicaProcessOk(i, p, h)
  }

  lemma ExecTail(i: NodeId, n: Node, pending: seq<Action>, h: History, h': History)
    requires ReplicaPendingOk(i, n, pending, h) && Grows(h, h') && pending != []
    ensures ReplicaPendingOk(i, n, pending[1..], h')
  {
    ReplicaPendingGrows(i, n, pending, h, h');
    forall k | 0 <= k < |pending[1..]| ensures ReplicaActionOk(i, n, pending[1..][k], h') {
      assert pending[1..][k] == pending[k + 1];
    }
  }

  /** The replication half of executing an action, on top of what the election half recorded. */
  lemma ExecReplica(cfg: Config, i: NodeId, p: Process, p': Process, h: History, h1: History) returns (h2: History)
    requires Before(cfg, i, p, h) && Next(cfg, i, p, Exec, p') && GrowsBy(h, h1, i)
    requires ProcessOk(cfg.nodes, i, p', h1) && HistoryOk(cfg.nodes, h1)
    requires h1 == h || (p.pending[0].PersistMetadata? && p.pending[0].votedFor.Some?
                         && h1 == Cast(h, i, p.pending[0].term, p.pending[0].votedFor.value, p.node.log))
    ensures AckHistoryOk(cfg.nodes, h2) && ReplicaOk(i, p'.node, p'.disk, h2) && GrowsBy(h, h2, i)
    ensures Grows(h1, h2) && h2.votes == h1.votes && h2.reigns == h1.reigns
    ensures p.pending[0].SendMessage? ==> ReplicaMessageOk(p.pending[0].target, p.pending[0].message, h2)
  {
    var a := p.pending[0];
    assert ActionOk(i, p.node, p.disk, true, a, h) && ReplicaActionOk(i, p.node, a, h);
    h2 := h1;
    match a {
      case PersistMetadata(t, v) => MetadataReplica(cfg.nodes, i, p.node, p.disk, v, h, h1);
      case PersistLogEntries(_, _) =>
        RunStore(cfg.nodes, i, p, p', h);
        h2 := StoreReplica(cfg.nodes, i, p.node, p.disk, p'.disk, h);
      case SendMessage(target, m) => h2 := SendReplica(cfg.nodes, i, p.node, p.disk, target, m, h);
      case _ =>
    }
  }

  lemma ExecKept(cfg: Config, i: NodeId, p: Process, p': Process, h: History) returns (h': History)
    requires Before(cfg, i, p, h) && Next(cfg, i, p, Exec, p')
    ensures Kept(cfg, i, p, Exec, p', h, h')
  {
    var h1 := RunKeeps(cfg, i, p, p', h);
    h' := ExecReplica(cfg, i, p, p', h, h1);
    ProcessSame(cfg.nodes, i, p', h1, h');
    HistorySame(cfg.nodes, h1, h');
    ExecTail(i, p.node, p.pending, h, h');
    SentOk(cfg, i, p, h, h1, h');
  }

  lemma SentOk(cfg: Config, i: NodeId, p: Process, h: History, h1: History, h': History)
    requires p.pending != [] && p.disk.snapshot.None? && Grows(h1, h')
    requires forall x :: x in Sent(i, p, Exec) ==> MessageOk(cfg.nodes, x.target, x.message, h1)
    requires p.pending[0].SendMessage? ==> ReplicaMessageOk(p.pending[0].target, p.pending[0].message, h')
    ensures forall x :: x in Sent(i, p, Exec) ==>
              MessageOk(cfg.nodes, x.target, x.message, h') && ReplicaMessageOk(x.target, x.message, h')
  {
    forall x | x in Sent(i, p, Exec)
      ensures MessageOk(cfg.nodes, x.target, x.message, h') && ReplicaMessageOk(x.target, x.message, h')
    {
      MessageGrows(cfg.nodes, x.target, x.message, h1, h');
    }
  }

  lemma RestartKept(cfg: Config, i: NodeId, p: Process, timeout: nat, p': Process, h: History)
    requires Before(cfg, i, p, h) && Next(cfg, i, p, Restart(timeout), p')
    ensures Kept(cfg, i, p, Restart(timeout), p', h, h)
  {
    RestartKeeps(cfg, i, p, timeout, p', h);
    RecoverHolds(cfg, i, timeout, p.disk);
  }

  lemma FeedParts(cfg: Config, i: NodeId, p: Process, input: Input, p': Process, h: History)
    requires Before(cfg, i, p, h) && Next(cfg, i, p, Feed(input), p')
    ensures Handle(p.node, input).Done?
            && p' == Process(Handle(p.node, input).node, Handle(p.node, input).actions, p.disk)
    ensures Ready(cfg.nodes, i, p.node, p.disk, [], h) && AckHistoryOk(cfg.nodes, h) && ReplicaOk(i, p.node, p.disk, h)
    ensures HistoryOk(cfg.nodes, h) && ProcessOk(cfg.nodes, i, p, h)
  {
  }

  lemma CommittedSameBy(h: History, h1: History, h2: History, i: NodeId)
    requires GrowsBy(h, h1, i) && Committed(h1, h2) && Grows(h1, h2)
    ensures GrowsBy(h, h2, i) && h2.votes == h1.votes && h2.reigns == h1.reigns && Grows(h, h1)
  {
    GrowsTransitive(h, h1, h2);
  }

  lemma FeedAssemble(cfg: Config, i: NodeId, p: Process, input: Input, p': Process, h: History, h': History)
    requires GrowsBy(h, h', i) && HistoryOk(cfg.nodes, h') && AckHistoryOk(cfg.nodes, h')
    requires ProcessOk(cfg.nodes, i, p', h') && ReplicaReacted(i, Done(p'.node, p'.pending), p'.disk, h')
    ensures Kept(cfg, i, p, Feed(input), p', h, h')
  {
  }

  lemma FeedKept(cfg: Config, i: NodeId, p: Process, input: Input, p': Process, h: History) returns (h': History)
    requires Distinct(cfg.nodes)
    requires Before(cfg, i, p, h) && Next(cfg, i, p, Feed(input), p')
    requires input.Delivery? ==> MessageOk(cfg.nodes, i, input.message, h) && ReplicaMessageOk(i, input.message, h)
    requires VoteGuard(p.node, Feed(input)) && AppendGuard(p.node, Feed(input))
    ensures Kept(cfg, i, p, Feed(input), p', h, h')
  {
    hide *;
    FeedParts(cfg, i, p, input, p', h);
    var h1 := InputKeeps(cfg, i, p, input, p', h);
    CommittedRefl(h1);
    CommittedSameBy(h, h1, h1, i);
    h' := FeedReplica(cfg.nodes, i, p.node, p.disk, input, h, h1);
    CommittedSameBy(h, h1, h', i);
    ProcessSame(cfg.nodes, i, p', h1, h');
    HistorySame(cfg.nodes, h1, h');
    FeedAssemble(cfg, i, p, input, p', h, h');
  }

  lemma CommittedRefl(h: History)
    ensures Committed(h, h) && Grows(h, h)
  {
  }

  lemma SafeStep(cfg: Config, c: Cluster, i: NodeId, e: Event, c': Cluster, h: History) returns (h': History)
    requires Distinct(cfg.nodes) && SafeInv(cfg, c, h) && ClusterStep(cfg, c, i, e, c')
    requires VoteGuard(c.procs[i].node, e) && AppendGuard(c.procs[i].node, e)
    ensures SafeInv(cfg, c', h') && Grows(h, h')
  {
    var p, p' := c.procs[i], c'.procs[i];
    assert ProcessOk(cfg.nodes, i, p, h) && ReplicaProcessOk(i, p, h);
    match e {
      case Feed(input) => h' := FeedKept(cfg, i, p, input, p', h);
      case Exec => h' := ExecKept(cfg, i, p, p', h);
      case Restart(timeout) =>
        h' := h;
        RestartKept(cfg, i, p, timeout, p', h);
    }
    SafeGrows(cfg, c, i, e, c', h, h');
  }

  lemma SafeGrows(cfg: Config, c: Cluster, i: NodeId, e: Event, c': Cluster, h: History, h': History)
    requires SafeInv(cfg, c, h) && ClusterStep(cfg, c, i, e, c') && Kept(cfg, i, c.procs[i], e, c'.procs[i], h, h')
    ensures SafeInv(cfg, c', h')
  {
    hide ReplicaProcessOk, ReplicaMessageOk, ProcessOk, MessageOk, HistoryOk, AckHistoryOk, Next, Grows;
    InvGrows(cfg, c, i, e, c', h, h');
    forall j | j in c'.procs ensures ReplicaProcessOk(j, c'.procs[j], h') {
      if j != i {
        ReplicaGrows(cfg.nodes, j, c.procs[j], h, h', i);
      }
    }
    forall x | x in c'.net ensures ReplicaMessageOk(x.target, x.message, h') {
      if x in c.net {
        ReplicaMessageGrows(x.target, x.message, h, h');
      }
    }
  }

  lemma InitialSafe(cfg: Config, c: Cluster)
    requires Initial(cfg, c)
    ensures SafeInv(cfg, c, EMPTY_HISTORY)
  {
    InitialInv(cfg, c);
    forall i | i in c.procs ensures ReplicaProcessOk(i, c.procs[i], EMPTY_HISTORY) {
      var timeout :| c.procs[i] == Boot(cfg, i, timeout);
    }
  }

  // ----- Runs -----

  /** The runs the safety theorems speak of: no stale votes counted, no stale append responses delivered. */
  ghost predicate SafeRun(cfg: Config, states: seq<Cluster>, events: seq<ClusterEvent>) {
    && Distinct(cfg.nodes)
    && ClusterRun(cfg, states, events) && VoteGuarded(states, events) && AppendGuarded(states, events)
  }

  ghost predicate Justifies(cfg: Config, states: seq<Cluster>, hs: seq<History>) {
    && |hs| <= |states|
    && (forall k :: 0 <= k < |hs| ==> SafeInv(cfg, states[k], hs[k]))
    && (forall j, k :: 0 <= j <= k < |hs| ==> Grows(hs[j], hs[k]))
  }

  lemma SafeStepAt(cfg: Config, states: seq<Cluster>, events: seq<ClusterEvent>, k: nat)
    requires SafeRun(cfg, states, events) && k < |events|
    ensures ClusterStep(cfg, states[k], events[k].id, events[k].event, states[k + 1])
    ensures VoteGuard(states[k].procs[events[k].id].node, events[k].event)
    ensures AppendGuard(states[k].procs[events[k].id].node, events[k].event)
  {
    assert ClusterStep(cfg, states[k], events[k].id, events[k].event, states[k + 1]);
  }

  lemma JustifyMore(cfg: Config, states: seq<Cluster>, hs: seq<History>, h: History)
    requires Justifies(cfg, states, hs) && 0 < |hs| < |states| && SafeInv(cfg, states[|hs|], h)
    requires Grows(hs[|hs| - 1], h)
    ensures Justifies(cfg, states, hs + [h])
  {
    var hs' := hs + [h];
    forall j, k | 0 <= j <= k < |hs'| ensures Grows(hs'[j], hs'[k]) {
      if j < k == |hs| {
        GrowsTransitive(hs[j], hs[|hs| - 1], h);
      } else if k < |hs| {
        assert Grows(hs[j], hs[k]);
      }
    }
  }

  lemma {:induction false} JustifyUpTo(cfg: Config, states: seq<Cluster>, events: seq<ClusterEvent>, k: nat)
    returns (hs: seq<History>)
    requires SafeRun(cfg, states, events) && k < |states|
    ensures |hs| == k + 1 && Justifies(cfg, states, hs)
  {
    hide SafeInv, ClusterStep, VoteGuard, AppendGuard, Initial, Grows, GrowsBy;
    if k == 0 {
      InitialSafe(cfg, states[0]);
      GrowsSelf(EMPTY_HISTORY);
      hs := [EMPTY_HISTORY];
    } else {
      hs := JustifyUpTo(cfg, states, events, k - 1);
      SafeStepAt(cfg, states, events, k - 1);
      var h := SafeStep(cfg, states[k - 1], events[k - 1].id, events[k - 1].event, states[k], hs[k - 1]);
      JustifyMore(cfg, states, hs, h);
      hs := hs + [h];
    }
  }

  /** Two moments of a run seen through one history that covers both. */
  lemma TwoMoments(cfg: Config, states: seq<Cluster>, events: seq<ClusterEvent>, j: nat, k: nat)
    returns (hj: History, hk: History, h: History)
    requires SafeRun(cfg, states, events) && j < |states| && k < |states|
    ensures SafeInv(cfg, states[j], hj) && SafeInv(cfg, states[k], hk) && Grows(hj, h) && Grows(hk, h)
    ensures HistoryOk(cfg.nodes, h) && AckHistoryOk(cfg.nodes, h)
  {
    var hs := JustifyUpTo(cfg, states, events, |states| - 1);
    var last := |states| - 1;
    hj, hk, h := hs[j], hs[k], hs[last];
    assert Grows(hs[j], hs[last]) && Grows(hs[k], hs[last]);
    assert SafeInv(cfg, states[last], hs[last]);
  }

  // ----- Theorems -----

  lemma LeaderFacts(cfg: Config, c: Cluster, i: NodeId, h: History)
    requires SafeInv(cfg, c, h) && i in c.procs && c.procs[i].node.role == Leader
    ensures var n := c.procs[i].node;
            && n.currentTerm in h.reigns && h.reigns[n.currentTerm].log == n.log
            && n.log != [] && LastTerm(n.log) == n.currentTerm
            && CommitIndexOk(n, h)
  {
    assert ProcessOk(cfg.nodes, i, c.procs[i], h) && ReplicaProcessOk(i, c.procs[i], h);
    ReignShape(cfg.nodes, h, c.procs[i].node.currentTerm);
  }

  /** A commit recorded for a log that holds an entry of its last term at the commit index is by that term. */
  lemma OwnTermCommit(nodes: seq<NodeId>, log: seq<LogEntry>, m: nat, term: nat, h: History)
    requires HistoryOk(nodes, h) && 0 < m <= |log| && log[m - 1].term == term && CommittedUpTo(log, m, term, h)
    ensures exists k: nat :: m <= k && (term, k) in h.commits && InReign(h, term, k)
                             && log[..m] == h.reigns[term].log[..m]
  {
    var t: nat, k: nat :| CommittedBy(log, m, term, h, t, k);
    ReignShape(nodes, h, t);
    assert log[m - 1] == log[..m][m - 1] == h.reigns[t].log[m - 1];
    assert t == term;
  }

  /** Leader completeness: once a leader's commit index stands on an entry of its own term, that entry and
      its whole prefix are in the log of every leader of a later term, at any moment of the run. */
  lemma LeaderCompleteness(cfg: Config, states: seq<Cluster>, events: seq<ClusterEvent>, j: nat, k: nat, a: NodeId,
                           b: NodeId)
    requires SafeRun(cfg, states, events) && j < |states| && k < |states|
    requires a in states[j].procs && b in states[k].procs
    requires var n := states[j].procs[a].node;
             n.role == Leader && 0 < n.commitIndex <= |n.log| && n.log[n.commitIndex - 1].term == n.currentTerm
    requires states[k].procs[b].node.role == Leader
    requires states[k].procs[b].node.currentTerm > states[j].procs[a].node.currentTerm
    ensures var n := states[j].procs[a].node; n.log[..n.commitIndex] <= states[k].procs[b].node.log
  {
    var n, later := states[j].procs[a].node, states[k].procs[b].node;
    var hj, hk, h := TwoMoments(cfg, states, events, j, k);
    LeaderFacts(cfg, states[j], a, hj);
    LeaderFacts(cfg, states[k], b, hk);
    CommittedGrows(n.log, n.commitIndex, n.currentTerm, hj, h);
    CompletenessAt(cfg.nodes, n.log, n.commitIndex, n.currentTerm, later.log, h);
  }

  lemma CompletenessAt(nodes: seq<NodeId>, log: seq<LogEntry>, c: nat, term: nat, later: seq<LogEntry>, h: History)
    requires HistoryOk(nodes, h) && AckHistoryOk(nodes, h) && 0 < c <= |log| && log[c - 1].term == term
    requires CommittedUpTo(log, c, term, h)
    requires later != [] && term < LastTerm(later) && LastTerm(later) in h.reigns
    requires later <= h.reigns[LastTerm(later)].log
    ensures log[..c] <= later
  {
    OwnTermCommit(nodes, log, c, term, h);
    var k: nat :| c <= k && (term, k) in h.commits && InReign(h, term, k) && log[..c] == h.reigns[term].log[..c];
    CommitKept(nodes, h, term, k, LastTerm(later));
    LongEnough(nodes, h, term, k, later);
    assert log[..c] == Front(h, term, k)[..c];
  }

  /** Two committed indices name the same command wherever both cover an index. */
  lemma CommitsAgree(nodes: seq<NodeId>, h: History, index: nat, x: Bytes, y: Bytes)
    requires HistoryOk(nodes, h) && AckHistoryOk(nodes, h) && AppliedOk(index, x, h) && AppliedOk(index, y, h)
    ensures x == y
  {
    var t: nat, m: nat :| AppliedBy(index, x, h, t, m);
    var u: nat, k: nat :| AppliedBy(index, y, h, u, k);
    if t < u {
      CommitKept(nodes, h, t, m, u);
      assert Front(h, t, m)[index - 1] == h.reigns[u].log[index - 1];
    } else if u < t {
      CommitKept(nodes, h, u, k, t);
      assert Front(h, u, k)[index - 1] == h.reigns[t].log[index - 1];
    }
  }

  /** State machine safety: no two nodes, nor one node before and after a crash, ever emit different commands
      for the same index. */
  lemma StateMachineSafety(cfg: Config, states: seq<Cluster>, events: seq<ClusterEvent>, j: nat, k: nat,
                           a: NodeId, b: NodeId, index: nat, x: Bytes, y: Bytes)
    requires SafeRun(cfg, states, events) && j < |states| && k < |states|
    requires a in states[j].procs && ApplyToStateMachine(index, x) in states[j].procs[a].pending
    requires b in states[k].procs && ApplyToStateMachine(index, y) in states[k].procs[b].pending
    ensures x == y
  {
    var hj, hk, h := TwoMoments(cfg, states, events, j, k);
    EmittedApplied(cfg, states[j], a, index, x, hj);
    EmittedApplied(cfg, states[k], b, index, y, hk);
    AppliedGrows(index, x, hj, h);
    AppliedGrows(index, y, hk, h);
    CommitsAgree(cfg.nodes, h, index, x, y);
  }

  lemma EmittedApplied(cfg: Config, c: Cluster, i: NodeId, index: nat, command: Bytes, h: History)
    requires SafeInv(cfg, c, h) && i in c.procs && ApplyToStateMachine(index, command) in c.procs[i].pending
    ensures AppliedOk(index, command, h)
  {
    assert ReplicaProcessOk(i, c.procs[i], h);
    var k :| 0 <= k < |c.procs[i].pending| && c.procs[i].pending[k] == ApplyToStateMachine(index, command);
    assert ReplicaActionOk(i, c.procs[i].node, c.procs[i].pending[k], h);
  }

  /** Truthful match index: a success a node is about to send names its whole log, and that log is a prefix
      of the log of the leader it answers, then and ever after. */
  lemma TruthfulMatchIndex(cfg: Config, states: seq<Cluster>, events: seq<ClusterEvent>, j: nat, k: nat,
                           v: NodeId, leader: NodeId, target: NodeId, m: Message)
    requires SafeRun(cfg, states, events) && j <= k < |states|
    requires v in states[j].procs && SendMessage(target, m) in states[j].procs[v].pending
    requires m.AppendEntriesResponse? && m.success
    requires leader in states[k].procs && states[k].procs[leader].node.role == Leader
    requires states[k].procs[leader].node.currentTerm == m.term
    ensures m.matchIndex == |states[j].procs[v].node.log|
    ensures states[j].procs[v].node.log <= states[k].procs[leader].node.log
  {
    var hs := JustifyUpTo(cfg, states, events, k);
    assert SafeInv(cfg, states[j], hs[j]) && SafeInv(cfg, states[k], hs[k]) && Grows(hs[j], hs[k]);
    assert ReplicaProcessOk(v, states[j].procs[v], hs[j]);
    var x :| 0 <= x < |states[j].procs[v].pending| && states[j].procs[v].pending[x] == SendMessage(target, m);
    assert ReplicaActionOk(v, states[j].procs[v].node, states[j].procs[v].pending[x], hs[j]);
    LeaderFacts(cfg, states[k], leader, hs[k]);
  }

  /** Committed prefixes of any two nodes at any two moments agree as far as both reach. */
  lemma CommittedPrefixesAgree(cfg: Config, states: seq<Cluster>, events: seq<ClusterEvent>, j: nat, k: nat,
                               a: NodeId, b: NodeId, c: nat)
    requires SafeRun(cfg, states, events) && j < |states| && k < |states|
    requires a in states[j].procs && b in states[k].procs
    requires c <= states[j].procs[a].node.commitIndex && c <= states[k].procs[b].node.commitIndex
    ensures c <= |states[j].procs[a].node.log| && c <= |states[k].procs[b].node.log|
    ensures states[j].procs[a].node.log[..c] == states[k].procs[b].node.log[..c]
  {
    var hj, hk, h := TwoMoments(cfg, states, events, j, k);
    assert ReplicaProcessOk(a, states[j].procs[a], hj) && ReplicaProcessOk(b, states[k].procs[b], hk);
    var n, o := states[j].procs[a].node, states[k].procs[b].node;
    CommittedGrows(n.log, n.commitIndex, n.currentTerm, hj, h);
    CommittedGrows(o.log, o.commitIndex, o.currentTerm, hk, h);
    CommittedLess(n.log, n.commitIndex, c, n.currentTerm, h);
    CommittedLess(o.log, o.commitIndex, c, o.currentTerm, h);
    PrefixesAgree(cfg.nodes, n.log, o.log, c, n.currentTerm, o.currentTerm, h);
  }

  lemma PrefixesAgree(nodes: seq<NodeId>, x: seq<LogEntry>, y: seq<LogEntry>, c: nat, bx: nat, by0: nat, h: History)
    requires HistoryOk(nodes, h) && AckHistoryOk(nodes, h) && c <= |x| && c <= |y|
    requires CommittedUpTo(x, c, bx, h) && CommittedUpTo(y, c, by0, h)
    ensures x[..c] == y[..c]
  {
    hide HistoryOk, AckHistoryOk, CommittedBy;
    if c > 0 {
      var t: nat, m: nat :| CommittedBy(x, c, bx, h, t, m);
      var u: nat, k: nat :| CommittedBy(y, c, by0, h, u, k);
      if t <= u {
        OnLater(nodes, x, c, bx, h, t, m, y, by0, u, k);
      } else {
        OnLater(nodes, y, c, by0, h, u, k, x, bx, t, m);
      }
    }
  }

  lemma OnLater(nodes: seq<NodeId>, x: seq<LogEntry>, c: nat, bx: nat, h: History, t: nat, m: nat,
                y: seq<LogEntry>, by0: nat, u: nat, k: nat)
    requires HistoryOk(nodes, h) && AckHistoryOk(nodes, h) && c <= |x| && c <= |y| && t <= u
    requires CommittedBy(x, c, bx, h, t, m) && CommittedBy(y, c, by0, h, u, k)
    ensures x[..c] == y[..c]
  {
    hide HistoryOk, AckHistoryOk;
    if t < u {
      assert CommitOk(nodes, h, t, m) by { CommitIsOk(nodes, h, t, m); }
      CommitKept(nodes, h, t, m, u);
      PrefixTake(Front(h, t, m), h.reigns[u].log, c);
      PrefixTake(Front(h, t, m), h.reigns[t].log, c);
    }
  }

  lemma CommitIsOk(nodes: seq<NodeId>, h: History, t: nat, m: nat)
    requires AckHistoryOk(nodes, h) && (t, m) in h.commits
    ensures CommitOk(nodes, h, t, m)
  {
    hide CommitOk;
  }

  lemma PrefixTake(a: seq<LogEntry>, b: seq<LogEntry>, c: nat)
    requires a <= b && c <= |a|
    ensures a[..c] == b[..c]
  {
  }
}
