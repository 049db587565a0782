/** In guarded runs an AppendEntries of a higher term never matches at a leader. A new leader first offers what
    follows the blank entry of its own term, and goes further back only for a peer that has answered in that term; a
    node that has answered is no longer leader of an older one. So a deposed leader applies nothing on the way out. */
module Deposed {
  import opened RaftTypes
  import opened RaftNode
  import opened Storage
  import opened Durability
  import opened Process
  import opened History
  import opened Cluster
  import opened Elections
  import opened ElectionSteps
  import opened Replication
  import opened ReplicationSteps
  import opened Safety

  /** Node i has answered an AppendEntries while in term t. */
  ghost predicate Answered(net: set<Packet>, i: NodeId, t: nat) {
    exists x :: x in net && x.message.AppendEntriesResponse? && x.message.id == i && x.message.term == t
  }

  /** Entries follow one of the sender's own term, unless the target has answered in that term. */
  ghost predicate FollowsOwn(net: set<Packet>, target: NodeId, m: Message) {
    m.AppendEntries? ==> m.prevTerm == m.term || Answered(net, target, m.term)
  }

  /** The entry before the peer's next one is of the leader's own term. */
  ghost predicate OwnBefore(n: Node, p: NodeId) {
    p in n.nextIndex && 2 <= n.nextIndex[p] <= |n.log| + 1 && n.log[n.nextIndex[p] - 2].term == n.currentTerm
  }

  ghost predicate LeadsOwn(n: Node, net: set<Packet>) {
    n.role == Leader ==>
      forall p :: p in n.peers ==> p in n.nextIndex && (OwnBefore(n, p) || Answered(net, p, n.currentTerm))
  }

  ghost predicate SendsOwn(n: Node, net: set<Packet>, a: Action) {
    a.SendMessage? ==>
      && FollowsOwn(net, a.target, a.message)
      && (a.message.AppendEntriesResponse? ==> a.message.id == n.id && a.message.term == n.currentTerm)
  }

  ghost predicate AllOwn(n: Node, net: set<Packet>, actions: seq<Action>) {
    forall k :: 0 <= k < |actions| ==> SendsOwn(n, net, actions[k])
  }

  /** A term in which a node has answered is behind it, in memory and on disk. */
  ghost predicate Reached(i: NodeId, p: Process, net: set<Packet>) {
    forall t: nat :: Answered(net, i, t) ==> t <= p.node.currentTerm && t <= DiskTerm(p.disk)
  }

  ghost predicate OwnProcess(i: NodeId, p: Process, net: set<Packet>) {
    LeadsOwn(p.node, net) && AllOwn(p.node, net, p.pending) && Reached(i, p, net)
  }

  ghost predicate OwnInv(c: Cluster) {
    && (forall i :: i in c.procs ==> OwnProcess(i, c.procs[i], c.net))
    && (forall x :: x in c.net ==> FollowsOwn(c.net, x.target, x.message))
  }

  // ----- What a node sends -----

  lemma BuildOwn(n: Node, net: set<Packet>, p: NodeId)
    requires n.snapIndex == 0 && p in n.nextIndex && (OwnBefore(n, p) || Answered(net, p, n.currentTerm))
    ensures SendsOwn(n, net, n.BuildAppendEntries(p))
  {
    hide Answered;
  }

  lemma BuildAllOwn(n: Node, net: set<Packet>)
    requires n.snapIndex == 0 && n.role == Leader && LeadsOwn(n, net)
    ensures AllOwn(n, net, n.AppendToAll())
  {
    hide Node.BuildAppendEntries, SendsOwn, OwnBefore, Answered;
    forall k | 0 <= k < |n.peers| ensures SendsOwn(n, net, n.AppendToAll()[k]) {
      BuildOwn(n, net, n.peers[k]);
    }
  }

  /** The outcome of a handler, as far as this invariant goes. */
  ghost predicate OwnStep(n: Node, r: Step, net: set<Packet>) {
    && r.Done? && r.node.id == n.id && n.currentTerm <= r.node.currentTerm
    && LeadsOwn(r.node, net) && AllOwn(r.node, net, r.actions)
  }

  lemma TickOwn(n: Node, timeout: nat, net: set<Packet>)
    requires n.snapIndex == 0 && LeadsOwn(n, net)
    ensures OwnStep(n, n.Tick(timeout), net)
  {
    hide Answered, Node.AppendToAll, Node.RequestVotes;
    var n1 := n.(ticks := n.ticks + 1);
    if n.role == Leader {
      SameOwn(n, n1, net);
      BuildAllOwn(n1, net);
      SameOwn(n, n1.(ticks := 0), net);
      AllSame(n1, n1.(ticks := 0), net, n1.AppendToAll());
    } else if n1.ticks >= n1.electionTimeout {
      VotesOwn(n1.StandForElection(timeout), net);
    }
  }

  lemma VotesOwn(n: Node, net: set<Packet>)
    ensures AllOwn(n, net, [PersistMetadata(n.currentTerm, n.votedFor)] + n.RequestVotes())
  {
    hide Answered;
  }

  lemma SameOwn(n: Node, n': Node, net: set<Packet>)
    requires LeadsOwn(n, net) && n'.role == n.role && n'.currentTerm == n.currentTerm && n.log <= n'.log
    requires n'.nextIndex == n.nextIndex && n'.peers == n.peers
    ensures LeadsOwn(n', net)
  {
    hide Answered;
    if n.role == Leader {
      forall p | p in n'.peers ensures p in n'.nextIndex && (OwnBefore(n', p) || Answered(net, p, n'.currentTerm)) {
        if OwnBefore(n, p) {
          assert OwnBefore(n', p);
        }
      }
    }
  }

  lemma AllSame(n: Node, n': Node, net: set<Packet>, actions: seq<Action>)
    requires AllOwn(n, net, actions) && n'.id == n.id && n'.currentTerm == n.currentTerm
    ensures AllOwn(n', net, actions)
  {
    hide Answered;
    forall k | 0 <= k < |actions| ensures SendsOwn(n', net, actions[k]) {
      assert SendsOwn(n, net, actions[k]);
    }
  }

  lemma ProposeOwn(n: Node, command: Bytes, net: set<Packet>)
    requires n.snapIndex == 0 && LeadsOwn(n, net)
    ensures OwnStep(n, n.Propose(command), net)
  {
    hide Answered, Node.AppendToAll, LeadsOwn, SendsOwn;
    if n.role == Leader {
      var n1 := n.(log := n.log + [LogEntry(n.currentTerm, command)], ticks := 0);
      SameOwn(n, n1, net);
      BuildAllOwn(n1, net);
      PersistThen(n1, net, n1.AppendToAll(), PersistLogEntries(n1.LastLogIndex(), [LogEntry(n.currentTerm, command)]));
    }
  }

  lemma PersistThen(n: Node, net: set<Packet>, actions: seq<Action>, first: Action)
    requires AllOwn(n, net, actions) && !first.SendMessage?
    ensures AllOwn(n, net, [first] + actions)
  {
    hide FollowsOwn;
    forall k | 0 <= k < |[first] + actions| ensures SendsOwn(n, net, ([first] + actions)[k]) {
      if k > 0 {
        assert ([first] + actions)[k] == actions[k - 1];
      }
    }
  }

  lemma WinOwn(n: Node, m: Message, timeout: nat, net: set<Packet>)
    requires n.snapIndex == 0 && LeadsOwn(n, net) && m.RequestVoteResponse?
    ensures OwnStep(n, n.OnRequestVoteResponse(m, timeout), net)
  {
    hide Answered, Node.AppendToAll, SendsOwn;
    var n1 := n.(votesReceived := n.votesReceived + {m.id});
    if n.role == Candidate && m.granted && |n1.votesReceived| > (|n.peers| + 1) / 2 {
      var w := n1.WinElection(timeout);
      CrownOwn(n1, timeout, net);
      BuildAllOwn(w, net);
      PersistThen(w, net, w.AppendToAll(), PersistLogEntries(w.LastLogIndex(), [LogEntry(n.currentTerm, [])]));
    }
  }

  lemma CrownOwn(n: Node, timeout: nat, net: set<Packet>)
    requires n.snapIndex == 0
    ensures LeadsOwn(n.WinElection(timeout), net)
  {
    hide Answered, SetAll;
    var w := n.WinElection(timeout);
    forall p | p in w.peers ensures p in w.nextIndex && OwnBefore(w, p) {
      assert w.nextIndex[p] == |w.log| + 1;
    }
  }

  // ----- Replication -----

  /** What answering AppendEntries sends is one answer of the node's own term. */
  lemma AppendAnswers(n: Node, m: Message, timeout: nat, net: set<Packet>)
    requires m.AppendEntries? && n.OnAppendEntries(m, timeout).Done?
    ensures AllOwn(n, net, n.OnAppendEntries(m, timeout).actions)
  {
    hide Answered, Node.AppendFrom;
    var f := (if m.term == n.currentTerm && n.role == Candidate then n.(role := Follower) else n);
    if f.Follows(m) {
      var f1 := f.ResetTimer(timeout).(currentLeader := Some(m.leader));
      FromAnswers(f1, m, net);
      AllSame(f1, n, net, f1.AppendFrom(m).actions);
    }
  }

  lemma FromAnswers(n: Node, m: Message, net: set<Packet>)
    requires m.AppendEntries? && n.AppendFrom(m).Done?
    ensures AllOwn(n, net, n.AppendFrom(m).actions)
  {
    hide Answered, Node.FinishAppend;
    if n.Matches(m) {
      var g := n.Merge(m.prevIndex + 1, m.entries).value;
      MergeFrame(n, m.prevIndex + 1, m.entries);
      FinishAnswers(g, m, net);
      AllSame(g, n, net, g.FinishAppend(m).actions);
    }
  }

  lemma FinishAnswers(g: Node, m: Message, net: set<Packet>)
    requires m.AppendEntries? && g.FinishAppend(m).Done?
    ensures AllOwn(g, net, g.FinishAppend(m).actions)
  {
    hide Answered, Node.Slice;
    FinishShape(g, m, g.PersistSuffix(m).value);
  }

  lemma AppendOwn(n: Node, m: Message, timeout: nat, net: set<Packet>)
    requires LeadsOwn(n, net) && m.AppendEntries? && n.OnAppendEntries(m, timeout).Done?
    ensures OwnStep(n, n.OnAppendEntries(m, timeout), net)
  {
    hide Answered, Node.OnAppendEntries, SendsOwn;
    AppendFrame(n, m, timeout);
    AppendAnswers(n, m, timeout, net);
    AppendLeader(n, m, timeout);
    var n' := n.OnAppendEntries(m, timeout).node;
    AllSame(n, n', net, n.OnAppendEntries(m, timeout).actions);
    if n'.role == Leader {
      SameOwn(n, n', net);
    }
  }

  /** An answer delivered to the leader of its term is in the network, so the peer has answered. */
  lemma ResponseOwn(n: Node, m: Message, order: seq<nat>, net: set<Packet>)
    requires n.snapIndex == 0 && n.role == Leader && LeadsOwn(n, net) && m.AppendEntriesResponse?
             && m.term == n.currentTerm
    requires Answered(net, m.id, m.term) && m.id in n.peers && n.OnAppendEntriesResponse(m, order).Done?
    ensures OwnStep(n, n.OnAppendEntriesResponse(m, order), net)
  {
    hide Answered, Node.OnAppendEntriesResponse, SendsOwn;
    ResponseShape(n, m, order);
    ResponseNext(n, m, order);
    var r := n.OnAppendEntriesResponse(m, order);
    assert LeadsOwn(r.node, net) by { NextOwn(n, r.node, m.id, net); }
    if !m.success {
      BuildOwn(r.node, net, m.id);
    } else {
      QuietOwn(r.node, net, r.actions);
    }
  }

  lemma QuietOwn(n: Node, net: set<Packet>, actions: seq<Action>)
    requires forall k :: 0 <= k < |actions| ==> !actions[k].SendMessage?
    ensures AllOwn(n, net, actions)
  {
  }

  lemma NextOwn(n: Node, n': Node, id: NodeId, net: set<Packet>)
    requires LeadsOwn(n, net) && n.role == Leader && n'.role == Leader && n'.log == n.log && n'.peers == n.peers
    requires n'.currentTerm == n.currentTerm && Answered(net, id, n.currentTerm) && id in n'.nextIndex
    requires forall p :: p != id && p in n.nextIndex ==> p in n'.nextIndex && n'.nextIndex[p] == n.nextIndex[p]
    ensures LeadsOwn(n', net)
  {
    hide Answered;
    forall p | p in n'.peers ensures p in n'.nextIndex && (OwnBefore(n', p) || Answered(net, p, n'.currentTerm)) {
      if p != id && OwnBefore(n, p) {
        assert OwnBefore(n', p);
      }
    }
  }

  lemma ResponseNext(n: Node, m: Message, order: seq<nat>)
    requires m.AppendEntriesResponse? && n.OnAppendEntriesResponse(m, order).Done? && m.id in n.nextIndex
    ensures var next := n.OnAppendEntriesResponse(m, order).node.nextIndex;
            && m.id in next && forall p :: p != m.id && p in n.nextIndex ==> p in next && next[p] == n.nextIndex[p]
  {
    hide Node.CommitScan, Node.ReplicatedIndex, Node.ReadyBarriers, Node.Slice, Node.BuildAppendEntries;
  }

  // ----- One step of the cluster -----

  lemma ReactOwn(n: Node, m: Message, timeout: nat, order: seq<nat>, net: set<Packet>)
    requires n.snapIndex == 0 && LeadsOwn(n, net) && n.React(m, timeout, order).Done?
    requires !m.InstallSnapshot? && !m.InstallSnapshotResponse?
    requires m.AppendEntriesResponse? ==> n.role == Leader && m.term == n.currentTerm && m.id in n.peers
                                          && Answered(net, m.id, m.term)
    ensures OwnStep(n, n.React(m, timeout, order), net)
  {
    hide Answered, OwnStep, LeadsOwn;
    match m {
      case RequestVote(_, _, _, _) => VoteOwn(n, m, timeout, net);
      case RequestVoteResponse(_, _, _) => WinOwn(n, m, timeout, net);
      case AppendEntries(_, _, _, _, _, _) => AppendOwn(n, m, timeout, net);
      case AppendEntriesResponse(_, _, _, _, _, _) => ResponseOwn(n, m, order, net);
    }
  }

  lemma VoteOwn(n: Node, m: Message, timeout: nat, net: set<Packet>)
    requires LeadsOwn(n, net) && m.RequestVote?
    ensures OwnStep(n, n.OnRequestVote(m, timeout), net)
  {
    hide Answered, Node.Grants;
    SameOwn(n, n.OnRequestVote(m, timeout).node, net);
  }

  lemma ReceiveOwn(n: Node, m: Message, timeout: nat, order: seq<nat>, net: set<Packet>)
    requires n.snapIndex == 0 && LeadsOwn(n, net) && n.Receive(m, timeout, order).Done?
    requires !m.InstallSnapshot? && !m.InstallSnapshotResponse?
    requires m.AppendEntriesResponse? ==> n.role == Leader && m.term == n.currentTerm && m.id in n.peers
                                          && Answered(net, m.id, m.term)
    ensures OwnStep(n, n.Receive(m, timeout, order), net)
  {
    hide Answered, Node.React, SendsOwn;
    var n1 := n.AdoptTerm(m.term, timeout);
    ReactOwn(n1, m, timeout, order, net);
    var r := n1.React(m, timeout, order);
    if m.term > n.currentTerm {
      PersistThen(r.node, net, r.actions, PersistMetadata(m.term, None));
    } else {
      assert [] + r.actions == r.actions;
    }
  }

  lemma HandleOwn(n: Node, input: Input, net: set<Packet>)
    requires n.snapIndex == 0 && LeadsOwn(n, net) && Handle(n, input).Done?
    requires input.Delivery? ==>
               var m := input.message;
               && !m.InstallSnapshot? && !m.InstallSnapshotResponse?
               && (m.AppendEntriesResponse? ==> n.role == Leader && m.term == n.currentTerm && m.id in n.peers
                                                && Answered(net, m.id, m.term))
    ensures OwnStep(n, Handle(n, input), net)
  {
    hide Answered, OwnStep, LeadsOwn, Node.Receive;
    match input {
      case Timer(timeout) => TickOwn(n, timeout, net);
      case Proposal(command) => ProposeOwn(n, command, net);
      case ReadRequest => ReadOwn(n, net);
      case Delivery(m, timeout, order) => ReceiveOwn(n, m, timeout, order, net);
    }
  }

  lemma ReadOwn(n: Node, net: set<Packet>)
    requires LeadsOwn(n, net)
    ensures OwnStep(n, Done(n.RequestReadBarrier().0, []), net)
  {
    SameOwn(n, n.RequestReadBarrier().0, net);
  }

  /** What a delivery may be, in a state that satisfies the safety invariant. */
  lemma DeliveredIs(cfg: Config, c: Cluster, i: NodeId, m: Message, h: History)
    requires SafeInv(cfg, c, h) && i in c.procs && Packet(i, m) in c.net
    ensures !m.InstallSnapshot? && !m.InstallSnapshotResponse?
    ensures m.AppendEntriesResponse? ==> m.id in c.procs[i].node.peers && Answered(c.net, m.id, m.term)
    ensures m.AppendEntries? ==> LedBy(m, h) && Carried(m, h)
  {
    hide HistoryOk, AckHistoryOk;
    assert MessageOk(cfg.nodes, i, m, h) && ReplicaMessageOk(i, m, h);
    assert ProcessOk(cfg.nodes, i, c.procs[i], h);
    OthersExclude(i, cfg.nodes);
  }

  lemma FeedOwn(cfg: Config, c: Cluster, i: NodeId, input: Input, c': Cluster, h: History)
    requires SafeInv(cfg, c, h) && OwnInv(c) && ClusterStep(cfg, c, i, Feed(input), c')
    requires AppendGuard(c.procs[i].node, Feed(input))
    ensures OwnInv(c')
  {
    hide SafeInv, Answered, LeadsOwn, SendsOwn, Handle;
    var p, p' := c.procs[i], c'.procs[i];
    if input.Delivery? {
      DeliveredIs(cfg, c, i, input.message, h);
    }
    PlainNode(cfg, c, i, h);
    HandleOwn(p.node, input, c.net);
    assert c'.net == c.net;
    forall j | j in c'.procs ensures OwnProcess(j, c'.procs[j], c'.net) {
      assert OwnProcess(j, c.procs[j], c.net);
    }
  }

  lemma PlainNode(cfg: Config, c: Cluster, i: NodeId, h: History)
    requires SafeInv(cfg, c, h) && i in c.procs
    ensures var p := c.procs[i];
            && p.node.snapIndex == 0 && p.node.snapTerm == 0 && p.node.id == i && DurableInv(p)
            && LogOk(p.node.log, p.node.currentTerm, h)
            && (p.pending != [] && p.pending[0].PersistMetadata? ==> p.pending[0].term == p.node.currentTerm)
            && (p.pending != [] ==> !p.pending[0].LoadSnapshot?)
  {
    hide HistoryOk, AckHistoryOk, DurableInv;
    assert ProcessOk(cfg.nodes, i, c.procs[i], h);
  }

  lemma NetGrows(i: NodeId, p: Process, net: set<Packet>, net': set<Packet>)
    requires OwnProcess(i, p, net) && net <= net'
    requires forall t: nat :: Answered(net', i, t) ==>
               Answered(net, i, t) || (t <= p.node.currentTerm && t <= DiskTerm(p.disk))
    ensures OwnProcess(i, p, net')
  {
    forall j: NodeId, t: nat | Answered(net, j, t) ensures Answered(net', j, t) {
      var x :| x in net && x.message.AppendEntriesResponse? && x.message.id == j && x.message.term == t;
      assert x in net';
    }
    hide Answered;
    forall k | 0 <= k < |p.pending| ensures SendsOwn(p.node, net', p.pending[k]) {
      assert SendsOwn(p.node, net, p.pending[k]);
    }
  }

  lemma PacketsGrow(net: set<Packet>, net': set<Packet>, x: Packet)
    requires net <= net' && FollowsOwn(net, x.target, x.message)
    ensures FollowsOwn(net', x.target, x.message)
  {
    if x.message.AppendEntries? && Answered(net, x.target, x.message.term) {
      var y :| y in net && y.message.AppendEntriesResponse? && y.message.id == x.target
               && y.message.term == x.message.term;
      assert y in net';
    }
  }

  /** Who may have answered after one more packet. */
  lemma AnsweredMore(net: set<Packet>, x: Packet, i: NodeId, t: nat)
    requires Answered(net + {x}, i, t)
    ensures Answered(net, i, t) || (x.message.AppendEntriesResponse? && x.message.id == i && x.message.term == t)
  {
    var y :| y in net + {x} && y.message.AppendEntriesResponse? && y.message.id == i && y.message.term == t;
  }

  /** Executing the next action leaves node and invariant alone, and the disk's term moves only to the node's. */
  lemma ExecDisk(i: NodeId, p: Process, p': Process, net: set<Packet>)
    requires OwnProcess(i, p, net) && p.pending != [] && p.node.id == i && DurableInv(p)
    requires p.pending[0].PersistMetadata? ==> p.pending[0].term == p.node.currentTerm
    requires !p.pending[0].LoadSnapshot?
    requires p' == Process(p.node, p.pending[1..], Execute(p.disk, p.pending[0]).disk)
    ensures OwnProcess(i, p', net)
    ensures Reveals(p.pending[0]) ==> DiskTerm(p'.disk) == p.node.currentTerm
  {
    hide Answered, LeadsOwn, SendsOwn;
    assert DiskTerm(p'.disk) == DiskTerm(p.disk) || DiskTerm(p'.disk) == p.node.currentTerm;
    forall k | 0 <= k < |p'.pending| ensures SendsOwn(p'.node, net, p'.pending[k]) {
      assert p'.pending[k] == p.pending[k + 1];
    }
  }

  lemma SentIs(i: NodeId, p: Process)
    requires p.pending != []
    ensures p.pending[0].SendMessage? ==> Sent(i, p, Exec) == {Packet(p.pending[0].target, p.pending[0].message)}
    ensures !p.pending[0].SendMessage? && !p.pending[0].SendInstallSnapshot? ==> Sent(i, p, Exec) == {}
  {
  }

  lemma ExecOwn(cfg: Config, c: Cluster, i: NodeId, c': Cluster, h: History)
    requires SafeInv(cfg, c, h) && OwnInv(c) && ClusterStep(cfg, c, i, Exec, c')
    ensures OwnInv(c')
  {
    hide SafeInv, Answered, LeadsOwn, SendsOwn, DurableInv, Execute, Sent, OwnProcess, FollowsOwn;
    var p, p' := c.procs[i], c'.procs[i];
    PlainNode(cfg, c, i, h);
    NoSnapshots(cfg, c, i, h);
    assert OwnProcess(i, p, c.net);
    ExecDisk(i, p, p', c.net);
    SentIs(i, p);
    if p.pending[0].SendMessage? {
      var x := Packet(p.pending[0].target, p.pending[0].message);
      HeadOwn(i, p, c.net);
      forall j | j in c'.procs ensures OwnProcess(j, c'.procs[j], c'.net) {
        assert OwnProcess(j, c'.procs[j], c.net);
        forall t: nat | Answered(c'.net, j, t)
          ensures Answered(c.net, j, t) || (t <= c'.procs[j].node.currentTerm && t <= DiskTerm(c'.procs[j].disk))
        {
          AnsweredMore(c.net, x, j, t);
        }
        NetGrows(j, c'.procs[j], c.net, c'.net);
      }
      forall y | y in c'.net ensures FollowsOwn(c'.net, y.target, y.message) {
        PacketsGrow(c.net, c'.net, y);
      }
    } else {
      assert c'.net == c.net;
    }
  }

  lemma HeadOwn(i: NodeId, p: Process, net: set<Packet>)
    requires OwnProcess(i, p, net) && p.pending != [] && p.pending[0].SendMessage? && p.node.id == i
    ensures FollowsOwn(net, p.pending[0].target, p.pending[0].message)
    ensures p.pending[0].message.AppendEntriesResponse? ==>
              p.pending[0].message.id == i && p.pending[0].message.term == p.node.currentTerm
    ensures Reveals(p.pending[0])
  {
    assert SendsOwn(p.node, net, p.pending[0]);
  }

  lemma NoSnapshots(cfg: Config, c: Cluster, i: NodeId, h: History)
    requires SafeInv(cfg, c, h) && i in c.procs
    ensures c.procs[i].pending != [] ==> !c.procs[i].pending[0].SendInstallSnapshot?
  {
    hide HistoryOk, AckHistoryOk, Inv, ReplicaOk;
    assert ReplicaProcessOk(i, c.procs[i], h);
    if c.procs[i].pending != [] {
      assert ReplicaActionOk(i, c.procs[i].node, c.procs[i].pending[0], h);
    }
  }

  lemma RestartOwn(cfg: Config, c: Cluster, i: NodeId, timeout: nat, c': Cluster, h: History)
    requires SafeInv(cfg, c, h) && OwnInv(c) && ClusterStep(cfg, c, i, Restart(timeout), c')
    ensures OwnInv(c')
  {
    hide SafeInv, Answered, SendsOwn, FollowsOwn;
    PlainNode(cfg, c, i, h);
    RecoverHolds(cfg, i, timeout, c.procs[i].disk);
    assert c'.net == c.net;
    forall j | j in c'.procs ensures OwnProcess(j, c'.procs[j], c'.net) {
      assert OwnProcess(j, c.procs[j], c.net);
    }
  }

  lemma OwnStepKeeps(cfg: Config, c: Cluster, i: NodeId, e: Event, c': Cluster, h: History)
    requires SafeInv(cfg, c, h) && OwnInv(c) && ClusterStep(cfg, c, i, e, c') && AppendGuard(c.procs[i].node, e)
    ensures OwnInv(c')
  {
    hide SafeInv, OwnInv, AppendGuard;
    match e {
      case Feed(input) => FeedOwn(cfg, c, i, input, c', h);
      case Exec => ExecOwn(cfg, c, i, c', h);
      case Restart(timeout) => RestartOwn(cfg, c, i, timeout, c', h);
    }
  }

  lemma InitialOwn(cfg: Config, c: Cluster)
    requires Initial(cfg, c)
    ensures OwnInv(c)
  {
    forall i | i in c.procs ensures OwnProcess(i, c.procs[i], c.net) {
      var timeout :| c.procs[i] == Boot(cfg, i, timeout);
    }
  }

  lemma {:induction false} OwnUpTo(cfg: Config, states: seq<Cluster>, events: seq<ClusterEvent>, k: nat,
                                   hs: seq<History>)
    requires SafeRun(cfg, states, events) && k < |hs| && Justifies(cfg, states, hs)
    ensures OwnInv(states[k])
  {
    hide OwnInv, SafeInv, ClusterStep, AppendGuard, VoteGuard, Initial, Grows;
    if k == 0 {
      InitialOwn(cfg, states[0]);
    } else {
      OwnUpTo(cfg, states, events, k - 1, hs);
      SafeStepAt(cfg, states, events, k - 1);
      OwnStepKeeps(cfg, states[k - 1], events[k - 1].id, events[k - 1].event, states[k], hs[k - 1]);
    }
  }

  // ----- Theorems -----

  lemma NoMatch(cfg: Config, c: Cluster, i: NodeId, m: Message, h: History)
    requires SafeInv(cfg, c, h) && OwnInv(c) && i in c.procs && Packet(i, m) in c.net
    requires m.AppendEntries? && m.term > c.procs[i].node.currentTerm
    ensures !c.procs[i].node.Matches(m)
  {
    hide SafeInv, LedBy;
    var n := c.procs[i].node;
    DeliveredIs(cfg, c, i, m, h);
    PlainNode(cfg, c, i, h);
    assert OwnProcess(i, c.procs[i], c.net) && FollowsOwn(c.net, i, m);
    assert m.prevTerm == m.term > 0;
    PrevPositive(m, h);
    if m.prevIndex <= |n.log| {
      assert n.log[m.prevIndex - 1].term <= n.currentTerm;
    }
  }

  lemma PrevPositive(m: Message, h: History)
    requires m.AppendEntries? && LedBy(m, h) && m.prevTerm > 0
    ensures m.prevIndex > 0
  {
    hide InReign, CommittedUpTo;
  }

  /** In every guarded run, an AppendEntries of a term a node has not reached does not match at it: it cannot follow
      an entry of that term. */
  lemma HigherTermNeverMatches(cfg: Config, states: seq<Cluster>, events: seq<ClusterEvent>, k: nat, i: NodeId,
                               m: Message)
    requires SafeRun(cfg, states, events) && k < |states| && i in states[k].procs && Packet(i, m) in states[k].net
    requires m.AppendEntries? && m.term > states[k].procs[i].node.currentTerm
    ensures !states[k].procs[i].node.Matches(m)
  {
    hide OwnInv, SafeInv, Node.Matches, Grows;
    var hs := JustifyUpTo(cfg, states, events, k);
    OwnUpTo(cfg, states, events, k, hs);
    NoMatch(cfg, states[k], i, m, hs[k]);
  }

  /** So a leader that loses its role in a call, whatever the input, applies nothing in that call. */
  lemma DeposedAppliesNothing(cfg: Config, states: seq<Cluster>, events: seq<ClusterEvent>, k: nat, i: NodeId,
                              input: Input)
    requires SafeRun(cfg, states, events) && k < |states| && i in states[k].procs
    requires input.Delivery? ==> Packet(i, input.message) in states[k].net
    requires AppendGuard(states[k].procs[i].node, Feed(input)) && states[k].procs[i].node.role == Leader
    requires Handle(states[k].procs[i].node, input).Done? && Handle(states[k].procs[i].node, input).node.role != Leader
    ensures forall j :: 0 <= j < |Handle(states[k].procs[i].node, input).actions| ==>
                          !Handle(states[k].procs[i].node, input).actions[j].ApplyToStateMachine?
  {
    hide SafeRun, Node.React;
    var n := states[k].procs[i].node;
    if input.Delivery? && input.message.term > n.currentTerm {
      if input.message.AppendEntries? {
        HigherTermNeverMatches(cfg, states, events, k, i, input.message);
      }
      QuietAdoption(n, input.message, input.timeout, input.order);
    } else {
      StaysLeader(n, input);
    }
  }

  /** A message of a higher term that does not match and is no append response applies nothing. */
  lemma QuietAdoption(n: Node, m: Message, timeout: nat, order: seq<nat>)
    requires m.term > n.currentTerm && n.Receive(m, timeout, order).Done? && !m.AppendEntriesResponse?
    requires m.AppendEntries? ==> !n.Matches(m)
    ensures forall j :: 0 <= j < |n.Receive(m, timeout, order).actions| ==>
                          !n.Receive(m, timeout, order).actions[j].ApplyToStateMachine?
  {
  }

  lemma StaysLeader(n: Node, input: Input)
    requires n.role == Leader && Handle(n, input).Done? && (input.Delivery? ==> input.message.term <= n.currentTerm)
    ensures Handle(n, input).node.role == Leader
  {
    hide Node.BuildAppendEntries, Node.Slice, Node.CommitScan, Node.ReplicatedIndex, Node.ReadyBarriers, Node.Grants;
  }
}
