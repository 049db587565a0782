/** Each input keeps the election invariant of the node that handles it. */
module ElectionSteps {
  import opened RaftTypes
  import opened RaftNode
  import opened Frames
  import opened Logs
  import opened Storage
  import opened Durability
  import opened Process
  import opened History
  import opened Cluster
  import opened Elections

  // ----- Action lists -----

  ghost predicate TailQuiet(actions: seq<Action>) {
    forall j, k :: 0 <= j < k < |actions| && actions[j].PersistLogEntries? ==> !Persists(actions[k])
  }

  ghost predicate ActionsOk(i: NodeId, n: Node, d: Disk, actions: seq<Action>, h: History) {
    forall k :: 0 <= k < |actions| ==> ActionOk(i, n, d, false, actions[k], h)
  }

  /** The write of a freshly adopted term, if any, that precedes a handler's own actions. */
  ghost predicate Adopted(n: Node, d: Disk, pre: seq<Action>) {
    pre == [] || (pre == [PersistMetadata(n.currentTerm, None)] && DiskTerm(d) < n.currentTerm)
  }

  lemma JoinPending(i: NodeId, n: Node, d: Disk, pre: seq<Action>, actions: seq<Action>, h: History)
    requires Adopted(n, d, pre) && ActionsOk(i, n, d, actions, h) && TailQuiet(actions)
    ensures PendingOk(i, n, d, pre + actions, h)
  {
    var all := pre + actions;
    forall k | 0 <= k < |all| ensures ActionOk(i, n, d, k == 0, all[k], h) {
      if k >= |pre| {
        assert all[k] == actions[k - |pre|];
        assert ActionOk(i, n, d, false, actions[k - |pre|], h);
      }
    }
    forall j, k | 0 <= j < k < |all| && all[j].PersistLogEntries? ensures !Persists(all[k]) {
      assert j >= |pre| && all[j] == actions[j - |pre|] && all[k] == actions[k - |pre|];
    }
  }

  // ----- Without a snapshot the log index functions are the plain ones -----

  lemma PlainLog(n: Node)
    requires n.snapIndex == 0 && n.snapTerm == 0
    ensures n.LastLogIndex() == |n.log| && n.LastLogTerm() == LastTerm(n.log)
    ensures forall k: nat :: k <= |n.log| ==> n.TermAt(k) == Some(LastTerm(n.log[..k]))
    ensures forall k: nat :: k > |n.log| ==> n.TermAt(k) == None
  {
  }

  lemma PlainBuild(n: Node, peer: NodeId)
    requires n.snapIndex == 0 && n.snapTerm == 0
    ensures var a := n.BuildAppendEntries(peer); var next := n.NextFor(peer); var prev := n.PrevFor(peer);
            if prev > |n.log| then a.SendInstallSnapshot?
            else a == SendMessage(peer, AppendEntries(n.currentTerm, n.id, prev, LastTerm(n.log[..prev]),
                                                      if next == 0 then [] else n.log[prev..], n.commitIndex))
  {
    hide Node.Slice, Node.TermAt, LastTerm;
    var next, prev := n.NextFor(peer), n.PrevFor(peer);
    PlainTerm(n, prev);
    if prev <= |n.log| {
      PlainSlice(n, next);
    }
  }

  lemma PlainTerm(n: Node, i: nat)
    requires n.snapIndex == 0 && n.snapTerm == 0
    ensures n.TermAt(i) == if i <= |n.log| then Some(LastTerm(n.log[..i])) else None
  {
  }

  lemma PlainSlice(n: Node, from: nat)
    requires n.snapIndex == 0 && from <= |n.log| + 1
    ensures n.Slice(from, n.LastLogIndex() + 1) == Some(if from == 0 then [] else n.log[from - 1..])
  {
    TakeAll(n.log);
  }

  lemma BuildOk(i: NodeId, n: Node, d: Disk, peer: NodeId, h: History)
    requires n.snapIndex == 0 && n.snapTerm == 0 && n.currentTerm > 0 && LogOk(n.log, n.currentTerm, h)
    ensures ActionOk(i, n, d, false, n.BuildAppendEntries(peer), h)
  {
    PlainBuild(n, peer);
    var a := n.BuildAppendEntries(peer);
    if a.SendMessage? {
      if n.NextFor(peer) == 0 {
        assert CarriedBy([], a.message, h);
      } else {
        assert CarriedBy(n.log, a.message, h);
      }
    }
  }

  lemma BuildAllOk(i: NodeId, n: Node, d: Disk, h: History)
    requires n.snapIndex == 0 && n.snapTerm == 0 && n.currentTerm > 0 && LogOk(n.log, n.currentTerm, h)
    ensures ActionsOk(i, n, d, n.AppendToAll(), h)
  {
    forall k | 0 <= k < |n.peers| ensures ActionOk(i, n, d, false, n.AppendToAll()[k], h) {
      BuildOk(i, n, d, n.peers[k], h);
    }
  }

  /** The context in which a node starts to react: its own state is fine and it may owe the disk a term. */
  ghost predicate Ready(nodes: seq<NodeId>, i: NodeId, n: Node, d: Disk, pre: seq<Action>, h: History) {
    && NodeOk(nodes, i, n, d, h) && HistoryOk(nodes, h) && RealTerm(n)
    && Adopted(n, d, pre)
    && (pre == [] ==> Holds(d, n))
  }

  /** What a reaction has to establish. */
  ghost predicate Reacted(nodes: seq<NodeId>, i: NodeId, r: Step, d: Disk, pre: seq<Action>, h: History, h': History) {
    && r.Done?
    && NodeOk(nodes, i, r.node, d, h')
    && PendingOk(i, r.node, d, pre + r.actions, h')
    && HistoryOk(nodes, h') && GrowsBy(h, h', i)
  }

  lemma AdoptReady(nodes: seq<NodeId>, i: NodeId, n: Node, d: Disk, t: nat, timeout: nat, h: History)
    requires NodeOk(nodes, i, n, d, h) && HistoryOk(nodes, h) && RealTerm(n) && Holds(d, n)
    ensures Ready(nodes, i, n.AdoptTerm(t, timeout), d, n.AdoptActions(t), h)
    ensures n.AdoptTerm(t, timeout).currentTerm >= t
  {
  }

  // ----- RequestVote -----

  lemma VoteReacts(nodes: seq<NodeId>, i: NodeId, n: Node, d: Disk, pre: seq<Action>, m: Message, timeout: nat,
                   h: History)
    requires Ready(nodes, i, n, d, pre, h) && m.RequestVote? && m.term <= n.currentTerm
    requires MessageOk(nodes, i, m, h)
    ensures Reacted(nodes, i, n.OnRequestVote(m, timeout), d, pre, h, h)
  {
    var r := n.OnRequestVote(m, timeout);
    PlainLog(n);
    assert TailQuiet(r.actions);
    JoinPending(i, r.node, d, pre, r.actions, h);
  }

  // ----- RequestVoteResponse -----

  lemma VoteResponseReacts(nodes: seq<NodeId>, i: NodeId, n: Node, d: Disk, pre: seq<Action>, m: Message, timeout: nat,
                           h: History) returns (h': History)
    requires Distinct(nodes)
    requires Ready(nodes, i, n, d, pre, h) && m.RequestVoteResponse? && m.term <= n.currentTerm
    requires MessageOk(nodes, i, m, h)
    requires m.granted && n.role == Candidate ==> pre == [] && m.term == n.currentTerm
    ensures Reacted(nodes, i, n.OnRequestVoteResponse(m, timeout), d, pre, h, h')
    ensures h' == AfterFeed(h, i, n, n.OnRequestVoteResponse(m, timeout).node)
  {
    var r := n.OnRequestVoteResponse(m, timeout);
    if n.role != Candidate || !m.granted {
      h' := h;
      JoinPending(i, r.node, d, pre, r.actions, h);
    } else {
      var n1 := n.(votesReceived := n.votesReceived + {m.id});
      assert CandidateOk(nodes, i, n1, h);
      if |n1.votesReceived| > (|n.peers| + 1) / 2 {
        h' := WinReacts(nodes, i, n1, d, timeout, h);
        assert pre + r.actions == r.actions;
      } else {
        h' := h;
        JoinPending(i, r.node, d, pre, r.actions, h);
      }
    }
  }

  lemma {:induction false} OthersSize(i: NodeId, nodes: seq<NodeId>)
    requires Distinct(nodes)
    ensures |Others(i, nodes)| == |NodeSet(nodes)| - if i in nodes then 1 else 0
    ensures |NodeSet(nodes)| == |nodes|
  {
    if nodes == [] {
      assert NodeSet(nodes) == {};
    } else {
      var rest := nodes[1..];
      OthersSize(i, rest);
      assert nodes[0] !in NodeSet(rest);
      assert NodeSet(nodes) == NodeSet(rest) + {nodes[0]};
      assert i in nodes <==> i == nodes[0] || i in rest;
    }
  }

  function WinActions(w: Node): seq<Action> {
    [PersistLogEntries(w.LastLogIndex(), [LogEntry(w.currentTerm, [])])] + w.AppendToAll()
  }

  /** A majority of votes in hand means a durable own vote and a term without a leader. */
  lemma WinQuorum(nodes: seq<NodeId>, i: NodeId, n: Node, d: Disk, h: History)
    requires Distinct(nodes) && Ready(nodes, i, n, d, [], h) && n.role == Candidate
    requires |n.votesReceived| > (|n.peers| + 1) / 2
    ensures n.currentTerm > 0 && n.currentTerm !in h.reigns
    ensures n.votesReceived <= NodeSet(nodes) && 2 * |n.votesReceived| > |NodeSet(nodes)|
    ensures forall v :: v in n.votesReceived ==> VotedFor(h, v, n.currentTerm, i)
    ensures (i, n.currentTerm) in h.votes && h.votes[(i, n.currentTerm)] == Vote(i, n.log)
  {
    OthersSize(i, nodes);
    assert CandidateOk(nodes, i, n, h);
    NoSecondReign(nodes, h, n.currentTerm, i, n.votesReceived);
  }

  lemma WinActionsOk(nodes: seq<NodeId>, i: NodeId, w: Node, d: Disk, h: History)
    requires NodeOk(nodes, i, w, d, h) && w.currentTerm > 0
    ensures PendingOk(i, w, d, [] + WinActions(w), h)
  {
    BuildAllOk(i, w, d, h);
    var actions := WinActions(w);
    var all := w.AppendToAll();
    forall k | 0 <= k < |actions| ensures ActionOk(i, w, d, false, actions[k], h) {
      if k > 0 {
        assert actions[k] == all[k - 1];
      }
    }
    JoinPending(i, w, d, [], actions, h);
  }

  lemma WinReacts(nodes: seq<NodeId>, i: NodeId, n: Node, d: Disk, timeout: nat, h: History) returns (h': History)
    requires Distinct(nodes) && Ready(nodes, i, n, d, [], h) && n.role == Candidate
    requires |n.votesReceived| > (|n.peers| + 1) / 2
    ensures var w := n.WinElection(timeout); Reacted(nodes, i, Done(w, WinActions(w)), d, [], h, h')
    ensures h' == Crown(h, n.currentTerm, i, n.votesReceived, n.WinElection(timeout).log)
    ensures n.currentTerm !in h.reigns
  {
    var w := n.WinElection(timeout);
    h' := Crown(h, n.currentTerm, i, n.votesReceived, w.log);
    WinQuorum(nodes, i, n, d, h);
    CrownOk(nodes, h, n.currentTerm, i, n.votesReceived, LogEntry(n.currentTerm, []));
    WinLog(nodes, i, n, d, w, h, h');
    WinActionsOk(nodes, i, w, d, h');
  }

  lemma WinLog(nodes: seq<NodeId>, i: NodeId, n: Node, d: Disk, w: Node, h: History, h': History)
    requires NodeOk(nodes, i, n, d, h) && GrowsBy(h, h', i)
    requires w.log == n.log + [LogEntry(n.currentTerm, [])] && w.role == Leader
    requires w.currentTerm == n.currentTerm && w.votedFor == n.votedFor && Static(nodes, i, w)
    requires n.currentTerm in h'.reigns && h'.reigns[n.currentTerm].leader == i
    requires h'.reigns[n.currentTerm].log == w.log && h'.votes == h.votes
    ensures NodeOk(nodes, i, w, d, h')
  {
    LogGrows(n.log, n.currentTerm, h, h');
    LogGrows(DiskLog(d), DiskTerm(d), h, h');
    CoherentAppend(n.log, LogEntry(n.currentTerm, []), h');
  }

  // ----- AppendEntries -----

  /** A rejection that names an index names one at or below the previous index it was asked about. */
  ghost predicate IsRejection(n: Node, m: Message, a: Action)
    requires m.AppendEntries?
  {
    && a.SendMessage? && a.target == m.leader && a.message.AppendEntriesResponse?
    && a.message.id == n.id && a.message.term == n.currentTerm && !a.message.success
    && (a.message.conflictIndex.Some? ==>
          0 < a.message.conflictIndex.value <= m.prevIndex && m.term >= n.currentTerm)
  }

  lemma MismatchShape(n: Node, m: Message)
    requires m.AppendEntries? && m.term >= n.currentTerm
    ensures IsRejection(n, m, n.Mismatch(m))
  {
    FirstOfRunPositive(n, n.TermAt(m.prevIndex).GetOr(0), m.prevIndex);
  }

  /** A refused AppendEntries: nothing but the role and the timer may change, and one rejection is sent. */
  lemma RefuseShape(n: Node, m: Message, timeout: nat)
    requires m.AppendEntries? && !Accepts(n, m)
    ensures var r := n.OnAppendEntries(m, timeout);
            && r.Done? && |r.actions| == 1 && IsRejection(n, m, r.actions[0])
            && r.node == n.(role := r.node.role, ticks := r.node.ticks, electionTimeout := r.node.electionTimeout,
                            currentLeader := r.node.currentLeader)
            && (r.node.role == n.role || r.node.role == Follower)
  {
    var n1 := if m.term == n.currentTerm && n.role == Candidate then n.(role := Follower) else n;
    if n1.Follows(m) {
      var f := n1.ResetTimer(timeout).(currentLeader := Some(m.leader));
      assert !f.Matches(m);
      MismatchShape(f, m);
    }
  }

  lemma {:induction false} FirstOfRunPositive(n: Node, term: nat, index: nat)
    ensures n.FirstOfRun(term, index).Some? ==> 0 < n.FirstOfRun(term, index).value <= index
  {
    if index > 0 {
      FirstOfRunPositive(n, term, index - 1);
    }
  }

  function Answer(g: Node, m: Message): Action
    requires m.AppendEntries?
  {
    SendMessage(m.leader, AppendEntriesResponse(g.id, g.currentTerm, g.LastLogIndex(), true, None, None))
  }

  /** An accepted AppendEntries without a snapshot: the log is merged, the suffix persisted, commits applied. */
  lemma AcceptActions(n: Node, m: Message, timeout: nat)
    requires m.AppendEntries? && Accepts(n, m) && n.snapIndex == 0 && n.OnAppendEntries(m, timeout).Done?
    ensures m.prevIndex <= |n.log|
    ensures var r := n.OnAppendEntries(m, timeout);
            var g := Accepted(n, m, timeout);
            var c := g.FollowCommit(m.leaderCommit);
            && c.Done?
            && r.node == g.(commitIndex := r.node.commitIndex, lastApplied := r.node.lastApplied)
            && r.node == c.node
            && r.actions == (if m.entries == [] then []
                             else [PersistLogEntries(m.prevIndex + 1, g.log[m.prevIndex..])])
                            + (c.actions + [Answer(g, m)])
            && forall k :: 0 <= k < |c.actions| ==> c.actions[k].ApplyToStateMachine?
  {
    AcceptShape(n, m, timeout);
    SuffixShape(n, m, timeout);
    var g := Accepted(n, m, timeout);
    FinishShape(g, m, g.PersistSuffix(m).value);
  }

  /** The follower's log after accepting is its old log or the carried one, both coherent. */
  lemma AcceptLog(n: Node, m: Message, log: seq<LogEntry>, h: History)
    requires m.AppendEntries? && n.Matches(m) && n.snapIndex == 0 && n.snapTerm == 0
    requires Coherent(n.log, h) && CarriedBy(log, m, h)
    ensures m.prevIndex <= |n.log|
    ensures var r := MergeLog(n.log, m.prevIndex, m.entries);
            (r == n.log && log <= n.log) || (r == log && !(log <= n.log))
  {
    var k := m.prevIndex;
    PlainLog(n);
    if k > 0 {
      assert LastTerm(n.log[..k]) == n.log[k - 1].term;
      assert LastTerm(log[..k]) == log[k - 1].term;
      CoherentMatch(n.log, log, k - 1, h);
    }
    MergeCoherent(n.log, log, k, h);
  }

  lemma AcceptActionsOk(i: NodeId, n: Node, d: Disk, persist: seq<Action>, applies: seq<Action>, answer: Action,
                        h: History)
    requires |persist| <= 1 && (persist != [] ==> persist[0].PersistLogEntries?)
    requires forall k :: 0 <= k < |applies| ==> applies[k].ApplyToStateMachine?
    requires !Persists(answer) && ActionOk(i, n, d, false, answer, h)
    ensures var actions := persist + (applies + [answer]); ActionsOk(i, n, d, actions, h) && TailQuiet(actions)
  {
    var actions := persist + (applies + [answer]);
    forall k | 0 <= k < |actions| ensures ActionOk(i, n, d, false, actions[k], h)
      && (k >= |persist| ==> !Persists(actions[k]))
    {
      if k >= |persist| && k - |persist| < |applies| {
        assert actions[k] == applies[k - |persist|];
      }
    }
  }

  lemma AppendReacts(nodes: seq<NodeId>, i: NodeId, n: Node, d: Disk, pre: seq<Action>, m: Message, timeout: nat,
                     h: History)
    requires Ready(nodes, i, n, d, pre, h) && m.AppendEntries? && m.term <= n.currentTerm
    requires MessageOk(nodes, i, m, h) && n.OnAppendEntries(m, timeout).Done?
    ensures Reacted(nodes, i, n.OnAppendEntries(m, timeout), d, pre, h, h)
  {
    var r := n.OnAppendEntries(m, timeout);
    if Accepts(n, m) {
      AcceptReacts(nodes, i, n, d, m, timeout, h);
    } else {
      RefuseShape(n, m, timeout);
      AcceptNodeOk(nodes, i, n, d, r.node, h);
    }
    JoinPending(i, r.node, d, pre, r.actions, h);
  }

  lemma AcceptedLogOk(n: Node, m: Message, term: nat, h: History)
    requires m.AppendEntries? && Accepts(n, m) && n.snapIndex == 0 && n.snapTerm == 0 && m.term == term
    requires LogOk(n.log, term, h) && Carried(m, h)
    ensures m.prevIndex <= |n.log| && LogOk(MergeLog(n.log, m.prevIndex, m.entries), term, h)
  {
    hide MergeLog;
    var log :| CarriedBy(log, m, h);
    AcceptLog(n, m, log, h);
  }

  lemma AcceptReacts(nodes: seq<NodeId>, i: NodeId, n: Node, d: Disk, m: Message, timeout: nat, h: History)
    requires NodeOk(nodes, i, n, d, h) && m.AppendEntries? && m.term == n.currentTerm && Accepts(n, m)
    requires Carried(m, h) && n.OnAppendEntries(m, timeout).Done?
    ensures var r := n.OnAppendEntries(m, timeout);
            && NodeOk(nodes, i, r.node, d, h)
            && ActionsOk(i, r.node, d, r.actions, h) && TailQuiet(r.actions)
            && r.node.currentTerm == n.currentTerm
  {
    hide Node.OnAppendEntries, ActionsOk, TailQuiet, Node.FollowCommit, LogOk, MergeLog, Accepts, HistoryOk;
    var r := n.OnAppendEntries(m, timeout);
    AcceptActions(n, m, timeout);
    var g := Accepted(n, m, timeout);
    AcceptedLogOk(n, m, n.currentTerm, h);
    MergeKeeps(n.log, m.prevIndex, m.entries);
    AcceptNodeOk(nodes, i, n, d, r.node, h);
    var persist := if m.entries == [] then [] else [PersistLogEntries(m.prevIndex + 1, g.log[m.prevIndex..])];
    AcceptActionsOk(i, r.node, d, persist, g.FollowCommit(m.leaderCommit).actions, Answer(g, m), h);
  }

  lemma AcceptNodeOk(nodes: seq<NodeId>, i: NodeId, n: Node, d: Disk, n': Node, h: History)
    requires NodeOk(nodes, i, n, d, h)
    requires n' == n.(role := n'.role, ticks := n'.ticks, electionTimeout := n'.electionTimeout,
                      currentLeader := n'.currentLeader, log := n'.log,
                      commitIndex := n'.commitIndex, lastApplied := n'.lastApplied)
    requires n'.role == Follower || (n'.role == n.role && n'.log == n.log)
    requires LogOk(n'.log, n.currentTerm, h)
    ensures NodeOk(nodes, i, n', d, h)
  {
  }

  // ----- AppendEntriesResponse -----

  lemma ResponseReacts(nodes: seq<NodeId>, i: NodeId, n: Node, d: Disk, pre: seq<Action>, m: Message, order: seq<nat>,
                       h: History)
    requires Ready(nodes, i, n, d, pre, h) && m.AppendEntriesResponse? && m.term <= n.currentTerm
    requires MessageOk(nodes, i, m, h) && n.OnAppendEntriesResponse(m, order).Done?
    ensures Reacted(nodes, i, n.OnAppendEntriesResponse(m, order), d, pre, h, h)
  {
    hide Node.OnAppendEntriesResponse, HistoryOk, LogOk, Node.BuildAppendEntries;
    var r := n.OnAppendEntriesResponse(m, order);
    ResponseShape(n, m, order);
    if !m.success {
      BuildOk(i, r.node, d, m.id, h);
    }
    ResponseNodeOk(nodes, i, n, d, r.node, h);
    JoinPending(i, r.node, d, pre, r.actions, h);
  }

  /** An append response touches only the replication progress, the commit index and the barriers. */
  lemma ResponseShape(n: Node, m: Message, order: seq<nat>)
    requires m.AppendEntriesResponse? && n.OnAppendEntriesResponse(m, order).Done?
    ensures var r := n.OnAppendEntriesResponse(m, order);
            && r.node == n.(matchIndex := r.node.matchIndex, nextIndex := r.node.nextIndex,
                            successCount := r.node.successCount, commitIndex := r.node.commitIndex,
                            lastApplied := r.node.lastApplied, readBarriers := r.node.readBarriers)
            && (!m.success ==> r.actions == [r.node.BuildAppendEntries(m.id)])
            && (m.success ==> forall k :: 0 <= k < |r.actions| ==>
                                            r.actions[k].ApplyToStateMachine? || r.actions[k].ReadBarrierReady?)
  {
    hide Node.CommitScan, Node.ReadyBarriers, Node.ReplicatedIndex, Node.CommitTo, Node.BuildAppendEntries;
    if m.success {
      var n1 := n.NoteReplicated(m);
      var c := n1.CommitScan(n1.commitIndex + 1, n1.ReplicatedIndex(), n1.commitIndex);
      CommitShape(n1, c.value, n1.ReadyBarriers(order));
    }
  }

  lemma CommitShape(n: Node, c: nat, ready: seq<nat>)
    requires n.CommitTo(c, ready).Done?
    ensures var r := n.CommitTo(c, ready);
            && r.node == n.(commitIndex := c, lastApplied := c, readBarriers := r.node.readBarriers)
            && forall k :: 0 <= k < |r.actions| ==>
                             r.actions[k].ApplyToStateMachine? || r.actions[k].ReadBarrierReady?
  {
  }

  lemma ResponseNodeOk(nodes: seq<NodeId>, i: NodeId, n: Node, d: Disk, n': Node, h: History)
    requires NodeOk(nodes, i, n, d, h)
    requires n' == n.(matchIndex := n'.matchIndex, nextIndex := n'.nextIndex,
                      successCount := n'.successCount, commitIndex := n'.commitIndex,
                      lastApplied := n'.lastApplied, readBarriers := n'.readBarriers)
    ensures NodeOk(nodes, i, n', d, h)
  {
  }

  // ----- Timer, proposals, reads -----

  lemma TickReacts(nodes: seq<NodeId>, i: NodeId, n: Node, d: Disk, timeout: nat, h: History)
    requires Ready(nodes, i, n, d, [], h)
    ensures Reacted(nodes, i, n.Tick(timeout), d, [], h, h)
  {
    var n1 := n.(ticks := n.ticks + 1);
    hide *;
    TickReady(nodes, i, n, n1, d, h);
    TickIs(n, timeout);
    if n.role == Leader {
      BeatReacts(nodes, i, n1, d, h);
    } else if n1.ticks >= n1.electionTimeout {
      StandReacts(nodes, i, n1, d, timeout, h);
    } else {
      WaitReacts(nodes, i, n1, d, timeout, h);
    }
  }

  lemma TickIs(n: Node, timeout: nat)
    ensures var n1 := n.(ticks := n.ticks + 1);
            n.Tick(timeout) == if n.role == Leader then n1.Heartbeat() else n1.ElectionTimeout(timeout)
  {
    hide Node.Heartbeat, Node.ElectionTimeout;
  }

  lemma TickReady(nodes: seq<NodeId>, i: NodeId, n: Node, n': Node, d: Disk, h: History)
    requires Ready(nodes, i, n, d, [], h) && n' == n.(ticks := n'.ticks)
    ensures Ready(nodes, i, n', d, [], h)
  {
    hide HistoryOk, DiskOk;
  }

  lemma BeatReacts(nodes: seq<NodeId>, i: NodeId, n: Node, d: Disk, h: History)
    requires Ready(nodes, i, n, d, [], h) && n.role == Leader
    ensures Reacted(nodes, i, n.Heartbeat(), d, [], h, h)
  {
    var r := n.Heartbeat();
    TickReady(nodes, i, n, r.node, d, h);
    BuildAllOk(i, n, d, h);
    SameActions(i, n, r.node, d, r.actions, h);
    JoinPending(i, r.node, d, [], r.actions, h);
    hide HistoryOk, ActionsOk, PendingOk, LogOk;
  }

  lemma WaitReacts(nodes: seq<NodeId>, i: NodeId, n: Node, d: Disk, timeout: nat, h: History)
    requires Ready(nodes, i, n, d, [], h) && n.ticks < n.electionTimeout
    ensures Reacted(nodes, i, n.ElectionTimeout(timeout), d, [], h, h)
  {
    JoinPending(i, n, d, [], [], h);
    hide HistoryOk, NodeOk;
  }

  /** Messages built by a leader do not depend on its timer. */
  lemma SameActions(i: NodeId, n: Node, n': Node, d: Disk, actions: seq<Action>, h: History)
    requires n' == n.(ticks := n'.ticks)
    requires actions == [] || actions == n.AppendToAll()
    requires ActionsOk(i, n, d, n.AppendToAll(), h)
    ensures ActionsOk(i, n', d, actions, h) && TailQuiet(actions)
  {
    forall k | 0 <= k < |actions| ensures ActionOk(i, n', d, false, actions[k], h) && !actions[k].PersistLogEntries? {
      assert ActionOk(i, n, d, false, actions[k], h);
      assert actions[k] == n.BuildAppendEntries(n.peers[k]);
    }
  }

  lemma StandReacts(nodes: seq<NodeId>, i: NodeId, n: Node, d: Disk, timeout: nat, h: History)
    requires Ready(nodes, i, n, d, [], h) && n.ticks >= n.electionTimeout
    ensures Reacted(nodes, i, n.ElectionTimeout(timeout), d, [], h, h)
  {
    var r := n.ElectionTimeout(timeout);
    var t := r.node.currentTerm;
    if t in h.reigns {
      assert ReignOk(nodes, h, t);
    }
    assert CandidateOk(nodes, i, r.node, h);
    PlainLog(r.node);
    forall k | 0 <= k < |r.actions| ensures ActionOk(i, r.node, d, false, r.actions[k], h) {
      if k > 0 {
        assert r.actions[k] == r.node.RequestVotes()[k - 1];
      }
    }
    JoinPending(i, r.node, d, [], r.actions, h);
  }

  lemma ProposeReacts(nodes: seq<NodeId>, i: NodeId, n: Node, d: Disk, command: Bytes, h: History) returns (h': History)
    requires Ready(nodes, i, n, d, [], h)
    ensures Reacted(nodes, i, n.Propose(command), d, [], h, h')
    ensures n.role != Leader ==> h' == h
    ensures n.role == Leader ==> n.currentTerm in h.reigns
                                 && h' == Extend(h, n.currentTerm, n.Propose(command).node.log)
  {
    if n.role != Leader {
      h' := h;
      JoinPending(i, n, d, [], [], h);
    } else {
      var r := n.Propose(command);
      var e := LogEntry(n.currentTerm, command);
      h' := Extend(h, n.currentTerm, n.log + [e]);
      ExtendOk(nodes, h, n.currentTerm, e);
      ProposeNodeOk(nodes, i, n, d, e, r.node, h, h');
      BuildAllOk(i, r.node, d, h');
      ProposeActionsOk(i, r.node, d, r.actions, h');
      JoinPending(i, r.node, d, [], r.actions, h');
    }
  }

  lemma ProposeActionsOk(i: NodeId, n: Node, d: Disk, actions: seq<Action>, h: History)
    requires ActionsOk(i, n, d, n.AppendToAll(), h)
    requires |actions| == 1 + |n.AppendToAll()| && actions[1..] == n.AppendToAll() && actions[0].PersistLogEntries?
    ensures ActionsOk(i, n, d, actions, h) && TailQuiet(actions)
  {
    forall k | 0 < k < |actions| ensures ActionOk(i, n, d, false, actions[k], h) && !Persists(actions[k]) {
      assert actions[k] == actions[1..][k - 1] == n.BuildAppendEntries(n.peers[k - 1]);
      assert ActionOk(i, n, d, false, n.AppendToAll()[k - 1], h);
    }
  }

  lemma ProposeNodeOk(nodes: seq<NodeId>, i: NodeId, n: Node, d: Disk, e: LogEntry, n': Node, h: History, h': History)
    requires NodeOk(nodes, i, n, d, h) && GrowsBy(h, h', i) && n.role == Leader && e.term == n.currentTerm
    requires n' == n.(log := n.log + [e], ticks := n'.ticks)
    requires h'.votes == h.votes && LeaderOk(i, n', h')
    ensures NodeOk(nodes, i, n', d, h')
  {
    LogGrows(n.log, n.currentTerm, h, h');
    LogGrows(DiskLog(d), DiskTerm(d), h, h');
    CoherentAppend(n.log, e, h');
  }

  lemma ReadReacts(nodes: seq<NodeId>, i: NodeId, n: Node, d: Disk, h: History)
    requires Ready(nodes, i, n, d, [], h)
    ensures Reacted(nodes, i, Handle(n, ReadRequest), d, [], h, h)
  {
    JoinPending(i, Handle(n, ReadRequest).node, d, [], [], h);
  }

  // ----- Any input -----

  /** Only a vote makes a leader, and no message changes a leader's log. */
  lemma LeaderSteady(nodes: seq<NodeId>, i: NodeId, n: Node, m: Message, timeout: nat, order: seq<nat>, h: History)
    requires n.React(m, timeout, order).Done? && MessageOk(nodes, i, m, h)
    ensures var n' := n.React(m, timeout, order).node;
            && n'.currentTerm == n.currentTerm
            && (n'.role == Leader && !m.RequestVoteResponse? ==> n.role == Leader && n'.log == n.log)
  {
    ReactRole(n, m, timeout, order);
    if m.AppendEntries? {
      AppendLeader(n, m, timeout);
    } else if m.AppendEntriesResponse? {
      ResponseShape(n, m, order);
    }
  }

  lemma AppendLeader(n: Node, m: Message, timeout: nat)
    requires m.AppendEntries? && n.OnAppendEntries(m, timeout).Done?
    ensures var n' := n.OnAppendEntries(m, timeout).node;
            n'.role == Leader ==> n.role == Leader && n'.log == n.log
  {
    AppendFrame(n, m, timeout);
    if !Accepts(n, m) {
      RefuseShape(n, m, timeout);
    }
  }

  lemma ReactReacts(nodes: seq<NodeId>, i: NodeId, n: Node, d: Disk, pre: seq<Action>, m: Message, timeout: nat,
                    order: seq<nat>, h: History) returns (h': History)
    requires Distinct(nodes)
    requires Ready(nodes, i, n, d, pre, h) && m.term <= n.currentTerm && MessageOk(nodes, i, m, h)
    requires m.RequestVoteResponse? && m.granted && n.role == Candidate ==> pre == [] && m.term == n.currentTerm
    requires n.React(m, timeout, order).Done?
    ensures Reacted(nodes, i, n.React(m, timeout, order), d, pre, h, h')
    ensures h' == AfterFeed(h, i, n, n.React(m, timeout, order).node)
  {
    h' := h;
    LeaderSteady(nodes, i, n, m, timeout, order, h);
    match m {
      case RequestVote(_, _, _, _) => VoteReacts(nodes, i, n, d, pre, m, timeout, h);
      case RequestVoteResponse(_, _, _) => h' := VoteResponseReacts(nodes, i, n, d, pre, m, timeout, h);
      case AppendEntries(_, _, _, _, _, _) => AppendReacts(nodes, i, n, d, pre, m, timeout, h);
      case AppendEntriesResponse(_, _, _, _, _, _) => ResponseReacts(nodes, i, n, d, pre, m, order, h);
    }
  }

  lemma ReceiveReacts(nodes: seq<NodeId>, i: NodeId, n: Node, d: Disk, m: Message, timeout: nat, order: seq<nat>,
                      h: History) returns (h': History)
    requires Distinct(nodes) && Ready(nodes, i, n, d, [], h) && n.Receive(m, timeout, order).Done?
    requires MessageOk(nodes, i, m, h)
    requires m.RequestVoteResponse? && m.granted && n.role == Candidate ==> m.term >= n.currentTerm
    ensures Reacted(nodes, i, n.Receive(m, timeout, order), d, [], h, h')
    ensures h' == AfterFeed(h, i, n, n.Receive(m, timeout, order).node)
  {
    AdoptReady(nodes, i, n, d, m.term, timeout, h);
    var n1 := n.AdoptTerm(m.term, timeout);
    h' := ReactReacts(nodes, i, n1, d, n.AdoptActions(m.term), m, timeout, order, h);
    JoinEmpty(nodes, i, n, d, m, timeout, order, h, h');
    if n1 != n {
      LeaderSteady(nodes, i, n1, m, timeout, order, h);
      StaysFollower(n1, m, timeout, order);
    }
  }

  lemma StaysFollower(n: Node, m: Message, timeout: nat, order: seq<nat>)
    requires n.role == Follower && n.React(m, timeout, order).Done?
    ensures n.React(m, timeout, order).node.role == Follower
  {
    ReactRole(n, m, timeout, order);
  }

  lemma FeedKeeps(nodes: seq<NodeId>, i: NodeId, n: Node, d: Disk, input: Input, h: History) returns (h': History)
    requires Distinct(nodes) && Ready(nodes, i, n, d, [], h) && Handle(n, input).Done?
    requires input.Delivery? ==> MessageOk(nodes, i, input.message, h)
    requires VoteGuard(n, Feed(input))
    ensures Reacted(nodes, i, Handle(n, input), d, [], h, h')
    ensures h' == AfterFeed(h, i, n, Handle(n, input).node)
  {
    match input {
      case Timer(timeout) =>
        TickReacts(nodes, i, n, d, timeout, h);
        h' := h;
      case Proposal(command) => h' := ProposeReacts(nodes, i, n, d, command, h);
      case ReadRequest =>
        ReadReacts(nodes, i, n, d, h);
        h' := h;
      case Delivery(m, timeout, order) => h' := ReceiveReacts(nodes, i, n, d, m, timeout, order, h);
    }
  }

  lemma JoinEmpty(nodes: seq<NodeId>, i: NodeId, n: Node, d: Disk, m: Message, timeout: nat, order: seq<nat>,
                  h: History, h': History)
    requires Reacted(nodes, i, n.AdoptTerm(m.term, timeout).React(m, timeout, order), d, n.AdoptActions(m.term), h, h')
    ensures Reacted(nodes, i, n.Receive(m, timeout, order), d, [], h, h')
  {
    var r := n.AdoptTerm(m.term, timeout).React(m, timeout, order);
    var all := n.AdoptActions(m.term) + r.actions;
    assert [] + all == all;
  }
}
