/** Each input keeps the replication invariant of the node that handles it. */
module ReplicationSteps {
  import opened RaftTypes
  import opened RaftNode
  import opened Frames
  import opened Logs
  import opened Storage
  import opened Durability
  import opened History
  import opened Cluster
  import opened Elections
  import opened ElectionSteps
  import opened Replication
  import opened OrderStatistics
  import opened CommitRule

  // ----- Logs and prefixes -----

  /** A prefix shared by the old log and the term's leader survives a merge with that leader's entries. */
  lemma MergeKeepsFront(log: seq<LogEntry>, carried: seq<LogEntry>, full: seq<LogEntry>, merged: seq<LogEntry>,
                        front: seq<LogEntry>)
    requires carried <= full && front <= full && front <= log
    requires (merged == log && carried <= log) || (merged == carried && !(carried <= log))
    ensures front <= merged
  {
  }

  lemma HeldMerged(log: seq<LogEntry>, carried: seq<LogEntry>, merged: seq<LogEntry>, t: nat, m: nat, u: nat,
                   h: History)
    requires Held(log, t, m, u, h) && t <= u && u in h.reigns && carried <= h.reigns[u].log
    requires (merged == log && carried <= log) || (merged == carried && !(carried <= log))
    ensures Held(merged, t, m, u, h)
  {
    var front := Front(h, t, m);
    if front <= log {
      if front <= h.reigns[u].log {
        MergeKeepsFront(log, carried, h.reigns[u].log, merged, front);
      } else {
        assert Misses(h, t, m, u);
      }
    }
  }

  lemma HeldLonger(log: seq<LogEntry>, log': seq<LogEntry>, t: nat, m: nat, bound: nat, h: History)
    requires Held(log, t, m, bound, h) && log <= log'
    ensures Held(log', t, m, bound, h)
  {
  }

  /** A committed prefix of a node's log is in the log of the leader of any term it has reached. */
  lemma CommittedInReign(nodes: seq<NodeId>, log: seq<LogEntry>, c: nat, bound: nat, u: nat, h: History)
    requires HistoryOk(nodes, h) && AckHistoryOk(nodes, h)
    requires CommittedUpTo(log, c, bound, h) && c <= |log| && u in h.reigns && bound <= u
    ensures log[..c] <= h.reigns[u].log
  {
    hide HistoryOk, AckHistoryOk;
    if c > 0 {
      var t: nat, m: nat :| CommittedBy(log, c, bound, h, t, m);
      if t < u {
        CommitKept(nodes, h, t, m, u);
        assert Front(h, t, m)[..c] == h.reigns[t].log[..c];
      }
      assert log[..c] == h.reigns[u].log[..c];
    }
  }

  lemma CommittedSame(log: seq<LogEntry>, log': seq<LogEntry>, c: nat, bound: nat, bound': nat, h: History)
    requires CommittedUpTo(log, c, bound, h) && c <= |log| && bound <= bound' && log[..c] <= log'
    ensures CommittedUpTo(log', c, bound', h)
  {
    if c > 0 {
      var t: nat, m: nat :| CommittedBy(log, c, bound, h, t, m);
      assert log'[..c] == log[..c];
      assert CommittedBy(log', c, bound', h, t, m);
    }
  }

  /** Entries of a committed stretch may be applied. */
  lemma AppliesOk(i: NodeId, n: Node, log: seq<LogEntry>, from: nat, c: nat, bound: nat, h: History)
    requires from <= c <= |log| && CommittedUpTo(log, c, bound, h)
    ensures ReplicaPendingOk(i, n, Node.Applies(from + 1, log[from..c]), h)
  {
    if c > 0 {
      var t: nat, m: nat :| CommittedBy(log, c, bound, h, t, m);
      var actions := Node.Applies(from + 1, log[from..c]);
      forall k | 0 <= k < |actions| ensures ReplicaActionOk(i, n, actions[k], h) {
        assert log[from + k] == log[..c][from + k] == h.reigns[t].log[..c][from + k];
        assert AppliedBy(from + 1 + k, log[from + k].command, h, t, m);
      }
    }
  }

  // ----- A leader's messages -----

  lemma {:induction false} OthersExclude(i: NodeId, nodes: seq<NodeId>)
    ensures forall p :: p in Others(i, nodes) <==> p in nodes && p != i
  {
    if nodes != [] {
      OthersExclude(i, nodes[1..]);
      assert forall p :: p in nodes <==> p == nodes[0] || p in nodes[1..];
    }
  }

  /** A leader that tracks positive next indices only sends stretches reaching its own term. */
  lemma LeaderBuildOk(i: NodeId, n: Node, peer: NodeId, h: History)
    requires n.id == i && n.snapIndex == 0 && n.snapTerm == 0 && peer != i && peer in n.peers
    requires NextInLog(n.peers, n.nextIndex, |n.log|)
    requires LeaderOk(i, n, h) && n.log != [] && LastTerm(n.log) == n.currentTerm
    requires CommitIndexOk(n, h) && NextOk(n.nextIndex)
    ensures ReplicaActionOk(i, n, n.BuildAppendEntries(peer), h)
  {
    hide Node.BuildAppendEntries, CommittedUpTo, InReign;
    PlainBuild(n, peer);
    assert n.NextFor(peer) > 0;
    LeaderLed(n, n.PrevFor(peer), h);
  }

  /** A leader's log from any point to its end is led. */
  lemma LeaderLed(n: Node, prev: nat, h: History)
    requires n.currentTerm in h.reigns && h.reigns[n.currentTerm].log == n.log && prev <= |n.log|
    requires n.log != [] && LastTerm(n.log) == n.currentTerm && CommitIndexOk(n, h)
    ensures LedBy(AppendEntries(n.currentTerm, n.id, prev, LastTerm(n.log[..prev]), n.log[prev..], n.commitIndex), h)
  {
    hide CommittedUpTo;
    TakeAll(n.log);
    assert n.log[prev..|n.log|] == n.log[prev..];
  }

  lemma LeaderBuildAllOk(nodes: seq<NodeId>, i: NodeId, n: Node, h: History)
    requires HistoryOk(nodes, h) && Static(nodes, i, n) && LeaderOk(i, n, h)
    requires CommitIndexOk(n, h) && NextOk(n.nextIndex) && NextInLog(n.peers, n.nextIndex, |n.log|)
    ensures ReplicaPendingOk(i, n, n.AppendToAll(), h)
  {
    ReignShape(nodes, h, n.currentTerm);
    OthersExclude(i, nodes);
    forall k | 0 <= k < |n.peers| ensures ReplicaActionOk(i, n, n.AppendToAll()[k], h) {
      LeaderBuildOk(i, n, n.peers[k], h);
    }
  }

  // ----- Context and goal of a reaction -----

  ghost predicate ReplicaReady(nodes: seq<NodeId>, i: NodeId, n: Node, d: Disk, h: History) {
    && NodeOk(nodes, i, n, d, h) && HistoryOk(nodes, h) && AckHistoryOk(nodes, h)
    && ReplicaOk(i, n, d, h)
  }

  ghost predicate ReplicaReacted(i: NodeId, r: Step, d: Disk, h: History) {
    r.Done? && ReplicaOk(i, r.node, d, h) && ReplicaPendingOk(i, r.node, r.actions, h)
  }

  lemma AcksLater(i: NodeId, log: seq<LogEntry>, term: nat, term': nat, h: History)
    requires AcksKept(i, log, term, h) && term <= term'
    ensures AcksKept(i, log, term', h)
  {
    forall t: nat, m: nat | (i, t, m) in h.acks ensures Held(log, t, m, term', h) {
      HeldLater(log, t, m, term, term', h);
    }
  }

  lemma AcksLonger(i: NodeId, log: seq<LogEntry>, log': seq<LogEntry>, term: nat, h: History)
    requires AcksKept(i, log, term, h) && log <= log'
    ensures AcksKept(i, log', term, h)
  {
    forall t: nat, m: nat | (i, t, m) in h.acks ensures Held(log', t, m, term, h) {
      HeldLonger(log, log', t, m, term, h);
    }
  }

  lemma AcksMerged(i: NodeId, log: seq<LogEntry>, carried: seq<LogEntry>, merged: seq<LogEntry>, term: nat, h: History)
    requires AcksKept(i, log, term, h) && term in h.reigns && carried <= h.reigns[term].log
    requires (merged == log && carried <= log) || (merged == carried && !(carried <= log))
    ensures AcksKept(i, merged, term, h)
  {
    forall t: nat, m: nat | (i, t, m) in h.acks ensures Held(merged, t, m, term, h) {
      HeldMerged(log, carried, merged, t, m, term, h);
    }
  }

  /** Neither a later term nor another role disturbs acknowledgements and commits. */
  lemma ReplicaLater(i: NodeId, n: Node, n': Node, d: Disk, h: History)
    requires ReplicaOk(i, n, d, h) && n'.role != Leader
    requires n'.currentTerm >= n.currentTerm && n'.log == n.log && n'.peers == n.peers
    requires n'.matchIndex == n.matchIndex && n'.nextIndex == n.nextIndex
    requires n'.commitIndex == n.commitIndex && n'.lastApplied == n.lastApplied
    ensures ReplicaOk(i, n', d, h)
  {
    AcksLater(i, n.log, n.currentTerm, n'.currentTerm, h);
    assert n.log[..n.commitIndex] <= n'.log;
    CommittedSame(n.log, n'.log, n.commitIndex, n.currentTerm, n'.currentTerm, h);
  }

  lemma AdoptReplica(i: NodeId, n: Node, d: Disk, t: nat, timeout: nat, h: History)
    requires ReplicaOk(i, n, d, h)
    ensures ReplicaOk(i, n.AdoptTerm(t, timeout), d, h)
  {
    if t > n.currentTerm {
      ReplicaLater(i, n, n.AdoptTerm(t, timeout), d, h);
    }
  }

  // ----- AppendEntries -----

  /** The follower's answer is truthful: after accepting entries of term t its whole log is a prefix of
      that leader's log, although it reports its own last index and not the end of what was sent. */
  lemma TruthfulLog(nodes: seq<NodeId>, n: Node, m: Message, h: History)
    requires HistoryOk(nodes, h) && m.AppendEntries? && LedBy(m, h) && m.term == n.currentTerm
    requires n.Matches(m) && n.snapIndex == 0 && n.snapTerm == 0 && LogOk(n.log, n.currentTerm, h)
    ensures m.prevIndex <= |n.log|
    ensures var merged := MergeLog(n.log, m.prevIndex, m.entries);
            var carried := h.reigns[m.term].log[..m.prevIndex + |m.entries|];
            && merged <= h.reigns[m.term].log
            && ((merged == n.log && carried <= n.log) || (merged == carried && !(carried <= n.log)))
  {
    hide HistoryOk, MergeLog, CommittedUpTo, Node.TermAt;
    var last := m.prevIndex + |m.entries|;
    var carried := h.reigns[m.term].log[..last];
    LedCarried(nodes, m, h);
    AcceptLog(n, m, carried, h);
    if carried <= n.log {
      assert n.log[last - 1] == carried[last - 1];
      CoherentSorted(nodes, h, n.log, last - 1, |n.log| - 1);
      CoherentLast(n.log, h);
    }
  }

  lemma LedCarried(nodes: seq<NodeId>, m: Message, h: History)
    requires HistoryOk(nodes, h) && m.AppendEntries? && LedBy(m, h)
    ensures CarriedBy(h.reigns[m.term].log[..m.prevIndex + |m.entries|], m, h)
  {
    var last := m.prevIndex + |m.entries|;
    var log := h.reigns[m.term].log;
    ReignShape(nodes, h, m.term);
    CoherentPrefix(log, last, h);
    assert log[..last][m.prevIndex..] == log[m.prevIndex..last];
    assert log[..last][..m.prevIndex] == log[..m.prevIndex];
  }

  /** The merged log keeps every acknowledged and every committed prefix. */
  lemma MergedReplica(nodes: seq<NodeId>, i: NodeId, n: Node, d: Disk, g: Node, carried: seq<LogEntry>, h: History)
    requires ReplicaReady(nodes, i, n, d, h) && n.currentTerm in h.reigns && carried <= h.reigns[n.currentTerm].log
    requires (g.log == n.log && carried <= n.log) || (g.log == carried && !(carried <= n.log))
    requires g.role == Follower && g.currentTerm == n.currentTerm && g.peers == n.peers
    requires g.matchIndex == n.matchIndex && g.nextIndex == n.nextIndex
    requires g.commitIndex == n.commitIndex && g.lastApplied == n.lastApplied
    ensures ReplicaOk(i, g, d, h)
  {
    var full := h.reigns[n.currentTerm].log;
    AcksMerged(i, n.log, carried, g.log, n.currentTerm, h);
    CommittedInReign(nodes, n.log, n.commitIndex, n.currentTerm, n.currentTerm, h);
    MergeKeepsFront(n.log, carried, full, g.log, n.log[..n.commitIndex]);
    CommittedSame(n.log, g.log, n.commitIndex, n.currentTerm, n.currentTerm, h);
  }

  lemma SliceIs(n: Node, a: nat, b: nat)
    requires n.snapIndex == 0 && a <= b <= |n.log|
    ensures n.Slice(a + 1, b + 1) == Some(n.log[a..b])
  {
  }

  /** Following the leader's commit index stays within what is committed. */
  lemma FollowReplica(i: NodeId, g: Node, d: Disk, commit: nat, h: History)
    requires ReplicaOk(i, g, d, h) && g.snapIndex == 0 && g.role == Follower
    requires g.currentTerm in h.reigns && g.log <= h.reigns[g.currentTerm].log
    requires CommittedUpTo(h.reigns[g.currentTerm].log, commit, g.currentTerm, h)
    ensures var r := g.FollowCommit(commit);
            r.Done? && ReplicaOk(i, r.node, d, h) && ReplicaPendingOk(i, r.node, r.actions, h)
  {
    hide AcksKept, AcksInReign, CommittedUpTo, Node.Slice;
    if commit > g.commitIndex {
      var full := h.reigns[g.currentTerm].log;
      var c := if commit <= |g.log| then commit else |g.log|;
      var r := g.FollowCommit(commit);
      CommittedLess(full, commit, c, g.currentTerm, h);
      assert full[..c] == g.log[..c];
      CommittedSame(full, g.log, c, g.currentTerm, g.currentTerm, h);
      SliceIs(g, g.commitIndex, c);
      AppliesOk(i, r.node, g.log, g.commitIndex, c, g.currentTerm, h);
    }
  }

  lemma CommittedLess(log: seq<LogEntry>, c: nat, c': nat, bound: nat, h: History)
    requires CommittedUpTo(log, c, bound, h) && c' <= c
    ensures CommittedUpTo(log, c', bound, h)
  {
    if c' > 0 {
      var t: nat, m: nat :| CommittedBy(log, c, bound, h, t, m);
      assert log[..c'] == log[..c][..c'] == h.reigns[t].log[..c][..c'] == h.reigns[t].log[..c'];
      assert CommittedBy(log, c', bound, h, t, m);
    }
  }

  lemma AcceptedFields(n: Node, m: Message, timeout: nat)
    requires m.AppendEntries? && n.snapIndex == 0 && m.prevIndex <= |n.log|
    ensures n.snapIndex <= m.prevIndex <= n.LastLogIndex()
    ensures var g := Accepted(n, m, timeout);
            && g.log == MergeLog(n.log, m.prevIndex, m.entries)
            && g.role == Follower && g.currentTerm == n.currentTerm && g.peers == n.peers
            && g.matchIndex == n.matchIndex && g.nextIndex == n.nextIndex
            && g.commitIndex == n.commitIndex && g.lastApplied == n.lastApplied
  {
  }

  lemma ReadyParts(nodes: seq<NodeId>, i: NodeId, n: Node, d: Disk, h: History)
    requires ReplicaReady(nodes, i, n, d, h)
    ensures HistoryOk(nodes, h) && LogOk(n.log, n.currentTerm, h) && n.snapIndex == 0 && n.snapTerm == 0
  {
  }

  lemma LedFront(m: Message, h: History)
    requires m.AppendEntries? && LedBy(m, h)
    ensures m.term in h.reigns && m.prevIndex + |m.entries| <= |h.reigns[m.term].log|
  {
  }

  lemma AcceptedReplica(nodes: seq<NodeId>, i: NodeId, n: Node, d: Disk, m: Message, timeout: nat, h: History)
    requires ReplicaReady(nodes, i, n, d, h) && m.AppendEntries? && m.term == n.currentTerm && n.Matches(m)
    requires LedBy(m, h)
    ensures n.snapIndex <= m.prevIndex <= n.LastLogIndex()
    ensures var g := Accepted(n, m, timeout); ReplicaOk(i, g, d, h) && g.log <= h.reigns[m.term].log
  {
    hide *;
    ReadyParts(nodes, i, n, d, h);
    TruthfulLog(nodes, n, m, h);
    AcceptedFields(n, m, timeout);
    LedFront(m, h);
    var g := Accepted(n, m, timeout);
    var carried := h.reigns[m.term].log[..m.prevIndex + |m.entries|];
    MergedReplica(nodes, i, n, d, g, carried, h);
  }

  lemma AcceptReplica(nodes: seq<NodeId>, i: NodeId, n: Node, d: Disk, m: Message, timeout: nat, h: History)
    requires ReplicaReady(nodes, i, n, d, h) && m.AppendEntries? && m.term == n.currentTerm && Accepts(n, m)
    requires ReplicaMessageOk(i, m, h) && n.OnAppendEntries(m, timeout).Done?
    ensures ReplicaReacted(i, n.OnAppendEntries(m, timeout), d, h)
  {
    hide Node.OnAppendEntries, Node.FollowCommit, HistoryOk, AckHistoryOk, MergeLog, CommittedUpTo, AcksKept;
    AcceptedReplica(nodes, i, n, d, m, timeout, h);
    AcceptActions(n, m, timeout);
    MergeKeeps(n.log, m.prevIndex, m.entries);
    var g := Accepted(n, m, timeout);
    FollowReplica(i, g, d, m.leaderCommit, h);
    FinishReplica(i, g, n.OnAppendEntries(m, timeout), m, h);
  }

  lemma FinishReplica(i: NodeId, g: Node, r: Step, m: Message, h: History)
    requires m.AppendEntries? && m.prevIndex <= |g.log| && r.Done? && g.FollowCommit(m.leaderCommit).Done?
    requires g.snapIndex == 0 && g.currentTerm in h.reigns && g.log <= h.reigns[g.currentTerm].log && m.leader != i
    requires r.node == g.(commitIndex := r.node.commitIndex, lastApplied := r.node.lastApplied)
    requires ReplicaPendingOk(i, r.node, g.FollowCommit(m.leaderCommit).actions, h)
    requires r.actions == (if m.entries == [] then [] else [PersistLogEntries(m.prevIndex + 1, g.log[m.prevIndex..])])
                          + (g.FollowCommit(m.leaderCommit).actions + [Answer(g, m)])
    ensures ReplicaPendingOk(i, r.node, r.actions, h)
  {
    var persist := if m.entries == [] then [] else [PersistLogEntries(m.prevIndex + 1, g.log[m.prevIndex..])];
    JoinReplica(i, r.node, persist, g.FollowCommit(m.leaderCommit).actions, Answer(g, m), h);
  }

  lemma JoinReplica(i: NodeId, n: Node, persist: seq<Action>, applies: seq<Action>, answer: Action, h: History)
    requires |persist| <= 1 && (persist != [] ==> persist[0].PersistLogEntries?)
    requires ReplicaPendingOk(i, n, applies, h) && ReplicaActionOk(i, n, answer, h)
    ensures ReplicaPendingOk(i, n, persist + (applies + [answer]), h)
  {
    var actions := persist + (applies + [answer]);
    forall k | 0 <= k < |actions| ensures ReplicaActionOk(i, n, actions[k], h) {
      if |persist| <= k < |persist| + |applies| {
        assert actions[k] == applies[k - |persist|];
      }
    }
  }

  lemma AppendReplica(nodes: seq<NodeId>, i: NodeId, n: Node, d: Disk, m: Message, timeout: nat, h: History)
    requires ReplicaReady(nodes, i, n, d, h) && m.AppendEntries? && m.term <= n.currentTerm
    requires ReplicaMessageOk(i, m, h) && n.OnAppendEntries(m, timeout).Done?
    ensures ReplicaReacted(i, n.OnAppendEntries(m, timeout), d, h)
  {
    hide HistoryOk, AckHistoryOk, Node.OnAppendEntries, Node.Matches;
    if Accepts(n, m) {
      AcceptReplica(nodes, i, n, d, m, timeout, h);
    } else {
      RefuseShape(n, m, timeout);
      var r := n.OnAppendEntries(m, timeout);
      if r.node.role != Leader {
        ReplicaLater(i, n, r.node, d, h);
      }
    }
  }

  // ----- Votes, timer -----

  lemma VoteReplica(nodes: seq<NodeId>, i: NodeId, n: Node, d: Disk, m: Message, timeout: nat, h: History)
    requires ReplicaReady(nodes, i, n, d, h) && m.RequestVote?
    ensures ReplicaReacted(i, n.OnRequestVote(m, timeout), d, h)
  {
  }

  lemma TimerAside(nodes: seq<NodeId>, i: NodeId, n: Node, n': Node, d: Disk, h: History)
    requires n' == n.(ticks := n'.ticks) && ReplicaOk(i, n, d, h) && NodeOk(nodes, i, n, d, h)
    ensures ReplicaOk(i, n', d, h) && Static(nodes, i, n') && (n.role == Leader ==> LeaderOk(i, n', h))
  {
  }

  lemma TickReplica(nodes: seq<NodeId>, i: NodeId, n: Node, d: Disk, timeout: nat, h: History)
    requires NodeOk(nodes, i, n, d, h) && HistoryOk(nodes, h) && ReplicaOk(i, n, d, h)
    ensures ReplicaReacted(i, n.Tick(timeout), d, h)
  {
    hide *;
    var n1 := n.(ticks := n.ticks + 1);
    TickIs(n, timeout);
    TimerAside(nodes, i, n, n1, d, h);
    if n.role == Leader {
      BeatReplica(nodes, i, n1, d, h);
    } else {
      StandReplica(i, n1, d, timeout, h);
    }
  }

  lemma StandReplica(i: NodeId, n: Node, d: Disk, timeout: nat, h: History)
    requires ReplicaOk(i, n, d, h) && n.role != Leader
    ensures ReplicaReacted(i, n.ElectionTimeout(timeout), d, h)
  {
    var r := n.ElectionTimeout(timeout);
    ReplicaLater(i, n, r.node, d, h);
    forall k | 0 <= k < |r.actions| ensures ReplicaActionOk(i, r.node, r.actions[k], h) {
      if k > 0 {
        assert r.actions[k] == r.node.RequestVotes()[k - 1];
      }
    }
  }

  lemma BeatReplica(nodes: seq<NodeId>, i: NodeId, n: Node, d: Disk, h: History)
    requires ReplicaOk(i, n, d, h) && HistoryOk(nodes, h) && Static(nodes, i, n) && LeaderOk(i, n, h)
    requires n.role == Leader
    ensures ReplicaReacted(i, n.Heartbeat(), d, h)
  {
    LeaderBuildAllOk(nodes, i, n, h);
    SameReplica(i, n, n.(ticks := 0), n.AppendToAll(), h);
  }

  lemma SameReplica(i: NodeId, n: Node, n': Node, actions: seq<Action>, h: History)
    requires n' == n.(ticks := n'.ticks) && ReplicaPendingOk(i, n, actions, h)
    ensures ReplicaPendingOk(i, n', actions, h)
  {
    forall k | 0 <= k < |actions| ensures ReplicaActionOk(i, n', actions[k], h) {
      assert ReplicaActionOk(i, n, actions[k], h);
    }
  }

  // ----- Winning and proposing: the leader's log grows and so does the history -----

  lemma CommitGrows(nodes: seq<NodeId>, h: History, h': History, t: nat, m: nat)
    requires CommitOk(nodes, h, t, m) && Grows(h, h')
    ensures CommitOk(nodes, h', t, m)
  {
    var q :| QuorumAcked(nodes, h, q, t, m);
    assert QuorumAcked(nodes, h', q, t, m);
  }

  lemma VotesHoldGrows(nodes: seq<NodeId>, h: History, h': History)
    requires HistoryOk(nodes, h) && VotesHold(h) && Grows(h, h') && h'.votes == h.votes && h'.acks == h.acks
    ensures VotesHold(h')
  {
    forall v: NodeId, t: nat, m: nat, u: nat | (v, t, m) in h'.acks && (v, u) in h'.votes && t < u
      ensures Held(h'.votes[(v, u)].log, t, m, u, h')
    {
      HeldGrows(nodes, h.votes[(v, u)].log, t, m, u, h, h');
    }
  }

  /** In a term that had no leader yet, no leader of that very term can have lost anything. */
  lemma ElectorsHoldGrows(nodes: seq<NodeId>, h: History, h': History)
    requires HistoryOk(nodes, h) && VotesHold(h) && ElectorsHold(h)
    requires Grows(h, h') && h'.votes == h.votes && h'.acks == h.acks
    ensures ElectorsHold(h')
  {
    forall v: NodeId, t: nat, m: nat, u: nat | (v, t, m) in h'.acks && Elected(h', v, u) && t < u
      ensures Held(h'.votes[(v, u)].log, t, m, u - 1, h')
    {
      var log := h.votes[(v, u)].log;
      if u in h.reigns {
        assert Elected(h, v, u);
      } else {
        assert Held(log, t, m, u, h);
      }
      HeldGrows(nodes, log, t, m, u - 1, h, h');
    }
  }

  /** A new or longer reign keeps what acknowledgements and commits mean. */
  lemma AckHistoryGrows(nodes: seq<NodeId>, h: History, h': History)
    requires HistoryOk(nodes, h) && AckHistoryOk(nodes, h) && Grows(h, h')
    requires h'.votes == h.votes && h'.acks == h.acks && h'.commits == h.commits
    ensures AckHistoryOk(nodes, h')
  {
    VotesHoldGrows(nodes, h, h');
    ElectorsHoldGrows(nodes, h, h');
    forall t: nat, m: nat | (t, m) in h'.commits ensures CommitOk(nodes, h', t, m) {
      CommitGrows(nodes, h, h', t, m);
    }
  }

  /** The leader's node after appending to its own log. */
  lemma LeaderAppends(nodes: seq<NodeId>, i: NodeId, n: Node, d: Disk, n': Node, h: History, h': History)
    requires ReplicaReady(nodes, i, n, d, h) && Grows(h, h') && h'.acks == h.acks && h'.commits == h.commits
    requires n.log < n'.log && n'.currentTerm == n.currentTerm && n'.peers == n.peers && DiskLog(d) == n.log
    requires n'.commitIndex == n.commitIndex && n'.lastApplied == n.lastApplied
    requires n'.matchIndex.Keys == NodeSet(n'.peers)
    requires forall p :: p in n'.matchIndex ==>
               n'.matchIndex[p] == 0 || (p in n.matchIndex && n.role == Leader && n'.matchIndex[p] == n.matchIndex[p])
    requires NextOk(n'.nextIndex) && NextInLog(n'.peers, n'.nextIndex, |n'.log|)
    ensures ReplicaOk(i, n', d, h')
  {
    AcksGrow(nodes, i, n.log, n.currentTerm, h, h');
    AcksGrow(nodes, i, DiskLog(d), DiskTerm(d), h, h');
    AcksLonger(i, n.log, n'.log, n.currentTerm, h');
    CommittedGrows(n.log, n.commitIndex, n.currentTerm, h, h');
    CommittedLonger(n.log, n'.log, n.commitIndex, n.currentTerm, h');
  }

  lemma WinReplica(nodes: seq<NodeId>, i: NodeId, n: Node, d: Disk, timeout: nat, h: History, h': History)
    requires ReplicaReady(nodes, i, n, d, h) && HistoryOk(nodes, h') && Grows(h, h') && DiskLog(d) == n.log
    requires h' == Crown(h, n.currentTerm, i, n.votesReceived, n.WinElection(timeout).log)
    ensures var w := n.WinElection(timeout);
            AckHistoryOk(nodes, h') && ReplicaReacted(i, Done(w, WinActions(w)), d, h')
  {
    var w := n.WinElection(timeout);
    AckHistoryGrows(nodes, h, h');
    WinAppends(nodes, i, n, d, timeout, h, h');
    WinBuilds(nodes, i, n, w, timeout, h');
  }

  lemma WinAppends(nodes: seq<NodeId>, i: NodeId, n: Node, d: Disk, timeout: nat, h: History, h': History)
    requires ReplicaReady(nodes, i, n, d, h) && Grows(h, h') && h'.acks == h.acks && h'.commits == h.commits
    requires DiskLog(d) == n.log
    ensures ReplicaOk(i, n.WinElection(timeout), d, h')
  {
    hide HistoryOk, AckHistoryOk, AcksKept, CommittedUpTo, LogOk;
    var w := n.WinElection(timeout);
    assert forall p :: p in w.matchIndex ==> w.matchIndex[p] == 0;
    LeaderAppends(nodes, i, n, d, w, h, h');
  }

  lemma WinBuilds(nodes: seq<NodeId>, i: NodeId, n: Node, w: Node, timeout: nat, h: History)
    requires HistoryOk(nodes, h) && Static(nodes, i, n) && w == n.WinElection(timeout) && LeaderOk(i, w, h)
    requires CommitIndexOk(w, h) && NextOk(w.nextIndex) && NextInLog(w.peers, w.nextIndex, |w.log|)
    ensures ReplicaPendingOk(i, w, WinActions(w), h)
  {
    LeaderBuildAllOk(nodes, i, w, h);
    PersistFirstReplica(i, w, WinActions(w), h);
  }

  lemma PersistFirstReplica(i: NodeId, n: Node, actions: seq<Action>, h: History)
    requires ReplicaPendingOk(i, n, n.AppendToAll(), h)
    requires actions != [] && actions[0].PersistLogEntries? && actions[1..] == n.AppendToAll()
    ensures ReplicaPendingOk(i, n, actions, h)
  {
    forall k | 0 <= k < |actions| ensures ReplicaActionOk(i, n, actions[k], h) {
      if k > 0 {
        assert actions[k] == n.AppendToAll()[k - 1];
      }
    }
  }

  lemma ProposeReplica(nodes: seq<NodeId>, i: NodeId, n: Node, d: Disk, command: Bytes, h: History, h': History)
    requires ReplicaReady(nodes, i, n, d, h) && HistoryOk(nodes, h') && Grows(h, h') && DiskLog(d) == n.log
    requires n.role == Leader && n.currentTerm in h.reigns
    requires h' == Extend(h, n.currentTerm, n.Propose(command).node.log)
    ensures AckHistoryOk(nodes, h') && ReplicaReacted(i, n.Propose(command), d, h')
  {
    var r := n.Propose(command);
    AckHistoryGrows(nodes, h, h');
    LeaderAppends(nodes, i, n, d, r.node, h, h');
    LeaderBuildAllOk(nodes, i, r.node, h');
    PersistFirstReplica(i, r.node, r.actions, h');
  }

  // ----- AppendEntriesResponse: the commit rule -----

  function Commit(h: History, t: nat, c: nat): History {
    h.(commits := h.commits + {(t, c)})
  }

  lemma RejectReplica(nodes: seq<NodeId>, i: NodeId, n: Node, d: Disk, m: Message, h: History)
    requires ReplicaReady(nodes, i, n, d, h) && n.role == Leader && m.AppendEntriesResponse? && m.id != i
             && m.id in nodes
    requires m.conflictIndex.Some? && m.conflictIndex.value > 0 && InReign(h, n.currentTerm, m.conflictIndex.value - 1)
    ensures var n' := n.NoteRejected(m); ReplicaReacted(i, Done(n', [n'.BuildAppendEntries(m.id)]), d, h)
  {
    hide HistoryOk, AckHistoryOk, AcksKept, OwnAck, ProgressOk, CommittedUpTo, Node.BuildAppendEntries;
    var n' := n.NoteRejected(m);
    OthersExclude(i, nodes);
    ReignShape(nodes, h, n.currentTerm);
    LeaderBuildOk(i, n', m.id, h);
  }

  lemma NoteReplica(nodes: seq<NodeId>, i: NodeId, n: Node, d: Disk, m: Message, h: History)
    requires ReplicaReady(nodes, i, n, d, h) && n.role == Leader && m.AppendEntriesResponse? && m.id != i
             && m.id in nodes
    requires (m.id, n.currentTerm, m.matchIndex) in h.acks
    ensures var n' := n.NoteReplicated(m); ReplicaOk(i, n', d, h)
  {
    hide HistoryOk, AcksKept, OwnAck, CommittedUpTo, VotesHold, ElectorsHold, CommitsOk;
    OthersExclude(i, nodes);
    var n' := n.NoteReplicated(m);
    assert n'.matchIndex.Keys == n.matchIndex.Keys + {m.id};
    assert m.id in NodeSet(n.peers);
    assert ProgressOk(n'.peers, n'.matchIndex, n'.currentTerm, h);
  }

  /** No follower is believed to hold more than the leader has. */
  lemma ReplicatedInLog(nodes: seq<NodeId>, i: NodeId, n: Node, h: History)
    requires AcksInReign(nodes, h) && LeaderOk(i, n, h) && ProgressOk(n.peers, n.matchIndex, n.currentTerm, h)
    requires n.snapIndex == 0
    ensures n.ReplicatedIndex() <= n.LastLogIndex()
  {
    var beyond := n.LastLogIndex() + 1;
    assert Reaching(n.matchIndex, n.matchIndex.Keys, beyond) == {};
    ReplicatedIsGreatest(n, beyond);
  }

  /** The nodes the commit rule counts: the followers that reach c, and the leader. */
  function Holders(i: NodeId, n: Node, c: nat): set<NodeId> {
    Reaching(n.matchIndex, n.matchIndex.Keys, c) + {i}
  }

  lemma HoldersCount(nodes: seq<NodeId>, i: NodeId, n: Node, c: nat)
    requires |NodeSet(nodes)| == |nodes| && i in NodeSet(nodes)
    requires n.matchIndex.Keys <= NodeSet(nodes) && i !in n.matchIndex.Keys
    requires |n.matchIndex.Keys| == |nodes| - 1 && Replicas(n, c) >= Needed(n)
    ensures Quorum(nodes, Holders(i, n, c))
  {
    assert |Holders(i, n, c)| == |Reaching(n.matchIndex, n.matchIndex.Keys, c)| + 1;
  }

  lemma HoldersEnough(nodes: seq<NodeId>, i: NodeId, n: Node, c: nat)
    requires Distinct(nodes) && i in nodes
    requires n.matchIndex.Keys == NodeSet(Others(i, nodes))
    requires Replicas(n, c) >= Needed(n)
    ensures Quorum(nodes, Holders(i, n, c))
  {
    OthersExclude(i, nodes);
    OthersSize(i, nodes);
    PeerCount(i, nodes);
    HoldersCount(nodes, i, n, c);
  }

  lemma HoldersAcked(nodes: seq<NodeId>, i: NodeId, n: Node, c: nat, h: History)
    requires AcksInReign(nodes, h) && ProgressOk(n.peers, n.matchIndex, n.currentTerm, h)
    requires (i, n.currentTerm, |n.log|) in h.acks && 0 < c <= |n.log|
    ensures forall v :: v in Holders(i, n, c) ==> (v, n.currentTerm, c) in h.acks
  {
  }

  /** The nodes the commit rule counts are enough and acknowledged the index. */
  lemma CommitQuorum(nodes: seq<NodeId>, i: NodeId, n: Node, c: nat, h: History)
    requires Distinct(nodes) && i in nodes && Static(nodes, i, n)
    requires AcksInReign(nodes, h) && ProgressOk(n.peers, n.matchIndex, n.currentTerm, h)
    requires (i, n.currentTerm, |n.log|) in h.acks
    requires 0 < c <= |n.log| && Replicas(n, c) >= Needed(n)
    ensures QuorumAcked(nodes, h, Holders(i, n, c), n.currentTerm, c)
  {
    HoldersEnough(nodes, i, n, c);
    HoldersAcked(nodes, i, n, c, h);
  }

  lemma PeerCount(i: NodeId, nodes: seq<NodeId>)
    requires Distinct(nodes) && i in nodes
    ensures |NodeSet(Others(i, nodes))| == |nodes| - 1
  {
    OthersExclude(i, nodes);
    OthersSize(i, nodes);
    assert NodeSet(Others(i, nodes)) == NodeSet(nodes) - {i};
  }

  lemma CommitHistory(nodes: seq<NodeId>, h: History, t: nat, c: nat)
    requires AckHistoryOk(nodes, h) && CommitOk(nodes, h, t, c)
    ensures AckHistoryOk(nodes, Commit(h, t, c)) && Grows(h, Commit(h, t, c))
  {
    var h' := Commit(h, t, c);
    forall s: nat, m: nat | (s, m) in h'.commits ensures CommitOk(nodes, h', s, m) {
      CommitGrows(nodes, h, h', s, m);
    }
    VotesHoldSame(h, h');
  }

  lemma VotesHoldSame(h: History, h': History)
    requires h' == h.(commits := h'.commits) && VotesHold(h) && ElectorsHold(h)
    ensures VotesHold(h') && ElectorsHold(h')
  {
    forall v: NodeId, t: nat, m: nat, u: nat | (v, t, m) in h'.acks && (v, u) in h'.votes && t < u
      ensures Held(h'.votes[(v, u)].log, t, m, u, h')
    {
      HeldSame(h.votes[(v, u)].log, t, m, u, h, h');
    }
    forall v: NodeId, t: nat, m: nat, u: nat | (v, t, m) in h'.acks && Elected(h', v, u) && t < u
      ensures Held(h'.votes[(v, u)].log, t, m, u - 1, h')
    {
      assert Elected(h, v, u);
      HeldSame(h.votes[(v, u)].log, t, m, u - 1, h, h');
    }
  }

  lemma HeldSame(log: seq<LogEntry>, t: nat, m: nat, bound: nat, h: History, h': History)
    requires Held(log, t, m, bound, h) && h'.reigns == h.reigns
    ensures Held(log, t, m, bound, h')
  {
    if !(Front(h, t, m) <= log) {
      var u: nat :| t < u <= bound && Misses(h, t, m, u);
      assert Misses(h', t, m, u);
    }
  }

  /** Moving a leader's commit index to c, given that c is committed or was so already. */
  lemma CommitReplica(i: NodeId, n: Node, d: Disk, c: nat, ready: seq<nat>, h: History)
    requires ReplicaOk(i, n, d, h) && n.snapIndex == 0 && n.commitIndex <= c <= |n.log|
    requires CommittedUpTo(n.log, c, n.currentTerm, h)
    ensures ReplicaReacted(i, n.CommitTo(c, ready), d, h)
  {
    assert n.Slice(n.lastApplied + 1, c + 1) == Some(n.log[n.commitIndex..c]);
    var r := n.CommitTo(c, ready);
    AppliesOk(i, r.node, n.log, n.commitIndex, c, n.currentTerm, h);
    var applies := Node.Applies(n.lastApplied + 1, n.log[n.commitIndex..c]);
    forall k | 0 <= k < |r.actions| ensures ReplicaActionOk(i, r.node, r.actions[k], h) {
      if k < |applies| {
        assert r.actions[k] == applies[k];
      }
    }
  }

  lemma ReplicaMoreCommits(nodes: seq<NodeId>, i: NodeId, n: Node, d: Disk, h: History, h': History)
    requires ReplicaOk(i, n, d, h) && HistoryOk(nodes, h) && Grows(h, h') && h' == h.(commits := h'.commits)
    ensures ReplicaOk(i, n, d, h')
  {
    AcksGrow(nodes, i, n.log, n.currentTerm, h, h');
    AcksGrow(nodes, i, DiskLog(d), DiskTerm(d), h, h');
    CommittedGrows(n.log, n.commitIndex, n.currentTerm, h, h');
  }

  /** What the commit rule picks is committed: an entry of the leader's term on enough nodes. */
  lemma PickIsCommitted(nodes: seq<NodeId>, i: NodeId, n: Node, d: Disk, h: History) returns (c: nat)
    requires Distinct(nodes)
    requires ReplicaReady(nodes, i, n, d, h) && n.role == Leader && DiskLog(d) == n.log
    ensures n.CommitScan(n.commitIndex + 1, n.ReplicatedIndex(), n.commitIndex) == Some(c)
    ensures n.commitIndex <= c <= |n.log|
    ensures c != n.commitIndex ==> CommitOk(nodes, h, n.currentTerm, c) && h.reigns[n.currentTerm].log == n.log
  {
    ReplicatedInLog(nodes, i, n, h);
    c := CommitsGreatest(n);
    if c != n.commitIndex {
      PlainLog(n);
      CommitQuorum(nodes, i, n, c, h);
    }
  }

  lemma AdvanceIs(n: Node, order: seq<nat>, c: nat)
    requires n.CommitScan(n.commitIndex + 1, n.ReplicatedIndex(), n.commitIndex) == Some(c)
    ensures n.AdvanceCommit(order) == n.CommitTo(c, n.ReadyBarriers(order))
    ensures n.CommitTo(c, n.ReadyBarriers(order)).Done? ==>
              n.CommitTo(c, n.ReadyBarriers(order)).node.commitIndex == c
  {
    hide Node.CommitScan, Node.ReplicatedIndex, Node.ReadyBarriers, Node.Slice;
  }

  lemma NewCommit(nodes: seq<NodeId>, i: NodeId, n: Node, d: Disk, c: nat, h: History)
    requires ReplicaReady(nodes, i, n, d, h) && CommitOk(nodes, h, n.currentTerm, c)
    requires n.currentTerm in h.reigns && h.reigns[n.currentTerm].log == n.log && c <= |n.log|
    ensures var h' := Commit(h, n.currentTerm, c);
            AckHistoryOk(nodes, h') && Grows(h, h') && ReplicaOk(i, n, d, h')
            && CommittedUpTo(n.log, c, n.currentTerm, h')
  {
    var h' := Commit(h, n.currentTerm, c);
    CommitHistory(nodes, h, n.currentTerm, c);
    ReplicaMoreCommits(nodes, i, n, d, h, h');
    assert CommittedBy(n.log, c, n.currentTerm, h', n.currentTerm, c);
  }

  lemma OldCommit(nodes: seq<NodeId>, i: NodeId, n: Node, d: Disk, h: History)
    requires ReplicaReady(nodes, i, n, d, h)
    ensures AckHistoryOk(nodes, h) && ReplicaOk(i, n, d, h) && n.snapIndex == 0
    ensures CommittedUpTo(n.log, n.commitIndex, n.currentTerm, h)
    ensures n.role == Leader ==> n.currentTerm in h.reigns && h.reigns[n.currentTerm].log == n.log
  {
  }

  /** A leader that counts enough replicas commits, and the history records it. */
  lemma AdvanceReplica(nodes: seq<NodeId>, i: NodeId, n: Node, d: Disk, order: seq<nat>, h: History)
    returns (h': History)
    requires Distinct(nodes)
    requires ReplicaReady(nodes, i, n, d, h) && n.role == Leader && DiskLog(d) == n.log
    ensures AckHistoryOk(nodes, h') && ReplicaReacted(i, n.AdvanceCommit(order), d, h')
    ensures h' == h || exists c :: h' == Commit(h, n.currentTerm, c) && Grows(h, h')
  {
    hide *;
    var c := PickIsCommitted(nodes, i, n, d, h);
    OldCommit(nodes, i, n, d, h);
    AdvanceIs(n, order, c);
    if c == n.commitIndex {
      h' := h;
    } else {
      h' := Commit(h, n.currentTerm, c);
      NewCommit(nodes, i, n, d, c, h);
    }
    CommitReplica(i, n, d, c, n.ReadyBarriers(order), h');
  }
}
