/** The invariant behind leader completeness and state machine safety: what acknowledgements and commits
    mean. It needs, besides the election invariant, that append responses reach only the leader of their
    own term and that rejections name an index. */
module Replication {
  import opened RaftTypes
  import opened RaftNode
  import opened Storage
  import opened Process
  import opened History
  import opened Cluster
  import opened Elections

  // ----- Acknowledged prefixes -----

  /** The first m entries of term t's leader. */
  function Front(h: History, t: nat, m: nat): seq<LogEntry>
    requires t in h.reigns && m <= |h.reigns[t].log|
  {
    h.reigns[t].log[..m]
  }

  ghost predicate InReign(h: History, t: nat, m: nat) {
    t in h.reigns && m <= |h.reigns[t].log|
  }

  ghost predicate Misses(h: History, t: nat, m: nat, u: nat)
    requires InReign(h, t, m)
  {
    u in h.reigns && !(Front(h, t, m) <= h.reigns[u].log)
  }

  /** `log` still contains the first m entries of term t's leader, unless some later leader up to term
      `bound` lacks them. */
  ghost predicate Held(log: seq<LogEntry>, t: nat, m: nat, bound: nat, h: History) {
    && InReign(h, t, m)
    && (Front(h, t, m) <= log || exists u: nat :: t < u <= bound && Misses(h, t, m, u))
  }

  // ----- Commits -----

  /** Half of the nodes is enough to commit: an election takes more than half, so the two always meet. */
  ghost predicate Quorum(nodes: seq<NodeId>, q: set<NodeId>) {
    q <= NodeSet(nodes) && 2 * |q| >= |NodeSet(nodes)|
  }

  ghost predicate QuorumAcked(nodes: seq<NodeId>, h: History, q: set<NodeId>, t: nat, m: nat) {
    Quorum(nodes, q) && forall v :: v in q ==> (v, t, m) in h.acks
  }

  /** Index m was committed by the leader of term t: an entry of its own term held by at least half of the nodes. */
  ghost predicate CommitOk(nodes: seq<NodeId>, h: History, t: nat, m: nat) {
    && InReign(h, t, m) && m > 0 && h.reigns[t].log[m - 1].term == t
    && exists q :: QuorumAcked(nodes, h, q, t, m)
  }

  /** The first c entries of `log` were committed in a term up to `bound`. */
  ghost predicate CommittedBy(log: seq<LogEntry>, c: nat, bound: nat, h: History, t: nat, m: nat) {
    && (t, m) in h.commits && t <= bound && c <= m && InReign(h, t, m)
    && c <= |log| && log[..c] == h.reigns[t].log[..c]
  }

  ghost predicate CommittedUpTo(log: seq<LogEntry>, c: nat, bound: nat, h: History) {
    c == 0 || exists t: nat, m: nat :: CommittedBy(log, c, bound, h, t, m)
  }

  ghost predicate AppliedBy(index: nat, command: Bytes, h: History, t: nat, m: nat) {
    && (t, m) in h.commits && InReign(h, t, m) && 0 < index <= m
    && h.reigns[t].log[index - 1].command == command
  }

  ghost predicate AppliedOk(index: nat, command: Bytes, h: History) {
    exists t: nat, m: nat :: AppliedBy(index, command, h, t, m)
  }

  // ----- The history -----

  ghost predicate AcksInReign(nodes: seq<NodeId>, h: History) {
    && (forall v: NodeId, t: nat, m: nat :: (v, t, m) in h.acks ==> v in nodes && InReign(h, t, m))
    && (forall v: NodeId, t: nat, m: nat, k: nat :: (v, t, m) in h.acks && k <= m ==> (v, t, k) in h.acks)
  }

  /** A voter's log at its vote holds what the voter acknowledged before. */
  ghost predicate VotesHold(h: History) {
    forall v: NodeId, t: nat, m: nat, u: nat :: (v, t, m) in h.acks && (v, u) in h.votes && t < u ==>
      Held(h.votes[(v, u)].log, t, m, u, h)
  }

  ghost predicate Elected(h: History, v: NodeId, u: nat) {
    (v, u) in h.votes && u in h.reigns && v in h.reigns[u].electors
  }

  /** For a voter that elected a leader, only leaders before that one can have lost it. */
  ghost predicate ElectorsHold(h: History) {
    forall v: NodeId, t: nat, m: nat, u: nat :: (v, t, m) in h.acks && Elected(h, v, u) && t < u ==>
      Held(h.votes[(v, u)].log, t, m, u - 1, h)
  }

  ghost predicate CommitsOk(nodes: seq<NodeId>, h: History) {
    forall t: nat, m: nat :: (t, m) in h.commits ==> CommitOk(nodes, h, t, m)
  }

  ghost predicate AckHistoryOk(nodes: seq<NodeId>, h: History) {
    AcksInReign(nodes, h) && VotesHold(h) && ElectorsHold(h) && CommitsOk(nodes, h)
  }

  // ----- One process -----

  /** Node i's log, and its disk, hold what it acknowledged. */
  ghost predicate AcksKept(i: NodeId, log: seq<LogEntry>, term: nat, h: History) {
    forall t: nat, m: nat :: (i, t, m) in h.acks ==> t <= term && Held(log, t, m, term, h)
  }

  /** A leader's match indices are backed by acknowledgements, and so is its own durable log. */
  ghost predicate ProgressOk(peers: seq<NodeId>, matchIndex: map<NodeId, nat>, term: nat, h: History) {
    && matchIndex.Keys == NodeSet(peers)
    && forall p :: p in matchIndex ==> matchIndex[p] == 0 || (p, term, matchIndex[p]) in h.acks
  }

  ghost predicate OwnAck(i: NodeId, log: seq<LogEntry>, diskLog: seq<LogEntry>, term: nat, h: History) {
    diskLog == log ==> (i, term, |log|) in h.acks
  }

  ghost predicate NextOk(nextIndex: map<NodeId, nat>) {
    forall p :: p in nextIndex ==> nextIndex[p] > 0
  }

  /** A leader never believes a follower to be further than its own end. */
  ghost predicate NextInLog(peers: seq<NodeId>, nextIndex: map<NodeId, nat>, length: nat) {
    forall p :: p in peers ==> p in nextIndex && nextIndex[p] <= length + 1
  }

  ghost predicate CommitIndexOk(n: Node, h: History) {
    n.lastApplied == n.commitIndex <= |n.log| && CommittedUpTo(n.log, n.commitIndex, n.currentTerm, h)
  }

  ghost predicate ReplicaOk(i: NodeId, n: Node, d: Disk, h: History) {
    && AcksKept(i, n.log, n.currentTerm, h)
    && AcksKept(i, DiskLog(d), DiskTerm(d), h)
    && (n.role == Leader ==> ProgressOk(n.peers, n.matchIndex, n.currentTerm, h)
                             && OwnAck(i, n.log, DiskLog(d), n.currentTerm, h)
                             && NextInLog(n.peers, n.nextIndex, |n.log|))
    && n.matchIndex.Keys <= NodeSet(n.peers)
    && NextOk(n.nextIndex)
    && CommitIndexOk(n, h)
  }

  /** An AppendEntries of term t is a stretch of that leader's log reaching an entry of term t. */
  ghost predicate LedBy(m: Message, h: History)
    requires m.AppendEntries?
  {
    var last := m.prevIndex + |m.entries|;
    && InReign(h, m.term, last) && last > 0
    && var log := h.reigns[m.term].log;
       && m.entries == log[m.prevIndex..last]
       && m.prevTerm == LastTerm(log[..m.prevIndex])
       && log[last - 1].term == m.term
       && CommittedUpTo(log, m.leaderCommit, m.term, h)
  }

  ghost predicate ReplicaSendOk(i: NodeId, n: Node, target: NodeId, m: Message, h: History) {
    match m
    case AppendEntries(_, leader, _, _, _, _) => LedBy(m, h) && leader == i && target != i
    case AppendEntriesResponse(id, t, index, success, conflict, _) =>
      && target != i
      && (conflict.Some? ==> conflict.value > 0 && InReign(h, t, conflict.value - 1))
      && (success ==> t == n.currentTerm && t in h.reigns && index == |n.log| && n.log <= h.reigns[t].log)
    case _ => true
  }

  ghost predicate ReplicaActionOk(i: NodeId, n: Node, a: Action, h: History) {
    match a
    case SendMessage(target, m) => ReplicaSendOk(i, n, target, m, h)
    case ApplyToStateMachine(index, command) => AppliedOk(index, command, h)
    case SendInstallSnapshot(_, _, _, _) => false
    case _ => true
  }

  ghost predicate ReplicaPendingOk(i: NodeId, n: Node, pending: seq<Action>, h: History) {
    forall k :: 0 <= k < |pending| ==> ReplicaActionOk(i, n, pending[k], h)
  }

  ghost predicate ReplicaProcessOk(i: NodeId, p: Process, h: History) {
    ReplicaOk(i, p.node, p.disk, h) && ReplicaPendingOk(i, p.node, p.pending, h)
  }

  ghost predicate ReplicaMessageOk(target: NodeId, m: Message, h: History) {
    match m
    case AppendEntries(_, leader, _, _, _, _) => LedBy(m, h) && target != leader
    case AppendEntriesResponse(id, t, index, success, conflict, _) =>
      && target != id
      && (conflict.Some? ==> conflict.value > 0 && InReign(h, t, conflict.value - 1))
      && (success ==> (id, t, index) in h.acks)
    case _ => true
  }

  ghost predicate SafeInv(cfg: Config, c: Cluster, h: History) {
    && Inv(cfg, c, h)
    && AckHistoryOk(cfg.nodes, h)
    && (forall i :: i in c.procs ==> ReplicaProcessOk(i, c.procs[i], h))
    && (forall x :: x in c.net ==> ReplicaMessageOk(x.target, x.message, h))
  }

  // ----- Growth -----

  lemma FrontGrows(h: History, h': History, t: nat, m: nat)
    requires InReign(h, t, m) && Grows(h, h')
    ensures InReign(h', t, m) && Front(h', t, m) == Front(h, t, m)
  {
  }

  /** A leader that lacks a prefix of an earlier one never comes to have it. */
  lemma MissesGrows(nodes: seq<NodeId>, h: History, h': History, t: nat, m: nat, u: nat)
    requires HistoryOk(nodes, h) && Grows(h, h') && InReign(h, t, m) && t < u && Misses(h, t, m, u)
    ensures InReign(h', t, m) && Misses(h', t, m, u)
  {
    FrontGrows(h, h', t, m);
    ReignShape(nodes, h, t);
    ReignShape(nodes, h, u);
  }

  lemma HeldGrows(nodes: seq<NodeId>, log: seq<LogEntry>, t: nat, m: nat, bound: nat, h: History, h': History)
    requires HistoryOk(nodes, h) && Grows(h, h') && Held(log, t, m, bound, h)
    ensures Held(log, t, m, bound, h')
  {
    FrontGrows(h, h', t, m);
    if !(Front(h, t, m) <= log) {
      var u: nat :| t < u <= bound && Misses(h, t, m, u);
      MissesGrows(nodes, h, h', t, m, u);
    }
  }

  lemma HeldLater(log: seq<LogEntry>, t: nat, m: nat, bound: nat, bound': nat, h: History)
    requires Held(log, t, m, bound, h) && bound <= bound'
    ensures Held(log, t, m, bound', h)
  {
  }

  lemma CommittedGrows(log: seq<LogEntry>, c: nat, bound: nat, h: History, h': History)
    requires CommittedUpTo(log, c, bound, h) && Grows(h, h')
    ensures CommittedUpTo(log, c, bound, h')
  {
    if c > 0 {
      var t: nat, m: nat :| CommittedBy(log, c, bound, h, t, m);
      assert h'.reigns[t].log[..c] == h.reigns[t].log[..c];
      assert CommittedBy(log, c, bound, h', t, m);
    }
  }

  lemma AppliedGrows(index: nat, command: Bytes, h: History, h': History)
    requires AppliedOk(index, command, h) && Grows(h, h')
    ensures AppliedOk(index, command, h')
  {
    var t: nat, m: nat :| AppliedBy(index, command, h, t, m);
    assert AppliedBy(index, command, h', t, m);
  }

  lemma LedGrows(m: Message, h: History, h': History)
    requires m.AppendEntries? && LedBy(m, h) && Grows(h, h')
    ensures LedBy(m, h')
  {
    var log, log' := h.reigns[m.term].log, h'.reigns[m.term].log;
    var last := m.prevIndex + |m.entries|;
    assert log'[m.prevIndex..last] == log[m.prevIndex..last];
    assert log'[..m.prevIndex] == log[..m.prevIndex];
    CommittedGrows(log, m.leaderCommit, m.term, h, h');
    CommittedLonger(log, log', m.leaderCommit, m.term, h');
  }

  lemma CommittedLonger(log: seq<LogEntry>, log': seq<LogEntry>, c: nat, bound: nat, h: History)
    requires CommittedUpTo(log, c, bound, h) && log <= log'
    ensures CommittedUpTo(log', c, bound, h)
  {
    if c > 0 {
      var t: nat, m: nat :| CommittedBy(log, c, bound, h, t, m);
      assert log'[..c] == log[..c];
      assert CommittedBy(log', c, bound, h, t, m);
    }
  }

  lemma ReplicaMessageGrows(target: NodeId, m: Message, h: History, h': History)
    requires ReplicaMessageOk(target, m, h) && Grows(h, h')
    ensures ReplicaMessageOk(target, m, h')
  {
    if m.AppendEntries? {
      LedGrows(m, h, h');
    }
  }

  lemma ReplicaActionGrows(i: NodeId, n: Node, a: Action, h: History, h': History)
    requires ReplicaActionOk(i, n, a, h) && Grows(h, h')
    ensures ReplicaActionOk(i, n, a, h')
  {
    if a.SendMessage? && a.message.AppendEntries? {
      LedGrows(a.message, h, h');
    } else if a.ApplyToStateMachine? {
      AppliedGrows(a.index, a.command, h, h');
    }
  }

  lemma ReplicaPendingGrows(i: NodeId, n: Node, pending: seq<Action>, h: History, h': History)
    requires ReplicaPendingOk(i, n, pending, h) && Grows(h, h')
    ensures ReplicaPendingOk(i, n, pending, h')
  {
    forall k | 0 <= k < |pending| ensures ReplicaActionOk(i, n, pending[k], h') {
      ReplicaActionGrows(i, n, pending[k], h, h');
    }
  }

  /** Acknowledgements of a node survive growth that adds none for it. */
  lemma AcksGrow(nodes: seq<NodeId>, j: NodeId, log: seq<LogEntry>, term: nat, h: History, h': History)
    requires AcksKept(j, log, term, h) && Grows(h, h') && HistoryOk(nodes, h)
    requires forall t: nat, m: nat :: (j, t, m) in h'.acks ==> (j, t, m) in h.acks
    ensures AcksKept(j, log, term, h')
  {
    forall t: nat, m: nat | (j, t, m) in h'.acks ensures t <= term && Held(log, t, m, term, h') {
      HeldGrows(nodes, log, t, m, term, h, h');
    }
  }

  lemma ReplicaGrows(nodes: seq<NodeId>, j: NodeId, p: Process, h: History, h': History, i: NodeId)
    requires ReplicaProcessOk(j, p, h) && GrowsBy(h, h', i) && i != j && HistoryOk(nodes, h)
    ensures ReplicaProcessOk(j, p, h')
  {
    AcksGrow(nodes, j, p.node.log, p.node.currentTerm, h, h');
    AcksGrow(nodes, j, DiskLog(p.disk), DiskTerm(p.disk), h, h');
    CommittedGrows(p.node.log, p.node.commitIndex, p.node.currentTerm, h, h');
    ReplicaPendingGrows(j, p.node, p.pending, h, h');
  }

  // ----- Leader completeness, as a fact about one history -----

  /** A voter that holds a prefix ending in term t elects only candidates whose log contains it, provided
      every leader in between contains it. */
  lemma UpToDateKeeps(nodes: seq<NodeId>, h: History, t: nat, m: nat, u: nat, candidate: seq<LogEntry>,
                      voter: seq<LogEntry>)
    requires HistoryOk(nodes, h) && InReign(h, t, m) && m > 0 && h.reigns[t].log[m - 1].term == t
    requires Coherent(candidate, h) && TermsBelow(candidate, u) && Coherent(voter, h)
    requires Front(h, t, m) <= voter && UpToDate(candidate, voter)
    requires forall s :: s in h.reigns && t < s < u ==> Front(h, t, m) <= h.reigns[s].log
    ensures Front(h, t, m) <= candidate
  {
    var front := Front(h, t, m);
    assert voter[m - 1] == front[m - 1];
    CoherentSorted(nodes, h, voter, m - 1, |voter| - 1);
    assert t <= LastTerm(voter) <= LastTerm(candidate);
    assert candidate != [] by {
      CoherentSorted(nodes, h, voter, m - 1, m - 1);
    }
    CoherentLast(candidate, h);
    CoherentLast(voter, h);
    var s := LastTerm(candidate);
    if s == LastTerm(voter) {
      assert voter <= candidate;
    } else {
      LongEnough(nodes, h, t, m, candidate);
    }
  }

  /** A log that ends in a later term and whose leader contains the prefix contains it itself. */
  lemma LongEnough(nodes: seq<NodeId>, h: History, t: nat, m: nat, log: seq<LogEntry>)
    requires HistoryOk(nodes, h) && InReign(h, t, m) && log != [] && LastTerm(log) in h.reigns
    requires log <= h.reigns[LastTerm(log)].log && t < LastTerm(log)
    requires Front(h, t, m) <= h.reigns[LastTerm(log)].log
    ensures Front(h, t, m) <= log
  {
    ReignShape(nodes, h, t);
  }

  lemma {:induction false} CommitKept(nodes: seq<NodeId>, h: History, t: nat, m: nat, u: nat)
    requires HistoryOk(nodes, h) && AckHistoryOk(nodes, h)
    requires (t, m) in h.commits && u in h.reigns && t < u
    ensures InReign(h, t, m) && Front(h, t, m) <= h.reigns[u].log
    decreases u
  {
    assert CommitOk(nodes, h, t, m);
    forall s | s in h.reigns && t < s < u ensures Front(h, t, m) <= h.reigns[s].log {
      CommitKept(nodes, h, t, m, s);
    }
    var v := CommitVoter(nodes, h, t, m, u);
    CommitKeptBy(nodes, h, t, m, u, v);
  }

  /** Some elector of term u acknowledged the committed prefix. */
  lemma CommitVoter(nodes: seq<NodeId>, h: History, t: nat, m: nat, u: nat) returns (v: NodeId)
    requires HistoryOk(nodes, h) && CommitOk(nodes, h, t, m) && u in h.reigns
    ensures v in h.reigns[u].electors && (v, t, m) in h.acks
  {
    var q :| QuorumAcked(nodes, h, q, t, m);
    assert ReignOk(nodes, h, u);
    v := QuorumsMeet(NodeSet(nodes), q, h.reigns[u].electors);
  }

  lemma CommitKeptBy(nodes: seq<NodeId>, h: History, t: nat, m: nat, u: nat, v: NodeId)
    requires HistoryOk(nodes, h) && AckHistoryOk(nodes, h)
    requires CommitOk(nodes, h, t, m) && u in h.reigns && t < u
    requires forall s :: s in h.reigns && t < s < u ==> Front(h, t, m) <= h.reigns[s].log
    requires v in h.reigns[u].electors && (v, t, m) in h.acks
    ensures Front(h, t, m) <= h.reigns[u].log
  {
    assert ReignOk(nodes, h, u);
    assert VotedFor(h, v, u, h.reigns[u].leader);
    assert VoteOk(nodes, h, v, u);
    var voter := h.votes[(v, u)].log;
    var base := h.votes[(h.reigns[u].leader, u)].log;
    assert VoteOk(nodes, h, h.reigns[u].leader, u);
    assert Elected(h, v, u);
    assert Held(voter, t, m, u - 1, h);
    UpToDateKeeps(nodes, h, t, m, u, base, voter);
  }
}
