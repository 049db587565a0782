/** The invariant behind election safety and log matching, and that every step keeps it. It needs only
    that stale vote responses are not delivered. */
module Elections {
  import opened RaftTypes
  import opened RaftNode
  import opened Storage
  import opened Durability
  import opened Process
  import opened History
  import opened Cluster

  // ----- One process -----

  ghost predicate Static(nodes: seq<NodeId>, i: NodeId, n: Node) {
    n.id == i && n.peers == Others(i, nodes) && n.snapIndex == 0 && n.snapTerm == 0
  }

  /** How far the disk may lag behind memory in term and vote. */
  ghost predicate VoteLag(d: Disk, n: Node) {
    DiskTerm(d) < n.currentTerm
    || (DiskTerm(d) == n.currentTerm && (DiskVote(d) == None || DiskVote(d) == n.votedFor))
  }

  /** The recorded votes of node i are those its disk has held. */
  ghost predicate BallotsOk(i: NodeId, d: Disk, h: History) {
    && (forall t: nat :: (i, t) in h.votes ==> t <= DiskTerm(d))
    && (DiskVote(d).Some? ==> VotedFor(h, i, DiskTerm(d), DiskVote(d).value))
    && ((i, DiskTerm(d)) in h.votes ==> DiskVote(d).Some?)
  }

  ghost predicate CandidateOk(nodes: seq<NodeId>, i: NodeId, n: Node, h: History) {
    && n.votedFor == Some(i)
    && TermsBelow(n.log, n.currentTerm)
    && i in n.votesReceived && n.votesReceived <= NodeSet(nodes)
    && (forall v :: v in n.votesReceived && v != i ==> VotedFor(h, v, n.currentTerm, i))
    && ((i, n.currentTerm) in h.votes ==> h.votes[(i, n.currentTerm)] == Vote(i, n.log))
    && (n.currentTerm in h.reigns ==> h.reigns[n.currentTerm].leader != i)
  }

  ghost predicate LeaderOk(i: NodeId, n: Node, h: History) {
    n.currentTerm in h.reigns && h.reigns[n.currentTerm].leader == i && h.reigns[n.currentTerm].log == n.log
  }

  /** Why node n may put a vote for c on disk. */
  ghost predicate BallotJustified(i: NodeId, n: Node, c: NodeId, h: History) {
    || (c == i && n.role == Candidate)
    || (VotedFor(h, c, n.currentTerm, c) && UpToDate(h.votes[(c, n.currentTerm)].log, n.log))
  }

  /** The entries of an AppendEntries are the end of some coherent log. */
  ghost predicate CarriedBy(log: seq<LogEntry>, m: Message, h: History)
    requires m.AppendEntries?
  {
    && LogOk(log, m.term, h)
    && m.prevIndex <= |log| && m.entries == log[m.prevIndex..]
    && m.prevTerm == LastTerm(log[..m.prevIndex])
  }

  ghost predicate Carried(m: Message, h: History)
    requires m.AppendEntries?
  {
    m.term > 0 && exists log :: CarriedBy(log, m, h)
  }

  ghost predicate SendOk(i: NodeId, n: Node, target: NodeId, m: Message, h: History) {
    match m
    case RequestVote(t, c, index, term) =>
      c == i && t == n.currentTerm && n.role == Candidate && index == |n.log| && term == LastTerm(n.log)
    case RequestVoteResponse(id, t, granted) =>
      id == i && t == n.currentTerm && (granted ==> n.votedFor == Some(target))
    case AppendEntries(_, _, _, _, _, _) => Carried(m, h)
    case AppendEntriesResponse(id, t, _, _, _, _) => id == i && t > 0
    case InstallSnapshot(_, _, _, _, _) => false
    case InstallSnapshotResponse(_, _, _) => false
  }

  ghost predicate ActionOk(i: NodeId, n: Node, d: Disk, first: bool, a: Action, h: History) {
    match a
    case PersistMetadata(t, v) =>
      && t == n.currentTerm
      && (v == n.votedFor || (v == None && first && DiskTerm(d) < t))
      && (v.Some? ==> BallotJustified(i, n, v.value, h))
    case LoadSnapshot(_, _, _) => false
    case SendMessage(target, m) => SendOk(i, n, target, m, h)
    case _ => true
  }

  ghost predicate PendingOk(i: NodeId, n: Node, d: Disk, pending: seq<Action>, h: History) {
    && (forall k :: 0 <= k < |pending| ==> ActionOk(i, n, d, k == 0, pending[k], h))
    && (forall j, k :: 0 <= j < k < |pending| && pending[j].PersistLogEntries? ==> !Persists(pending[k]))
  }

  ghost predicate RoleOk(nodes: seq<NodeId>, i: NodeId, n: Node, h: History) {
    && (n.role == Candidate ==> CandidateOk(nodes, i, n, h))
    && (n.role == Leader ==> LeaderOk(i, n, h))
  }

  ghost predicate NodeOk(nodes: seq<NodeId>, i: NodeId, n: Node, d: Disk, h: History) {
    && i in nodes
    && Static(nodes, i, n)
    && d.snapshot.None?
    && VoteLag(d, n)
    && BallotsOk(i, d, h)
    && LogOk(n.log, n.currentTerm, h)
    && LogOk(DiskLog(d), DiskTerm(d), h)
    && RoleOk(nodes, i, n, h)
  }

  ghost predicate ProcessOk(nodes: seq<NodeId>, i: NodeId, p: Process, h: History) {
    && DurableInv(p)
    && NodeOk(nodes, i, p.node, p.disk, h)
    && PendingOk(i, p.node, p.disk, p.pending, h)
  }

  // ----- Messages -----

  ghost predicate MessageOk(nodes: seq<NodeId>, target: NodeId, m: Message, h: History) {
    match m
    case RequestVote(t, c, index, term) =>
      VotedFor(h, c, t, c) && index == |h.votes[(c, t)].log| && term == LastTerm(h.votes[(c, t)].log)
    case RequestVoteResponse(id, t, granted) =>
      id in nodes && (granted ==> VotedFor(h, id, t, target))
    case AppendEntries(_, _, _, _, _, _) => Carried(m, h)
    case AppendEntriesResponse(id, t, _, _, _, _) => id in nodes && t > 0
    case InstallSnapshot(_, _, _, _, _) => false
    case InstallSnapshotResponse(_, _, _) => false
  }

  ghost predicate Inv(cfg: Config, c: Cluster, h: History) {
    && c.procs.Keys == NodeSet(cfg.nodes)
    && HistoryOk(cfg.nodes, h)
    && (forall i :: i in c.procs ==> ProcessOk(cfg.nodes, i, c.procs[i], h))
    && (forall x :: x in c.net ==> MessageOk(cfg.nodes, x.target, x.message, h))
  }

  // ----- Growth of the history keeps everything that does not belong to the acting node -----

  lemma LogGrows(log: seq<LogEntry>, t: nat, h: History, h': History)
    requires LogOk(log, t, h) && Grows(h, h')
    ensures LogOk(log, t, h')
  {
    CoherentGrows(log, h, h');
  }

  lemma CarriedGrows(m: Message, h: History, h': History)
    requires m.AppendEntries? && Carried(m, h) && Grows(h, h')
    ensures Carried(m, h')
  {
    var log :| CarriedBy(log, m, h);
    LogGrows(log, m.term, h, h');
    assert CarriedBy(log, m, h');
  }

  lemma MessageGrows(nodes: seq<NodeId>, target: NodeId, m: Message, h: History, h': History)
    requires MessageOk(nodes, target, m, h) && Grows(h, h')
    ensures MessageOk(nodes, target, m, h')
  {
    if m.AppendEntries? {
      CarriedGrows(m, h, h');
    }
  }

  lemma ActionGrows(i: NodeId, n: Node, d: Disk, first: bool, a: Action, h: History, h': History)
    requires ActionOk(i, n, d, first, a, h) && Grows(h, h')
    ensures ActionOk(i, n, d, first, a, h')
  {
    if a.SendMessage? && a.message.AppendEntries? {
      CarriedGrows(a.message, h, h');
    }
  }

  lemma PendingGrows(i: NodeId, n: Node, d: Disk, pending: seq<Action>, h: History, h': History)
    requires PendingOk(i, n, d, pending, h) && Grows(h, h')
    ensures PendingOk(i, n, d, pending, h')
  {
    forall k | 0 <= k < |pending| ensures ActionOk(i, n, d, k == 0, pending[k], h') {
      ActionGrows(i, n, d, k == 0, pending[k], h, h');
    }
  }

  lemma RoleGrows(nodes: seq<NodeId>, j: NodeId, n: Node, h: History, h': History, i: NodeId)
    requires RoleOk(nodes, j, n, h) && GrowsBy(h, h', i) && i != j
    ensures RoleOk(nodes, j, n, h')
  {
  }

  lemma NodeGrows(nodes: seq<NodeId>, j: NodeId, n: Node, d: Disk, h: History, h': History, i: NodeId)
    requires NodeOk(nodes, j, n, d, h) && GrowsBy(h, h', i) && i != j
    ensures NodeOk(nodes, j, n, d, h')
  {
    LogGrows(n.log, n.currentTerm, h, h');
    LogGrows(DiskLog(d), DiskTerm(d), h, h');
    RoleGrows(nodes, j, n, h, h', i);
  }

  lemma ProcessGrows(nodes: seq<NodeId>, j: NodeId, p: Process, h: History, h': History, i: NodeId)
    requires ProcessOk(nodes, j, p, h) && GrowsBy(h, h', i) && i != j
    ensures ProcessOk(nodes, j, p, h')
  {
    NodeGrows(nodes, j, p.node, p.disk, h, h', i);
    PendingGrows(j, p.node, p.disk, p.pending, h, h');
  }

  // ----- How the history grows -----

  /** Node i starts to lead term t. */
  function Crown(h: History, t: nat, i: NodeId, electors: set<NodeId>, log: seq<LogEntry>): History {
    h.(reigns := h.reigns[t := Reign(i, electors, log)])
  }

  /** The leader of term t appends. */
  function Extend(h: History, t: nat, log: seq<LogEntry>): History
    requires t in h.reigns
  {
    h.(reigns := h.reigns[t := h.reigns[t].(log := log)])
  }

  /** Node i's vote reaches its disk; voting again for the same candidate changes nothing. */
  function Cast(h: History, i: NodeId, t: nat, c: NodeId, log: seq<LogEntry>): History {
    if (i, t) in h.votes then h else h.(votes := h.votes[(i, t) := Vote(c, log)])
  }

  /** How handling an input moves the history: a win starts a reign, a proposal extends it. */
  function AfterFeed(h: History, i: NodeId, n: Node, n': Node): History {
    if n'.role == Leader && n.role != Leader then
      Crown(h, n'.currentTerm, i, n'.votesReceived, n'.log)
    else if n'.role == Leader && n'.log != n.log && n'.currentTerm in h.reigns then
      Extend(h, n'.currentTerm, n'.log)
    else h
  }

  lemma VoteGrows(nodes: seq<NodeId>, h: History, h': History, v: NodeId, t: nat)
    requires (v, t) in h.votes && VoteOk(nodes, h, v, t) && Grows(h, h')
    ensures VoteOk(nodes, h', v, t)
  {
    LogGrows(h.votes[(v, t)].log, t, h, h');
  }

  lemma CrownOk(nodes: seq<NodeId>, h: History, t: nat, i: NodeId, electors: set<NodeId>, e: LogEntry)
    requires HistoryOk(nodes, h) && t !in h.reigns && t > 0 && i in nodes && e.term == t
    requires electors <= NodeSet(nodes) && 2 * |electors| > |NodeSet(nodes)|
    requires forall v :: v in electors ==> VotedFor(h, v, t, i)
    requires VotedFor(h, i, t, i)
    ensures var h' := Crown(h, t, i, electors, h.votes[(i, t)].log + [e]);
            HistoryOk(nodes, h') && GrowsBy(h, h', i)
  {
    var h' := Crown(h, t, i, electors, h.votes[(i, t)].log + [e]);
    assert Grows(h, h');
    forall v: NodeId, u: nat | (v, u) in h'.votes ensures VoteOk(nodes, h', v, u) {
      assert VoteOk(nodes, h, v, u);
      VoteGrows(nodes, h, h', v, u);
    }
    forall u | u in h'.reigns ensures ReignOk(nodes, h', u) {
      if u != t {
        assert ReignOk(nodes, h, u);
      }
    }
  }

  lemma ExtendOk(nodes: seq<NodeId>, h: History, t: nat, e: LogEntry)
    requires HistoryOk(nodes, h) && t in h.reigns && e.term == t
    ensures var h' := Extend(h, t, h.reigns[t].log + [e]);
            HistoryOk(nodes, h') && GrowsBy(h, h', h.reigns[t].leader)
  {
    hide VoteOk, ReignOk;
    var h' := Extend(h, t, h.reigns[t].log + [e]);
    assert Grows(h, h');
    forall v: NodeId, u: nat | (v, u) in h'.votes ensures VoteOk(nodes, h', v, u) {
      assert VoteOk(nodes, h, v, u);
      VoteGrows(nodes, h, h', v, u);
    }
    forall u | u in h'.reigns ensures ReignOk(nodes, h', u) {
      assert ReignOk(nodes, h, u);
      ReignExtends(nodes, h, t, e, u);
    }
  }

  lemma ReignExtends(nodes: seq<NodeId>, h: History, t: nat, e: LogEntry, u: nat)
    requires t in h.reigns && e.term == t && u in h.reigns && ReignOk(nodes, h, u)
    ensures ReignOk(nodes, Extend(h, t, h.reigns[t].log + [e]), u)
  {
    if u == t {
      var r := h.reigns[t].log + [e];
      assert forall k :: 0 <= k < |r| - 1 ==> r[k] == h.reigns[t].log[k];
    }
  }

  lemma CastOk(nodes: seq<NodeId>, h: History, i: NodeId, t: nat, c: NodeId, log: seq<LogEntry>)
    requires HistoryOk(nodes, h) && i in nodes && LogOk(log, t, h)
    requires (i, t) !in h.votes
    requires || (c == i && TermsBelow(log, t))
             || (VotedFor(h, c, t, c) && UpToDate(h.votes[(c, t)].log, log))
    ensures var h' := Cast(h, i, t, c, log); HistoryOk(nodes, h') && GrowsBy(h, h', i)
  {
    var h' := Cast(h, i, t, c, log);
    assert Grows(h, h');
    forall v: NodeId, u: nat | (v, u) in h'.votes ensures VoteOk(nodes, h', v, u) {
      if (v, u) == (i, t) {
        LogGrows(log, t, h, h');
        if c != i {
          assert VoteOk(nodes, h, c, t);
        }
      } else {
        assert VoteOk(nodes, h, v, u);
        VoteGrows(nodes, h, h', v, u);
      }
    }
    forall u | u in h'.reigns ensures ReignOk(nodes, h', u) {
      assert ReignOk(nodes, h, u);
    }
  }

  /** No term gets a second leader: the two quorums share a voter. */
  lemma NoSecondReign(nodes: seq<NodeId>, h: History, t: nat, i: NodeId, electors: set<NodeId>)
    requires HistoryOk(nodes, h)
    requires electors <= NodeSet(nodes) && 2 * |electors| > |NodeSet(nodes)|
    requires forall v :: v in electors ==> VotedFor(h, v, t, i)
    ensures t in h.reigns ==> h.reigns[t].leader == i
  {
    if t in h.reigns {
      assert ReignOk(nodes, h, t);
      var v := QuorumsMeet(NodeSet(nodes), electors, h.reigns[t].electors);
      assert VotedFor(h, v, t, i) && VotedFor(h, v, t, h.reigns[t].leader);
    }
  }
}
