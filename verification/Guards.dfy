/** Why the assumptions on deliveries are there: without them the code does break its promises. */
module Guards {
  import opened RaftTypes
  import opened RaftNode
  import opened Storage
  import opened Process
  import opened Cluster

  // ----- Building a run, one handled input at a time -----

  ghost predicate Plain(actions: seq<Action>) {
    forall k :: 0 <= k < |actions| ==> !actions[k].LoadSnapshot? && !actions[k].SendInstallSnapshot?
  }

  function SentBy(actions: seq<Action>): set<Packet> {
    if actions == [] then {}
    else
      var first := if actions[0].SendMessage? then {Packet(actions[0].target, actions[0].message)} else {};
      first + SentBy(actions[1..])
  }

  /** A stretch of a run; when `guarded`, with only deliveries that both guards allow. */
  ghost predicate Path(cfg: Config, guarded: bool, states: seq<Cluster>, events: seq<ClusterEvent>) {
    && |states| == |events| + 1
    && forall k :: 0 <= k < |events| ==> PathStep(cfg, guarded, states[k], events[k], states[k + 1])
  }

  ghost predicate PathStep(cfg: Config, guarded: bool, c: Cluster, e: ClusterEvent, c': Cluster) {
    && ClusterStep(cfg, c, e.id, e.event, c')
    && (guarded ==> VoteGuard(c.procs[e.id].node, e.event) && AppendGuard(c.procs[e.id].node, e.event))
  }

  ghost predicate Leads(cfg: Config, guarded: bool, c: Cluster, c': Cluster) {
    exists states, events :: Path(cfg, guarded, states, events) && states[0] == c && states[|events|] == c'
  }

  lemma LeadsNowhere(cfg: Config, guarded: bool, c: Cluster)
    ensures Leads(cfg, guarded, c, c)
  {
    assert Path(cfg, guarded, [c], []);
  }

  lemma LeadsOn(cfg: Config, guarded: bool, c: Cluster, e: ClusterEvent, c1: Cluster, c': Cluster)
    requires PathStep(cfg, guarded, c, e, c1) && Leads(cfg, guarded, c1, c')
    ensures Leads(cfg, guarded, c, c')
  {
    hide PathStep;
    var states, events :| Path(cfg, guarded, states, events) && states[0] == c1 && states[|events|] == c';
    var ss, es := [c] + states, [e] + events;
    forall k | 0 <= k < |es| ensures PathStep(cfg, guarded, ss[k], es[k], ss[k + 1]) {
      if k > 0 {
        assert ss[k] == states[k - 1] && ss[k + 1] == states[k] && es[k] == events[k - 1];
      }
    }
    assert Path(cfg, guarded, ss, es) && ss[0] == c && ss[|es|] == c';
  }

  lemma LeadsFurther(cfg: Config, guarded: bool, a: Cluster, b: Cluster, c: Cluster)
    requires Leads(cfg, guarded, a, b) && Leads(cfg, guarded, b, c)
    ensures Leads(cfg, guarded, a, c)
  {
    hide PathStep;
    var states, events :| Path(cfg, guarded, states, events) && states[0] == a && states[|events|] == b;
    PathLeads(cfg, guarded, states, events, c);
  }

  lemma {:induction false} PathLeads(cfg: Config, guarded: bool, states: seq<Cluster>, events: seq<ClusterEvent>,
                                     c: Cluster)
    requires Path(cfg, guarded, states, events) && Leads(cfg, guarded, states[|events|], c)
    ensures Leads(cfg, guarded, states[0], c)
    decreases |events|
  {
    hide PathStep, Leads;
    if events != [] {
      PathLeads(cfg, guarded, states[1..], events[1..], c);
      LeadsOn(cfg, guarded, states[0], events[0], states[1], c);
    }
  }

  ghost predicate Reachable(cfg: Config, c: Cluster) {
    exists states, events :: ClusterRun(cfg, states, events) && states[|events|] == c
  }

  lemma ReachesOn(cfg: Config, guarded: bool, c: Cluster, c': Cluster)
    requires Reachable(cfg, c) && Leads(cfg, guarded, c, c')
    ensures Reachable(cfg, c')
  {
    hide ClusterStep, Initial, VoteGuard, AppendGuard;
    var states, events :| ClusterRun(cfg, states, events) && states[|events|] == c;
    var more, next :| Path(cfg, guarded, more, next) && more[0] == c && more[|next|] == c';
    var ss: seq<Cluster>, es: seq<ClusterEvent> := states + more[1..], events + next;
    forall k | 0 <= k < |es| ensures ClusterStep(cfg, ss[k], es[k].id, es[k].event, ss[k + 1]) {
      if k < |events| {
        assert ss[k] == states[k] && ss[k + 1] == states[k + 1] && es[k] == events[k];
      } else {
        var x := k - |events|;
        assert PathStep(cfg, guarded, more[x], next[x], more[x + 1]);
        assert ss[k + 1] == more[1..][x] == more[x + 1] && es[k] == next[x];
        assert ss[k] == more[x];
      }
    }
    assert ClusterRun(cfg, ss, es) && ss[|es|] == c';
  }

  /** The disk after a list of actions. */
  function DiskAfter(disk: Disk, actions: seq<Action>): Disk
    decreases |actions|
  {
    if actions == [] then disk else DiskAfter(Execute(disk, actions[0]).disk, actions[1..])
  }

  /** A process can always run its remaining actions. */
  lemma {:induction false} RunPending(cfg: Config, guarded: bool, c: Cluster, i: NodeId) returns (c': Cluster)
    requires i in c.procs && Plain(c.procs[i].pending)
    ensures Leads(cfg, guarded, c, c')
    ensures var p := c.procs[i];
            c' == Cluster(c.procs[i := Process(p.node, [], DiskAfter(p.disk, p.pending))], c.net + SentBy(p.pending))
    decreases |c.procs[i].pending|
  {
    var p := c.procs[i];
    var disk := DiskAfter(p.disk, p.pending);
    if p.pending == [] {
      c' := c;
      assert c.procs[i := Process(p.node, [], disk)] == c.procs;
      LeadsNowhere(cfg, guarded, c);
    } else {
      var p1 := Process(p.node, p.pending[1..], Execute(p.disk, p.pending[0]).disk);
      var c1 := Cluster(c.procs[i := p1], c.net + Sent(i, p, Exec));
      c' := RunPending(cfg, guarded, c1, i);
      LeadsOn(cfg, guarded, c, At(i, Exec), c1, c');
      assert c1.procs[i := Process(p.node, [], disk)] == c.procs[i := Process(p.node, [], disk)];
      assert c1.net + SentBy(p1.pending) == c.net + SentBy(p.pending);
    }
  }

  /** What handling an input and running the actions makes of the cluster. */
  ghost predicate Handled(c: Cluster, i: NodeId, r: Step, c': Cluster) {
    && i in c'.procs && r.Done?
    && c'.net == c.net + SentBy(r.actions) && c'.procs.Keys == c.procs.Keys
    && i in c.procs && c'.procs[i] == Process(r.node, [], DiskAfter(c.procs[i].disk, r.actions))
    && forall j :: j in c.procs && j != i ==> c'.procs[j] == c.procs[j]
  }

  /** An idle process can handle any input that is there and run the actions. */
  lemma HandleIdle(cfg: Config, guarded: bool, c: Cluster, i: NodeId, input: Input) returns (c': Cluster)
    requires i in c.procs && c.procs[i].pending == []
    requires input.Delivery? ==> Packet(i, input.message) in c.net
    requires guarded ==> VoteGuard(c.procs[i].node, Feed(input)) && AppendGuard(c.procs[i].node, Feed(input))
    requires Handle(c.procs[i].node, input).Done? && Plain(Handle(c.procs[i].node, input).actions)
    ensures Leads(cfg, guarded, c, c') && Handled(c, i, Handle(c.procs[i].node, input), c')
  {
    hide Handle, Leads, VoteGuard, AppendGuard;
    var r := Handle(c.procs[i].node, input);
    var p1 := Process(r.node, r.actions, c.procs[i].disk);
    var c1 := Cluster(c.procs[i := p1], c.net);
    assert c.net + Sent(i, c.procs[i], Feed(input)) == c.net;
    c' := RunPending(cfg, guarded, c1, i);
    LeadsOn(cfg, guarded, c, At(i, Feed(input)), c1, c');
    var p' := Process(r.node, [], DiskAfter(c.procs[i].disk, r.actions));
    assert c1.procs[i := p'] == c.procs[i := p'];
  }

  lemma HandleOne(cfg: Config, c: Cluster, i: NodeId, input: Input) returns (c': Cluster)
    requires Reachable(cfg, c) && i in c.procs && c.procs[i].pending == []
    requires input.Delivery? ==> Packet(i, input.message) in c.net
    requires Handle(c.procs[i].node, input).Done? && Plain(Handle(c.procs[i].node, input).actions)
    ensures Reachable(cfg, c') && Handled(c, i, Handle(c.procs[i].node, input), c')
  {
    hide Handle, Leads, Reachable, Handled, Plain;
    c' := HandleIdle(cfg, false, c, i, input);
    ReachesOn(cfg, false, c, c');
  }

  // ----- Stale votes: two leaders in one term -----

  const TRIO: Config := Config([0, 1, 2], None)

  /** A node that has nothing in its log and stands for election at every tick. */
  ghost predicate Blank(n: Node, id: NodeId, term: nat) {
    && n.id == id && n.currentTerm == term && n.log == [] && n.snapIndex == 0 && n.snapTerm == 0
    && n.electionTimeout == 0 && n.peers == Others(id, TRIO.nodes)
  }

  ghost predicate Standing(n: Node, id: NodeId, term: nat) {
    Blank(n, id, term) && n.role == Candidate && n.votesReceived == {id}
  }

  lemma PeersOfTrio()
    ensures Others(0, TRIO.nodes) == [1, 2] && Others(1, TRIO.nodes) == [0, 2] && Others(2, TRIO.nodes) == [0, 1]
  {
    assert TRIO.nodes[1..] == [1, 2];
    assert TRIO.nodes[1..][1..] == [2];
    assert TRIO.nodes[1..][1..][1..] == [];
  }

  lemma {:induction false} IsSent(actions: seq<Action>, k: nat)
    requires k < |actions| && actions[k].SendMessage?
    ensures Packet(actions[k].target, actions[k].message) in SentBy(actions)
  {
    if k > 0 {
      IsSent(actions[1..], k - 1);
    }
  }

  lemma StandsUp(n: Node, id: NodeId, term: nat, peer: NodeId)
    requires Blank(n, id, term) && n.role != Leader && peer in n.peers
    ensures var r := Handle(n, Timer(0));
            && r.Done? && Plain(r.actions) && Standing(r.node, id, term + 1)
            && Packet(peer, RequestVote(term + 1, id, 0, 0)) in SentBy(r.actions)
  {
    var r := Handle(n, Timer(0));
    var k :| 0 <= k < |n.peers| && n.peers[k] == peer;
    var n' := r.node;
    assert r == Done(n', [PersistMetadata(n'.currentTerm, n'.votedFor)] + n'.RequestVotes());
    assert n'.peers[k] == peer && n'.LastLogIndex() == 0 && n'.LastLogTerm() == 0;
    assert n'.RequestVotes()[k] == SendMessage(peer, RequestVote(term + 1, id, 0, 0));
    assert r.actions[k + 1] == n'.RequestVotes()[k];
    IsSent(r.actions, k + 1);
  }

  lemma VotesFor(n: Node, id: NodeId, term: nat, m: Message)
    requires Blank(n, id, term) && m.RequestVote? && m.term > term && m.lastLogIndex == 0 && m.lastLogTerm == 0
    ensures var r := Handle(n, Delivery(m, 0, []));
            && r.Done? && Plain(r.actions) && Blank(r.node, id, m.term)
            && Packet(m.candidate, RequestVoteResponse(id, m.term, true)) in SentBy(r.actions)
  {
    var r := Handle(n, Delivery(m, 0, []));
    assert r.actions[2] == SendMessage(m.candidate, RequestVoteResponse(id, m.term, true));
    IsSent(r.actions, 2);
  }

  /** One vote more makes a leader of three, of whatever older term the vote is. */
  lemma Elected(n: Node, id: NodeId, term: nat, voter: NodeId, t: nat)
    requires Standing(n, id, term) && |n.peers| == 2 && voter != id && t <= term
    ensures var r := Handle(n, Delivery(RequestVoteResponse(voter, t, true), 0, []));
            r.Done? && Plain(r.actions) && r.node.role == Leader && r.node.currentTerm == term
  {
    hide Node.AppendToAll, SetAll;
    assert n.votesReceived + {voter} == {id, voter};
    OffersPlain(n.(votesReceived := {id, voter}), n.(votesReceived := {id, voter}).WinElection(0));
  }

  lemma OffersPlain(n: Node, w: Node)
    requires n.snapIndex == 0 && w == n.WinElection(0)
    ensures Plain(w.AppendToAll())
  {
    hide Node.BuildAppendEntries;
    forall p | p in w.peers ensures w.BuildAppendEntries(p).SendMessage? {
      OfferPlain(n, w, p);
    }
  }

  lemma OfferPlain(n: Node, w: Node, p: NodeId)
    requires n.snapIndex == 0 && w == n.WinElection(0) && p in n.peers
    ensures w.BuildAppendEntries(p).SendMessage?
  {
    assert w.nextIndex[p] == |w.log| + 1;
  }

  ghost predicate Idle(c: Cluster) {
    c.procs.Keys == {0, 1, 2} && forall i :: i in c.procs ==> c.procs[i].pending == []
  }

  lemma BootBlank(i: NodeId)
    ensures Blank(Boot(TRIO, i, 0).node, i, 0) && Boot(TRIO, i, 0).node.role == Follower
    ensures Boot(TRIO, i, 0).pending == []
  {
  }

  lemma StartsRun(cfg: Config, c: Cluster)
    requires Initial(cfg, c)
    ensures Reachable(cfg, c)
  {
    hide Initial, ClusterStep;
    assert ClusterRun(cfg, [c], []);
  }

  lemma Booted() returns (c: Cluster)
    ensures Reachable(TRIO, c) && Idle(c)
    ensures forall i :: i in c.procs ==> Blank(c.procs[i].node, i, 0) && c.procs[i].node.role == Follower
  {
    hide Boot, Blank, Reachable;
    c := Cluster(map[0 := Boot(TRIO, 0, 0), 1 := Boot(TRIO, 1, 0), 2 := Boot(TRIO, 2, 0)], {});
    forall i | i in c.procs
      ensures c.procs[i] == Boot(TRIO, i, 0) && c.procs[i].pending == []
      ensures Blank(c.procs[i].node, i, 0) && c.procs[i].node.role == Follower
    {
      BootBlank(i);
    }
    assert c.procs.Keys == (set i | i in TRIO.nodes);
    StartsRun(TRIO, c);
  }

  /** Node 1 votes for node 0 in term 1; its answer stays on the way. */
  lemma FirstVote() returns (c: Cluster)
    ensures Reachable(TRIO, c) && Idle(c)
    ensures Standing(c.procs[0].node, 0, 1) && Blank(c.procs[1].node, 1, 1)
    ensures Blank(c.procs[2].node, 2, 0) && c.procs[2].node.role == Follower
    ensures Packet(0, RequestVoteResponse(1, 1, true)) in c.net
  {
    hide Reachable, Handle, Blank, Standing;
    c := Booted();
    StandsUp(c.procs[0].node, 0, 0, 1) by { PeersOfTrio(); PeersAre(c.procs[0].node, 0, 0); }
    c := HandleOne(TRIO, c, 0, Timer(0));
    VotesFor(c.procs[1].node, 1, 0, RequestVote(1, 0, 0, 0));
    c := HandleOne(TRIO, c, 1, Delivery(RequestVote(1, 0, 0, 0), 0, []));
  }

  lemma PeersAre(n: Node, id: NodeId, term: nat)
    ensures Blank(n, id, term) ==> n.peers == Others(id, TRIO.nodes)
    ensures Standing(n, id, term) ==> Blank(n, id, term) && n.role == Candidate
  {
  }

  /** Two candidates in term 2, with the vote of term 1 still on its way to the first. */
  lemma TwoCandidates() returns (c: Cluster)
    ensures Reachable(TRIO, c) && Idle(c)
    ensures Standing(c.procs[0].node, 0, 2) && Standing(c.procs[2].node, 2, 2) && Blank(c.procs[1].node, 1, 1)
    ensures Packet(0, RequestVoteResponse(1, 1, true)) in c.net && Packet(1, RequestVote(2, 2, 0, 0)) in c.net
  {
    hide Reachable, Handle, Blank, Standing;
    PeersOfTrio();
    c := FirstVote();
    PeersAre(c.procs[0].node, 0, 1);
    StandsUp(c.procs[0].node, 0, 1, 1);
    c := HandleOne(TRIO, c, 0, Timer(0));
    PeersAre(c.procs[2].node, 2, 0);
    StandsUp(c.procs[2].node, 2, 0, 1);
    c := HandleOne(TRIO, c, 2, Timer(0));
    PeersAre(c.procs[2].node, 2, 1);
    StandsUp(c.procs[2].node, 2, 1, 1);
    c := HandleOne(TRIO, c, 2, Timer(0));
  }

  /** Without VoteGuard three nodes can reach a state with two leaders of the same term. */
  lemma TwoLeadersWithoutVoteGuard() returns (c: Cluster)
    ensures Reachable(TRIO, c) && 0 in c.procs && 2 in c.procs
    ensures c.procs[0].node.role == Leader && c.procs[2].node.role == Leader
    ensures c.procs[0].node.currentTerm == c.procs[2].node.currentTerm
  {
    hide Reachable, Handle, Blank, Standing;
    PeersOfTrio();
    c := TwoCandidates();
    VotesFor(c.procs[1].node, 1, 1, RequestVote(2, 2, 0, 0));
    c := HandleOne(TRIO, c, 1, Delivery(RequestVote(2, 2, 0, 0), 0, []));
    PeersAre(c.procs[2].node, 2, 2);
    Elected(c.procs[2].node, 2, 2, 1, 2);
    c := HandleOne(TRIO, c, 2, Delivery(RequestVoteResponse(1, 2, true), 0, []));
    PeersAre(c.procs[0].node, 0, 2);
    Elected(c.procs[0].node, 0, 2, 1, 1);
    c := HandleOne(TRIO, c, 0, Delivery(RequestVoteResponse(1, 1, true), 0, []));
  }

  // ----- Late append responses -----

  /** Without AppendGuard a node that a rejection has just deposed still sends in the new term, in which it never led:
      AppendEntries right before the index the rejection names, at index 0 if it names none, or an offer of its
      snapshot if nothing is there. */
  lemma DeposedStillSends(n: Node, m: Message, timeout: nat, order: seq<nat>)
    requires m.AppendEntriesResponse? && !m.success && m.term > n.currentTerm && m.id in n.nextIndex
    ensures var r := n.Receive(m, timeout, order);
            var next := m.conflictIndex.GetOr(0);
            var prev := if next > 0 then next - 1 else 0;
            && r.Done? && r.node.role == Follower && r.node.currentTerm == m.term && |r.actions| == 2
            && r.actions[0] == PersistMetadata(m.term, None)
            && (if n.TermAt(prev).None? then r.actions[1] == SendInstallSnapshot(m.id, m.term, n.snapIndex, n.snapTerm)
                else r.actions[1].SendMessage? && r.actions[1].target == m.id
                     && var a := r.actions[1].message;
                        && a.AppendEntries? && a.term == m.term && a.leader == n.id && a.prevIndex == prev
                        && (next == 0 ==> a.entries == []))
  {
    var n' := n.AdoptTerm(m.term, timeout).NoteRejected(m);
    var r := n.Receive(m, timeout, order);
    assert n'.TermAt(n'.PrevFor(m.id)) == n.TermAt(n'.PrevFor(m.id));
    assert r.actions == [PersistMetadata(m.term, None)] + [n'.BuildAppendEntries(m.id)];
  }

  /** And every follower that has reached that term, whatever its log, accepts an empty message at index 0: it commits
      its own log as far as the message says and reports all of it as matched. */
  lemma BlankProbeAccepted(f: Node, m: Message, timeout: nat)
    requires f.role == Follower && f.snapIndex <= f.commitIndex <= f.LastLogIndex()
    requires m.AppendEntries? && m.term == f.currentTerm && m.prevIndex == 0 && m.entries == []
    ensures var r := f.Receive(m, timeout, []);
            var most := if m.leaderCommit <= f.LastLogIndex() then m.leaderCommit else f.LastLogIndex();
            && r.Done? && r.node.log == f.log
            && r.node.commitIndex == (if most > f.commitIndex then most else f.commitIndex)
            && r.actions != []
            && r.actions[|r.actions| - 1]
               == SendMessage(m.leader, AppendEntriesResponse(f.id, f.currentTerm, f.LastLogIndex(), true, None, None))
  {
    var n := f.ResetTimer(timeout).(currentLeader := Some(m.leader));
    assert n.Merge(1, m.entries) == Some(n);
    assert n.FollowCommit(m.leaderCommit).Done?;
  }

  // ----- Entries below the snapshot -----

  /** A follower that has compacted its log past index 1 panics on any entries sent from the start of the log. */
  lemma BelowSnapshotPanics(f: Node, m: Message, timeout: nat)
    requires f.role == Follower && f.snapIndex > 1
    requires m.AppendEntries? && m.term == f.currentTerm && m.prevIndex == 0 && m.entries != []
    ensures f.Receive(m, timeout, []).Panicked?
  {
    var n := f.ResetTimer(timeout).(currentLeader := Some(m.leader));
    assert n.Merge(1, m.entries) == None;
  }
}
