/** A cluster of processes and every message ever sent. A message may be delivered at any time to its
    target, any number of times or never, so it may be lost, duplicated and reordered. */
module Cluster {
  import opened RaftTypes
  import opened RaftNode
  import opened Process

  datatype Packet = Packet(target: NodeId, message: Message)

  datatype Cluster = Cluster(procs: map<NodeId, Process>, net: set<Packet>)

  ghost predicate Distinct(nodes: seq<NodeId>) {
    forall i, j :: 0 <= i < j < |nodes| ==> nodes[i] != nodes[j]
  }

  ghost predicate Initial(cfg: Config, c: Cluster) {
    && c.procs.Keys == (set i | i in cfg.nodes)
    && (forall i :: i in c.procs ==> exists timeout :: c.procs[i] == Boot(cfg, i, timeout))
    && c.net == {}
  }

  /** What a process puts on the network when the event loop runs its next action. */
  function Sent(id: NodeId, p: Process, e: Event): set<Packet> {
    if !e.Exec? || p.pending == [] then {}
    else match p.pending[0]
         case SendMessage(target, m) => {Packet(target, m)}
         case SendInstallSnapshot(target, t, index, term) =>
           if p.disk.snapshot.None? then {}
           else {Packet(target, InstallSnapshot(t, id, index, term, p.disk.snapshot.value.data))}
         case _ => {}
  }

  ghost predicate ClusterStep(cfg: Config, c: Cluster, id: NodeId, e: Event, c': Cluster) {
    && id in c.procs && id in c'.procs
    && (e.Feed? && e.input.Delivery? ==> Packet(id, e.input.message) in c.net)
    && Next(cfg, id, c.procs[id], e, c'.procs[id])
    && c'.procs == c.procs[id := c'.procs[id]]
    && c'.net == c.net + Sent(id, c.procs[id], e)
  }

  // ----- Assumptions on deliveries -----

  /** A vote granted in an earlier term is not delivered to a candidate of a later one. */
  ghost predicate VoteGuard(n: Node, e: Event) {
    e.Feed? && e.input.Delivery? && e.input.message.RequestVoteResponse? ==>
      e.input.message.granted && n.role == Candidate ==> e.input.message.term >= n.currentTerm
  }

  /** An append response is delivered only to the leader of its own term, and a rejection names an index. */
  ghost predicate AppendGuard(n: Node, e: Event) {
    e.Feed? && e.input.Delivery? && e.input.message.AppendEntriesResponse? ==>
      var m := e.input.message;
      n.role == Leader && m.term == n.currentTerm && (!m.success ==> m.conflictIndex.Some?)
  }

  // ----- Runs -----

  datatype ClusterEvent = At(id: NodeId, event: Event)

  ghost predicate ClusterRun(cfg: Config, states: seq<Cluster>, events: seq<ClusterEvent>) {
    && |states| == |events| + 1
    && Initial(cfg, states[0])
    && forall k :: 0 <= k < |events| ==> ClusterStep(cfg, states[k], events[k].id, events[k].event, states[k + 1])
  }

  ghost predicate VoteGuarded(states: seq<Cluster>, events: seq<ClusterEvent>)
    requires |states| == |events| + 1
  {
    forall k :: 0 <= k < |events| && events[k].id in states[k].procs ==>
                  VoteGuard(states[k].procs[events[k].id].node, events[k].event)
  }

  ghost predicate AppendGuarded(states: seq<Cluster>, events: seq<ClusterEvent>)
    requires |states| == |events| + 1
  {
    forall k :: 0 <= k < |events| && events[k].id in states[k].procs ==>
                  AppendGuard(states[k].procs[events[k].id].node, events[k].event)
  }
}
