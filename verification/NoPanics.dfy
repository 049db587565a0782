/** In guarded runs no handler panics: the assumptions of `Applied` are met by every
    message such a run can deliver. */
module NoPanics {
  import opened RaftTypes
  import opened RaftNode
  import opened Storage
  import opened Process
  import opened History
  import opened Cluster
  import opened Elections
  import opened Replication
  import opened ReplicationSteps
  import opened Safety
  import opened Applied

  /** Entries of a term a follower has reached agree with everything it has committed. */
  lemma LedKeepsCommitted(nodes: seq<NodeId>, n: Node, m: Message, h: History)
    requires HistoryOk(nodes, h) && AckHistoryOk(nodes, h) && CommitIndexOk(n, h) && n.snapIndex == 0
    requires m.AppendEntries? && LedBy(m, h) && m.term >= n.currentTerm
    ensures KeepsCommitted(n, m)
  {
    hide HistoryOk, AckHistoryOk, CommittedUpTo;
    CommittedInReign(nodes, n.log, n.commitIndex, n.currentTerm, m.term, h);
    var full := h.reigns[m.term].log;
    forall k | 0 <= k < |m.entries| && m.prevIndex + 1 + k <= n.commitIndex
      ensures n.TermAt(m.prevIndex + 1 + k) == Some(m.entries[k].term)
    {
      assert n.log[..n.commitIndex][m.prevIndex + k] == full[m.prevIndex + k];
      assert m.entries[k] == full[m.prevIndex + k];
    }
  }

  /** Every message a guarded run may deliver is orderly. */
  lemma DeliveredOrderly(nodes: seq<NodeId>, i: NodeId, n: Node, d: Disk, input: Input, h: History)
    requires ReplicaReady(nodes, i, n, d, h) && AppendGuard(n, Feed(input))
    requires input.Delivery? ==> MessageOk(nodes, i, input.message, h) && ReplicaMessageOk(i, input.message, h)
    ensures IndicesOk(n) && Orderly(n, input)
  {
    if input.Delivery? {
      var m := input.message;
      if m.AppendEntries? && m.term >= n.currentTerm {
        LedKeepsCommitted(nodes, n, m, h);
      } else if m.AppendEntriesResponse? && m.success {
        NoteReplica(nodes, i, n, d, m, h);
        ReplicatedInLog(nodes, i, n.NoteReplicated(m), h);
      }
    }
  }

  /** No unwrap, subtraction or slice fails, in any state of a guarded run and for any input it may feed; what
      is applied continues in order; and no action stops the event loop for want of a snapshot. */
  lemma NoPanic(cfg: Config, states: seq<Cluster>, events: seq<ClusterEvent>, k: nat, i: NodeId, input: Input)
    requires SafeRun(cfg, states, events) && k < |states| && i in states[k].procs
    requires input.Delivery? ==> Packet(i, input.message) in states[k].net
    requires AppendGuard(states[k].procs[i].node, Feed(input))
    ensures InOrder(states[k].procs[i].node, Handle(states[k].procs[i].node, input))
    ensures var p := states[k].procs[i]; p.pending != [] ==> Execute(p.disk, p.pending[0]).alive
  {
    hide Handle, InOrder, SafeInv, Execute, AppendGuard;
    var hs := JustifyUpTo(cfg, states, events, k);
    NoPanicIn(cfg, states[k], hs[k], i, input);
  }

  lemma NoPanicIn(cfg: Config, c: Cluster, h: History, i: NodeId, input: Input)
    requires SafeInv(cfg, c, h) && i in c.procs
    requires input.Delivery? ==> Packet(i, input.message) in c.net
    requires AppendGuard(c.procs[i].node, Feed(input))
    ensures InOrder(c.procs[i].node, Handle(c.procs[i].node, input))
    ensures var p := c.procs[i]; p.pending != [] ==> Execute(p.disk, p.pending[0]).alive
  {
    hide Handle, InOrder, HistoryOk, AckHistoryOk, Orderly, DiskOk;
    var p := c.procs[i];
    assert ProcessOk(cfg.nodes, i, p, h) && ReplicaProcessOk(i, p, h);
    DeliveredOrderly(cfg.nodes, i, p.node, p.disk, input, h);
    HandleInOrder(p.node, input);
    if p.pending != [] {
      assert ActionOk(i, p.node, p.disk, true, p.pending[0], h);
      assert ReplicaActionOk(i, p.node, p.pending[0], h);
    }
  }
}
