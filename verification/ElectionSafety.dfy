/** Election safety and log matching over every run. */
module ElectionSafety {
  import opened RaftTypes
  import opened RaftNode
  import opened Frames
  import opened Storage
  import opened Durability
  import opened Process
  import opened History
  import opened Cluster
  import opened Elections
  import opened ElectionSteps

  // ----- Executing one action -----

  /** If nothing more is to be persisted, the disk already holds the node. */
  lemma {:induction false} QuietHolds(d: Disk, actions: seq<Action>, n: Node)
    requires Mirrors(d, actions, n)
    requires forall k :: 0 <= k < |actions| ==> !Persists(actions[k])
    ensures Holds(d, n)
    decreases |actions|
  {
    if actions != [] && !Reveals(actions[0]) {
      QuietHolds(Execute(d, actions[0]).disk, actions[1..], n);
    }
  }

  /** Dropping the first action keeps the rest justified; only the first may be the write of a bare term. */
  lemma DropFirst(i: NodeId, n: Node, d: Disk, d': Disk, pending: seq<Action>, h: History)
    requires PendingOk(i, n, d, pending, h) && pending != []
    ensures PendingOk(i, n, d', pending[1..], h)
  {
    var rest := pending[1..];
    forall k | 0 <= k < |rest| ensures ActionOk(i, n, d', k == 0, rest[k], h) {
      assert ActionOk(i, n, d, false, pending[k + 1], h);
    }
  }

  lemma RunMetadata(nodes: seq<NodeId>, i: NodeId, n: Node, d: Disk, t: nat, v: Option<NodeId>, h: History)
    returns (h': History)
    requires NodeOk(nodes, i, n, d, h) && HistoryOk(nodes, h)
    requires ActionOk(i, n, d, true, PersistMetadata(t, v), h)
    ensures var d' := d.(meta := Some(Metadata(t, v)));
            NodeOk(nodes, i, n, d', h') && HistoryOk(nodes, h') && GrowsBy(h, h', i)
    ensures h' == if v.None? then h else Cast(h, i, t, v.value, n.log)
  {
    var d' := d.(meta := Some(Metadata(t, v)));
    if v.None? || (i, t) in h.votes {
      h' := h;
    } else {
      h' := Cast(h, i, t, v.value, n.log);
      CastOk(nodes, h, i, t, v.value, n.log);
      LogGrows(n.log, n.currentTerm, h, h');
    }
    LogGrows(DiskLog(d), DiskTerm(d), h, h');
    assert DiskLog(d') == DiskLog(d);
  }

  lemma RunStore(nodes: seq<NodeId>, i: NodeId, p: Process, p': Process, h: History)
    requires ProcessOk(nodes, i, p, h) && p.pending != [] && p.pending[0].PersistLogEntries?
    requires p' == Process(p.node, p.pending[1..], Execute(p.disk, p.pending[0]).disk)
    ensures NodeOk(nodes, i, p'.node, p'.disk, h) && Holds(p'.disk, p'.node)
  {
    forall k | 0 <= k < |p'.pending| ensures !Persists(p'.pending[k]) {
      assert p'.pending[k] == p.pending[k + 1];
    }
    QuietHolds(p'.disk, p'.pending, p'.node);
  }

  lemma RunSend(nodes: seq<NodeId>, i: NodeId, n: Node, d: Disk, target: NodeId, m: Message, h: History)
    requires NodeOk(nodes, i, n, d, h) && Holds(d, n) && SendOk(i, n, target, m, h)
    ensures MessageOk(nodes, target, m, h)
  {
  }

  lemma RunKeeps(cfg: Config, i: NodeId, p: Process, p': Process, h: History) returns (h': History)
    requires ProcessOk(cfg.nodes, i, p, h) && HistoryOk(cfg.nodes, h) && Next(cfg, i, p, Exec, p')
    ensures ProcessOk(cfg.nodes, i, p', h') && HistoryOk(cfg.nodes, h') && GrowsBy(h, h', i)
    ensures forall x :: x in Sent(i, p, Exec) ==> MessageOk(cfg.nodes, x.target, x.message, h')
    ensures h' == h || (p.pending[0].PersistMetadata? && p.pending[0].votedFor.Some?
                        && h' == Cast(h, i, p.pending[0].term, p.pending[0].votedFor.value, p.node.log))
  {
    var a := p.pending[0];
    assert ActionOk(i, p.node, p.disk, true, a, h);
    h' := h;
    match a {
      case PersistMetadata(t, v) => h' := RunMetadata(cfg.nodes, i, p.node, p.disk, t, v, h);
      case PersistLogEntries(_, _) => RunStore(cfg.nodes, i, p, p', h);
      case SendMessage(target, m) => RunSend(cfg.nodes, i, p.node, p.disk, target, m, h);
      case _ =>
    }
    PendingGrows(i, p.node, p.disk, p.pending, h, h');
    DropFirst(i, p.node, p.disk, p'.disk, p.pending, h');
    DurableStep(cfg, i, p, Exec, p');
  }

  // ----- Restart -----

  lemma RestartKeeps(cfg: Config, i: NodeId, p: Process, timeout: nat, p': Process, h: History)
    requires ProcessOk(cfg.nodes, i, p, h) && Next(cfg, i, p, Restart(timeout), p')
    ensures ProcessOk(cfg.nodes, i, p', h)
  {
    RecoverHolds(cfg, i, timeout, p.disk);
    DurableStep(cfg, i, p, Restart(timeout), p');
  }

  // ----- Input -----

  lemma MessagesAboveSnapshot(nodes: seq<NodeId>, i: NodeId, p: Process, input: Input, h: History)
    requires NodeOk(nodes, i, p.node, p.disk, h)
    requires input.Delivery? ==> MessageOk(nodes, i, input.message, h)
    ensures AboveSnapshot(p, Feed(input))
  {
  }

  lemma InputKeeps(cfg: Config, i: NodeId, p: Process, input: Input, p': Process, h: History) returns (h': History)
    requires Distinct(cfg.nodes)
    requires ProcessOk(cfg.nodes, i, p, h) && HistoryOk(cfg.nodes, h) && Next(cfg, i, p, Feed(input), p')
    requires input.Delivery? ==> MessageOk(cfg.nodes, i, input.message, h)
    requires VoteGuard(p.node, Feed(input))
    ensures ProcessOk(cfg.nodes, i, p', h') && HistoryOk(cfg.nodes, h') && GrowsBy(h, h', i)
    ensures h' == AfterFeed(h, i, p.node, p'.node)
  {
    h' := FeedKeeps(cfg.nodes, i, p.node, p.disk, input, h);
    MessagesAboveSnapshot(cfg.nodes, i, p, input, h);
    DurableStep(cfg, i, p, Feed(input), p');
    assert [] + p'.pending == p'.pending;
  }

  // ----- The cluster -----

  lemma StepKeeps(cfg: Config, c: Cluster, i: NodeId, e: Event, c': Cluster, h: History) returns (h': History)
    requires Distinct(cfg.nodes) && Inv(cfg, c, h) && ClusterStep(cfg, c, i, e, c')
    requires VoteGuard(c.procs[i].node, e)
    ensures Inv(cfg, c', h') && GrowsBy(h, h', i)
  {
    var p, p' := c.procs[i], c'.procs[i];
    assert ProcessOk(cfg.nodes, i, p, h);
    match e {
      case Feed(input) => h' := InputKeeps(cfg, i, p, input, p', h);
      case Exec => h' := RunKeeps(cfg, i, p, p', h);
      case Restart(timeout) =>
        h' := h;
        RestartKeeps(cfg, i, p, timeout, p', h);
    }
    InvGrows(cfg, c, i, e, c', h, h');
  }

  lemma InvGrows(cfg: Config, c: Cluster, i: NodeId, e: Event, c': Cluster, h: History, h': History)
    requires Inv(cfg, c, h) && ClusterStep(cfg, c, i, e, c') && GrowsBy(h, h', i) && HistoryOk(cfg.nodes, h')
    requires ProcessOk(cfg.nodes, i, c'.procs[i], h')
    requires forall x :: x in Sent(i, c.procs[i], e) ==> MessageOk(cfg.nodes, x.target, x.message, h')
    ensures Inv(cfg, c', h')
  {
    hide ProcessOk, MessageOk, HistoryOk, Next, Sent;
    forall j | j in c'.procs ensures ProcessOk(cfg.nodes, j, c'.procs[j], h') {
      if j != i {
        ProcessGrows(cfg.nodes, j, c.procs[j], h, h', i);
      }
    }
    forall x | x in c'.net ensures MessageOk(cfg.nodes, x.target, x.message, h') {
      if x in c.net {
        MessageGrows(cfg.nodes, x.target, x.message, h, h');
      }
    }
  }

  lemma InitialInv(cfg: Config, c: Cluster)
    requires Initial(cfg, c)
    ensures Inv(cfg, c, EMPTY_HISTORY)
  {
    forall i | i in c.procs ensures ProcessOk(cfg.nodes, i, c.procs[i], EMPTY_HISTORY) {
      var timeout :| c.procs[i] == Boot(cfg, i, timeout);
    }
  }

  // ----- Runs -----

  ghost predicate Explains(cfg: Config, states: seq<Cluster>, hs: seq<History>) {
    && |hs| <= |states|
    && (forall k :: 0 <= k < |hs| ==> Inv(cfg, states[k], hs[k]))
    && (forall j, k :: 0 <= j <= k < |hs| ==> Grows(hs[j], hs[k]))
  }

  lemma StepAt(cfg: Config, states: seq<Cluster>, events: seq<ClusterEvent>, k: nat)
    requires ClusterRun(cfg, states, events) && VoteGuarded(states, events) && k < |events|
    ensures ClusterStep(cfg, states[k], events[k].id, events[k].event, states[k + 1])
    ensures VoteGuard(states[k].procs[events[k].id].node, events[k].event)
  {
    assert ClusterStep(cfg, states[k], events[k].id, events[k].event, states[k + 1]);
  }

  lemma ExplainMore(cfg: Config, states: seq<Cluster>, hs: seq<History>, h: History)
    requires Explains(cfg, states, hs) && 0 < |hs| < |states| && Inv(cfg, states[|hs|], h)
    requires Grows(hs[|hs| - 1], h)
    ensures Explains(cfg, states, hs + [h])
  {
    var hs' := hs + [h];
    forall j, k | 0 <= j <= k < |hs'| ensures Grows(hs'[j], hs'[k]) {
      if j < k == |hs| {
        GrowsTransitive(hs[j], hs[|hs| - 1], h);
      } else if k < |hs| {
        assert Grows(hs[j], hs[k]);
      }
    }
  }

  lemma {:induction false} ExplainUpTo(cfg: Config, states: seq<Cluster>, events: seq<ClusterEvent>, k: nat)
    returns (hs: seq<History>)
    requires Distinct(cfg.nodes) && ClusterRun(cfg, states, events) && VoteGuarded(states, events)
    requires k < |states|
    ensures |hs| == k + 1 && Explains(cfg, states, hs)
  {
    hide Inv, ClusterStep, VoteGuard, Initial, Grows, GrowsBy;
    if k == 0 {
      InitialInv(cfg, states[0]);
      GrowsSelf(EMPTY_HISTORY);
      hs := [EMPTY_HISTORY];
    } else {
      hs := ExplainUpTo(cfg, states, events, k - 1);
      StepAt(cfg, states, events, k - 1);
      var h := StepKeeps(cfg, states[k - 1], events[k - 1].id, events[k - 1].event, states[k], hs[k - 1]);
      ExplainMore(cfg, states, hs, h);
      hs := hs + [h];
    }
  }

  /** Every guarded run is explained by a growing history. */
  lemma RunExplained(cfg: Config, states: seq<Cluster>, events: seq<ClusterEvent>) returns (hs: seq<History>)
    requires Distinct(cfg.nodes) && ClusterRun(cfg, states, events) && VoteGuarded(states, events)
    ensures |hs| == |states| && Explains(cfg, states, hs)
  {
    hs := ExplainUpTo(cfg, states, events, |states| - 1);
  }

  /** Election safety: over a whole run, with lost, duplicated and reordered messages and with crashes
      between actions, at most one node is ever leader in a term. */
  lemma OneLeaderPerTerm(cfg: Config, states: seq<Cluster>, events: seq<ClusterEvent>, j: nat, k: nat, a: NodeId,
                         b: NodeId)
    requires Distinct(cfg.nodes) && ClusterRun(cfg, states, events) && VoteGuarded(states, events)
    requires j < |states| && k < |states| && a in states[j].procs && b in states[k].procs
    requires states[j].procs[a].node.role == Leader && states[k].procs[b].node.role == Leader
    requires states[j].procs[a].node.currentTerm == states[k].procs[b].node.currentTerm
    ensures a == b
  {
    var hs := RunExplained(cfg, states, events);
    assert ProcessOk(cfg.nodes, a, states[j].procs[a], hs[j]);
    assert ProcessOk(cfg.nodes, b, states[k].procs[b], hs[k]);
    if j <= k {
      assert Grows(hs[j], hs[k]);
    } else {
      assert Grows(hs[k], hs[j]);
    }
  }

  // ----- Log matching -----

  /** A stretch of log: a node's whole log, or what an AppendEntries carries after its previous index. */
  datatype Stretch = Stretch(before: nat, entries: seq<LogEntry>) {
    predicate Has(index: nat) { before < index <= before + |entries| }
    function At(index: nat): LogEntry requires Has(index) { entries[index - before - 1] }
  }

  /** The stretches visible in a state: logs in memory, logs on disk, and AppendEntries ever sent. */
  ghost predicate Visible(c: Cluster, s: Stretch) {
    || (exists i :: i in c.procs && s == Stretch(0, c.procs[i].node.log))
    || (exists i :: i in c.procs && s == Stretch(0, DiskLog(c.procs[i].disk)))
    || (exists x :: x in c.net && x.message.AppendEntries?
                    && s == Stretch(x.message.prevIndex, x.message.entries))
  }

  /** Every visible stretch is part of a coherent log. */
  lemma StretchCoherent(cfg: Config, c: Cluster, h: History, s: Stretch) returns (log: seq<LogEntry>)
    requires Inv(cfg, c, h) && Visible(c, s)
    ensures Coherent(log, h) && s.before + |s.entries| <= |log|
    ensures s.entries == log[s.before..s.before + |s.entries|]
  {
    hide HistoryOk, Coherent, DurableInv, PendingOk;
    if i :| i in c.procs && s == Stretch(0, c.procs[i].node.log) {
      assert ProcessOk(cfg.nodes, i, c.procs[i], h);
      log := s.entries;
      TakeAll(log);
    } else if i :| i in c.procs && s == Stretch(0, DiskLog(c.procs[i].disk)) {
      assert ProcessOk(cfg.nodes, i, c.procs[i], h);
      log := s.entries;
      TakeAll(log);
    } else {
      var x :| x in c.net && x.message.AppendEntries? && s == Stretch(x.message.prevIndex, x.message.entries);
      assert MessageOk(cfg.nodes, x.target, x.message, h);
      log :| CarriedBy(log, x.message, h);
      TakeAll(log);
    }
  }

  /** Log matching: two stretches seen anywhere in a run that hold the same term at the same index agree on
      every entry up to that index that both hold. */
  lemma LogMatching(cfg: Config, states: seq<Cluster>, events: seq<ClusterEvent>, j: nat, k: nat,
                    a: Stretch, b: Stretch, index: nat, earlier: nat)
    requires Distinct(cfg.nodes) && ClusterRun(cfg, states, events) && VoteGuarded(states, events)
    requires j < |states| && k < |states| && Visible(states[j], a) && Visible(states[k], b)
    requires a.Has(index) && b.Has(index) && a.At(index).term == b.At(index).term
    requires earlier <= index && a.Has(earlier) && b.Has(earlier)
    ensures a.At(earlier) == b.At(earlier)
  {
    var hs := RunExplained(cfg, states, events);
    var la := StretchCoherent(cfg, states[j], hs[j], a);
    var lb := StretchCoherent(cfg, states[k], hs[k], b);
    var last := if j <= k then k else j;
    assert Grows(hs[j], hs[last]) && Grows(hs[k], hs[last]);
    CoherentGrows(la, hs[j], hs[last]);
    CoherentGrows(lb, hs[k], hs[last]);
    MatchAt(la, lb, a, b, index, earlier, hs[last]);
  }

  lemma MatchAt(la: seq<LogEntry>, lb: seq<LogEntry>, a: Stretch, b: Stretch, index: nat, earlier: nat, h: History)
    requires Coherent(la, h) && Coherent(lb, h)
    requires a.before + |a.entries| <= |la| && a.entries == la[a.before..a.before + |a.entries|]
    requires b.before + |b.entries| <= |lb| && b.entries == lb[b.before..b.before + |b.entries|]
    requires a.Has(index) && b.Has(index) && a.At(index).term == b.At(index).term
    requires earlier <= index && a.Has(earlier) && b.Has(earlier)
    ensures a.At(earlier) == b.At(earlier)
  {
    assert a.At(index) == la[index - 1] && b.At(index) == lb[index - 1];
    assert a.At(earlier) == la[earlier - 1] && b.At(earlier) == lb[earlier - 1];
    CoherentMatch(la, lb, index - 1, h);
    assert la[earlier - 1] == la[..index][earlier - 1] == lb[..index][earlier - 1] == lb[earlier - 1];
  }

  /** Along every log of a run terms never decrease, start at 1, and stay within the node's term. */
  lemma TermsOrdered(cfg: Config, states: seq<Cluster>, events: seq<ClusterEvent>, k: nat, i: NodeId, x: nat, y: nat)
    requires Distinct(cfg.nodes) && ClusterRun(cfg, states, events) && VoteGuarded(states, events)
    requires k < |states| && i in states[k].procs && x <= y < |states[k].procs[i].node.log|
    ensures var n := states[k].procs[i].node; 0 < n.log[x].term <= n.log[y].term <= n.currentTerm
  {
    var hs := RunExplained(cfg, states, events);
    assert ProcessOk(cfg.nodes, i, states[k].procs[i], hs[k]);
    CoherentSorted(cfg.nodes, hs[k], states[k].procs[i].node.log, x, y);
  }
}
