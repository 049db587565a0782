/** Between restarts a node applies each index exactly once and in order, and never panics. */
module Applied {
  import opened RaftTypes
  import opened RaftNode
  import OrderStatistics
  import opened Logs
  import opened Durability
  import opened Process
  import opened Compaction
  import opened ElectionSteps
  import opened CommitRule

  /** The bounds every index stays within. */
  ghost predicate IndicesOk(n: Node) {
    n.snapIndex <= n.lastApplied == n.commitIndex <= n.LastLogIndex()
  }

  /** Follows the applied index through a list of actions: an application must be of the next index, a
      snapshot must lie ahead. None is a violation. */
  function Follow(applied: nat, actions: seq<Action>): Option<nat>
    decreases |actions|
  {
    if actions == [] then Some(applied)
    else match actions[0]
         case ApplyToStateMachine(index, _) =>
           if index == applied + 1 then Follow(index, actions[1..]) else None
         case LoadSnapshot(index, _, _) =>
           if index > applied then Follow(index, actions[1..]) else None
         case _ => Follow(applied, actions[1..])
  }

  predicate Advances(a: Action) { a.ApplyToStateMachine? || a.LoadSnapshot? }

  lemma {:induction false} FollowConcat(applied: nat, a: seq<Action>, b: seq<Action>)
    requires Follow(applied, a).Some?
    ensures Follow(applied, a + b) == Follow(Follow(applied, a).value, b)
    decreases |a|
  {
    if a == [] {
      assert a + b == b;
    } else {
      assert (a + b)[1..] == a[1..] + b;
      match a[0] {
        case ApplyToStateMachine(index, _) => FollowConcat(index, a[1..], b);
        case LoadSnapshot(index, _, _) => FollowConcat(index, a[1..], b);
        case _ => FollowConcat(applied, a[1..], b);
      }
    }
  }

  lemma {:induction false} FollowQuiet(applied: nat, actions: seq<Action>)
    requires forall k :: 0 <= k < |actions| ==> !Advances(actions[k])
    ensures Follow(applied, actions) == Some(applied)
    decreases |actions|
  {
    if actions != [] {
      FollowQuiet(applied, actions[1..]);
    }
  }

  lemma {:induction false} FollowEntries(applied: nat, entries: seq<LogEntry>)
    ensures Follow(applied, Node.Applies(applied + 1, entries)) == Some(applied + |entries|)
    decreases |entries|
  {
    if entries != [] {
      var actions := Node.Applies(applied + 1, entries);
      assert actions[1..] == Node.Applies(applied + 2, entries[1..]);
      FollowEntries(applied + 1, entries[1..]);
    }
  }

  /** Every applied command is the log entry at its index. */
  ghost predicate FromLog(n: Node, actions: seq<Action>) {
    forall k :: 0 <= k < |actions| && actions[k].ApplyToStateMachine? ==>
      n.EntryAt(actions[k].index).Some? && n.EntryAt(actions[k].index).value.command == actions[k].command
  }

  /** What one call must do. */
  ghost predicate InOrder(n: Node, r: Step) {
    && r.Done? && IndicesOk(r.node)
    && Follow(n.lastApplied, r.actions) == Some(r.node.lastApplied)
    && FromLog(r.node, r.actions)
  }

  lemma QuietInOrder(n: Node, r: Step)
    requires IndicesOk(n) && r.Done? && IndicesOk(r.node) && r.node.lastApplied == n.lastApplied
    requires forall k :: 0 <= k < |r.actions| ==> !Advances(r.actions[k])
    ensures InOrder(n, r)
  {
    FollowQuiet(n.lastApplied, r.actions);
  }

  // ----- Assumptions on messages -----

  /** Entries start at or above the snapshot and keep the terms of what is already committed. */
  ghost predicate KeepsCommitted(n: Node, m: Message)
    requires m.AppendEntries?
  {
    && n.snapIndex <= m.prevIndex
    && forall k :: 0 <= k < |m.entries| && m.prevIndex + 1 + k <= n.commitIndex ==>
         n.TermAt(m.prevIndex + 1 + k) == Some(m.entries[k].term)
  }

  /** Messages agree with the committed prefix, and a success never makes more of the cluster than the node's own
      log seem to hold an index. */
  ghost predicate Orderly(n: Node, input: Input) {
    input.Delivery? ==>
      var m := input.message;
      && (m.AppendEntries? && m.term >= n.currentTerm ==> KeepsCommitted(n, m))
      && (m.AppendEntriesResponse? && m.success ==>
            n.NoteReplicated(m).ReplicatedIndex() <= n.LastLogIndex())
      && (m.InstallSnapshot? && m.snapIndex <= n.commitIndex && n.snapIndex < m.snapIndex ==>
            n.TermAt(m.snapIndex) == Some(m.snapTerm))
  }

  // ----- AppendEntries -----

  /** A merge that agrees with the committed prefix keeps it whole. */
  lemma MergeKeepsCommitted(log: seq<LogEntry>, k: nat, entries: seq<LogEntry>, c: nat)
    requires k <= |log| && c <= |log|
    requires forall x :: 0 <= x < |entries| && k + x < c ==> log[k + x].term == entries[x].term
    ensures c <= |MergeLog(log, k, entries)| && MergeLog(log, k, entries)[..c] == log[..c]
  {
    var j := Agree(log, k, entries);
    if j < |entries| {
      assert k + j >= c;
    }
  }

  lemma AcceptedKeeps(n: Node, m: Message, timeout: nat)
    requires IndicesOk(n) && m.AppendEntries? && KeepsCommitted(n, m) && m.prevIndex <= n.LastLogIndex()
    ensures var g := Accepted(n, m, timeout); IndicesOk(g) && g.lastApplied == n.lastApplied
    ensures var c := n.commitIndex - n.snapIndex;
            c <= |Accepted(n, m, timeout).log| && Accepted(n, m, timeout).log[..c] == n.log[..c]
  {
    hide MergeLog;
    var k, c := m.prevIndex - n.snapIndex, n.commitIndex - n.snapIndex;
    forall x | 0 <= x < |m.entries| && k + x < c ensures n.log[k + x].term == m.entries[x].term {
      assert n.TermAt(m.prevIndex + 1 + x) == Some(m.entries[x].term);
    }
    MergeKeepsCommitted(n.log, k, m.entries, c);
  }

  lemma FollowInOrder(g: Node, commit: nat)
    requires IndicesOk(g)
    ensures InOrder(g, g.FollowCommit(commit))
  {
    hide Node.Slice, Follow;
    if commit > g.commitIndex {
      var c := if commit <= g.LastLogIndex() then commit else g.LastLogIndex();
      SliceInOrder(g, c);
      var s := g.Slice(g.lastApplied + 1, c + 1).value;
      SameLog(g, g.(commitIndex := c, lastApplied := c), Node.Applies(g.lastApplied + 1, s));
    } else {
      FollowQuiet(g.lastApplied, []);
    }
  }

  lemma SameLog(n: Node, n': Node, actions: seq<Action>)
    requires n'.log == n.log && n'.snapIndex == n.snapIndex && FromLog(n, actions)
    ensures FromLog(n', actions)
  {
    forall k | 0 <= k < |actions| && actions[k].ApplyToStateMachine?
      ensures n'.EntryAt(actions[k].index).Some? && n'.EntryAt(actions[k].index).value.command == actions[k].command
    {
      assert n'.EntryAt(actions[k].index) == n.EntryAt(actions[k].index);
    }
  }

  /** What a move of the commit index to c applies. */
  lemma SliceInOrder(n: Node, c: nat)
    requires IndicesOk(n) && n.commitIndex <= c <= n.LastLogIndex()
    ensures var s := n.Slice(n.lastApplied + 1, c + 1);
            && s == Some(n.log[n.lastApplied - n.snapIndex..c - n.snapIndex])
            && Follow(n.lastApplied, Node.Applies(n.lastApplied + 1, s.value)) == Some(c)
            && FromLog(n, Node.Applies(n.lastApplied + 1, s.value))
  {
    FollowEntries(n.lastApplied, n.log[n.lastApplied - n.snapIndex..c - n.snapIndex]);
  }

  lemma JoinInOrder(n: Node, g: Node, c: Step, persist: seq<Action>, answer: Action)
    requires InOrder(g, c) && g.lastApplied == n.lastApplied
    requires forall k :: 0 <= k < |persist| ==> !Advances(persist[k])
    requires !Advances(answer)
    ensures InOrder(n, Done(c.node, persist + (c.actions + [answer])))
  {
    FollowQuiet(n.lastApplied, persist);
    FollowConcat(n.lastApplied, c.actions, [answer]);
    FollowQuiet(c.node.lastApplied, [answer]);
    FollowConcat(n.lastApplied, persist, c.actions + [answer]);
    var all := persist + (c.actions + [answer]);
    forall k | 0 <= k < |all| && all[k].ApplyToStateMachine?
      ensures c.node.EntryAt(all[k].index).Some? && c.node.EntryAt(all[k].index).value.command == all[k].command
    {
      assert all[k] == c.actions[k - |persist|];
    }
  }

  lemma AcceptInOrder(n: Node, m: Message, timeout: nat)
    requires IndicesOk(n) && m.AppendEntries? && Accepts(n, m) && KeepsCommitted(n, m)
    ensures InOrder(n, n.OnAppendEntries(m, timeout))
  {
    AcceptShape(n, m, timeout);
    SuffixShape(n, m, timeout);
    AcceptedKeeps(n, m, timeout);
    var g := Accepted(n, m, timeout);
    FollowInOrder(g, m.leaderCommit);
    FinishInOrder(n, g, m);
  }

  lemma FinishInOrder(n: Node, g: Node, m: Message)
    requires m.AppendEntries? && g.PersistSuffix(m).Some? && g.lastApplied == n.lastApplied
    requires InOrder(g, g.FollowCommit(m.leaderCommit))
    ensures InOrder(n, g.FinishAppend(m))
  {
    FinishShape(g, m, g.PersistSuffix(m).value);
    JoinInOrder(n, g, g.FollowCommit(m.leaderCommit), g.PersistSuffix(m).value, Answer(g, m));
  }

  lemma AppendInOrder(n: Node, m: Message, timeout: nat)
    requires IndicesOk(n) && m.AppendEntries? && (m.term >= n.currentTerm ==> KeepsCommitted(n, m))
    ensures InOrder(n, n.OnAppendEntries(m, timeout))
  {
    if Accepts(n, m) {
      AcceptInOrder(n, m, timeout);
    } else {
      RefuseShape(n, m, timeout);
      QuietInOrder(n, n.OnAppendEntries(m, timeout));
    }
  }

  // ----- AppendEntriesResponse -----

  lemma AdvanceInOrder(n: Node, order: seq<nat>)
    requires IndicesOk(n) && n.ReplicatedIndex() <= n.LastLogIndex()
    ensures InOrder(n, n.AdvanceCommit(order))
  {
    hide InOrder, Node.CommitTo, Node.ReadyBarriers, Node.ReplicatedIndex, Node.CommitScan;
    var c := CommitsGreatest(n);
    assert n.commitIndex <= c <= n.LastLogIndex();
    CommitInOrder(n, c, n.ReadyBarriers(order));
  }

  lemma CommitInOrder(n: Node, c: nat, ready: seq<nat>)
    requires IndicesOk(n) && n.commitIndex <= c <= n.LastLogIndex()
    ensures InOrder(n, n.CommitTo(c, ready))
  {
    SliceInOrder(n, c);
    var r := n.CommitTo(c, ready);
    var applies := Node.Applies(n.lastApplied + 1, n.Slice(n.lastApplied + 1, c + 1).value);
    FollowConcat(n.lastApplied, applies, Node.Releases(ready));
    FollowQuiet(c, Node.Releases(ready));
    forall k | 0 <= k < |r.actions| && r.actions[k].ApplyToStateMachine?
      ensures r.node.EntryAt(r.actions[k].index).Some?
              && r.node.EntryAt(r.actions[k].index).value.command == r.actions[k].command
    {
      assert r.actions[k] == applies[k];
    }
  }

  lemma ResponseInOrder(n: Node, m: Message, order: seq<nat>)
    requires IndicesOk(n) && m.AppendEntriesResponse?
    requires m.success ==> n.NoteReplicated(m).ReplicatedIndex() <= n.LastLogIndex()
    ensures InOrder(n, n.OnAppendEntriesResponse(m, order))
  {
    if m.success {
      AdvanceInOrder(n.NoteReplicated(m), order);
    } else {
      QuietInOrder(n, n.OnAppendEntriesResponse(m, order));
    }
  }

  // ----- InstallSnapshot -----

  lemma SnapshotInOrder(n: Node, m: Message, timeout: nat)
    requires IndicesOk(n) && m.InstallSnapshot?
    requires m.snapIndex <= n.commitIndex && n.snapIndex < m.snapIndex ==> n.TermAt(m.snapIndex) == Some(m.snapTerm)
    ensures InOrder(n, n.OnInstallSnapshot(m, timeout))
  {
    var r := n.OnInstallSnapshot(m, timeout);
    if r.actions[0].LoadSnapshot? {
      FollowQuiet(m.snapIndex, r.actions[1..]);
    } else {
      QuietInOrder(n, r);
    }
  }

  // ----- Any input -----

  lemma ReactInOrder(n: Node, m: Message, timeout: nat, order: seq<nat>)
    requires IndicesOk(n) && Orderly(n, Delivery(m, timeout, order))
    ensures InOrder(n, n.React(m, timeout, order))
  {
    match m {
      case AppendEntries(_, _, _, _, _, _) => AppendInOrder(n, m, timeout);
      case AppendEntriesResponse(_, _, _, _, _, _) => ResponseInOrder(n, m, order);
      case InstallSnapshot(_, _, _, _, _) => SnapshotInOrder(n, m, timeout);
      case _ => QuietInOrder(n, n.React(m, timeout, order));
    }
  }

  lemma ReceiveInOrder(n: Node, m: Message, timeout: nat, order: seq<nat>)
    requires IndicesOk(n) && Orderly(n, Delivery(m, timeout, order))
    ensures InOrder(n, n.Receive(m, timeout, order))
  {
    var n1 := n.AdoptTerm(m.term, timeout);
    AdoptOrderly(n, m, timeout, order);
    ReactInOrder(n1, m, timeout, order);
    var r := n1.React(m, timeout, order);
    FollowQuiet(n.lastApplied, n.AdoptActions(m.term));
    FollowConcat(n.lastApplied, n.AdoptActions(m.term), r.actions);
  }

  lemma SameReplicated(n: Node, n': Node)
    requires n'.matchIndex == n.matchIndex && n'.log == n.log && n'.snapIndex == n.snapIndex
    ensures n'.ReplicatedIndex() == n.ReplicatedIndex()
  {
    hide OrderStatistics.Sort, OrderStatistics.ValuesOf;
  }

  lemma AdoptOrderly(n: Node, m: Message, timeout: nat, order: seq<nat>)
    requires IndicesOk(n) && Orderly(n, Delivery(m, timeout, order))
    ensures var n1 := n.AdoptTerm(m.term, timeout);
            IndicesOk(n1) && n1.lastApplied == n.lastApplied && Orderly(n1, Delivery(m, timeout, order))
  {
    hide Node.ReplicatedIndex;
    if m.AppendEntriesResponse? {
      SameReplicated(n.NoteReplicated(m), n.AdoptTerm(m.term, timeout).NoteReplicated(m));
    }
    if m.AppendEntries? && m.term >= n.currentTerm {
      var n1 := n.AdoptTerm(m.term, timeout);
      forall k | 0 <= k < |m.entries| && m.prevIndex + 1 + k <= n1.commitIndex
        ensures n1.TermAt(m.prevIndex + 1 + k) == Some(m.entries[k].term)
      {
        assert n.TermAt(m.prevIndex + 1 + k) == Some(m.entries[k].term);
      }
    }
  }

  /** One call: no panic, the bounds hold afterwards, and what is applied continues where the last call
      stopped, with the commands of the log. */
  lemma HandleInOrder(n: Node, input: Input)
    requires IndicesOk(n) && Orderly(n, input)
    ensures InOrder(n, Handle(n, input))
  {
    match input {
      case Delivery(m, timeout, order) => ReceiveInOrder(n, m, timeout, order);
      case _ => QuietInOrder(n, Handle(n, input));
    }
  }

  // ----- Terms of what is applied -----

  /** What is applied keeps its term, unless a snapshot swallows it. */
  ghost predicate KeepsApplied(n: Node, n': Node) {
    forall i :: n.snapIndex <= i <= n.lastApplied ==> i < n'.snapIndex || n'.TermAt(i) == n.TermAt(i)
  }

  lemma LongerKeeps(n: Node, n': Node)
    requires IndicesOk(n) && n'.snapIndex == n.snapIndex && n'.snapTerm == n.snapTerm
    requires var c := n.lastApplied - n.snapIndex; c <= |n'.log| && n'.log[..c] == n.log[..c]
    ensures KeepsApplied(n, n')
  {
    var c := n.lastApplied - n.snapIndex;
    forall i | n.snapIndex <= i <= n.lastApplied ensures n'.TermAt(i) == n.TermAt(i) {
      if i > n.snapIndex {
        assert n'.log[..c][i - n.snapIndex - 1] == n.log[..c][i - n.snapIndex - 1];
      }
    }
  }

  /** The node after an accepted AppendEntries has the merged log above the old snapshot. */
  lemma AcceptedNode(n: Node, m: Message, timeout: nat)
    requires m.AppendEntries? && Accepts(n, m) && n.snapIndex <= m.prevIndex && n.OnAppendEntries(m, timeout).Done?
    ensures m.prevIndex <= n.LastLogIndex()
    ensures var n', g := n.OnAppendEntries(m, timeout).node, Accepted(n, m, timeout);
            n'.log == g.log && n'.snapIndex == n.snapIndex && n'.snapTerm == n.snapTerm
  {
    hide Node.OnAppendEntries, Node.FinishAppend, Node.PersistSuffix, Node.FollowCommit, MergeLog, Accepts;
    AcceptShape(n, m, timeout);
    SuffixShape(n, m, timeout);
    var g := Accepted(n, m, timeout);
    FinishShape(g, m, g.PersistSuffix(m).value);
  }

  lemma AcceptKeepsApplied(n: Node, m: Message, timeout: nat)
    requires IndicesOk(n) && m.AppendEntries? && Accepts(n, m) && KeepsCommitted(n, m)
    requires n.OnAppendEntries(m, timeout).Done?
    ensures KeepsApplied(n, n.OnAppendEntries(m, timeout).node)
  {
    hide Node.OnAppendEntries, Accepted, Accepts, KeepsApplied;
    AcceptedNode(n, m, timeout);
    AcceptedKeeps(n, m, timeout);
    LongerKeeps(n, n.OnAppendEntries(m, timeout).node);
  }

  lemma ReactKeepsApplied(n: Node, m: Message, timeout: nat, order: seq<nat>)
    requires IndicesOk(n) && Orderly(n, Delivery(m, timeout, order)) && n.React(m, timeout, order).Done?
    ensures KeepsApplied(n, n.React(m, timeout, order).node)
  {
    hide KeepsApplied, IndicesOk, KeepsCommitted;
    match m {
      case RequestVote(_, _, _, _) => VoteKeeps(n, m, timeout);
      case RequestVoteResponse(_, _, _) => VoteKeeps(n, m, timeout);
      case AppendEntries(_, _, _, _, _, _) =>
        if Accepts(n, m) {
          AcceptKeepsApplied(n, m, timeout);
        } else {
          RefuseShape(n, m, timeout);
          SameKeeps(n, n.OnAppendEntries(m, timeout).node);
        }
      case AppendEntriesResponse(_, _, _, _, _, _) =>
        ResponseShape(n, m, order);
        SameKeeps(n, n.OnAppendEntriesResponse(m, order).node);
      case InstallSnapshot(_, _, _, _, _) => InstallKeeps(n, m, timeout);
      case InstallSnapshotResponse(_, _, _) => SameKeeps(n, n.OnInstallSnapshotResponse(m).node);
    }
  }

  lemma SameKeeps(n: Node, n': Node)
    requires IndicesOk(n) && n'.log == n.log && n'.snapIndex == n.snapIndex && n'.snapTerm == n.snapTerm
    ensures KeepsApplied(n, n')
  {
    LongerKeeps(n, n');
  }

  lemma VoteKeeps(n: Node, m: Message, timeout: nat)
    requires IndicesOk(n)
    ensures m.RequestVote? ==> KeepsApplied(n, n.OnRequestVote(m, timeout).node)
    ensures m.RequestVoteResponse? ==> KeepsApplied(n, n.OnRequestVoteResponse(m, timeout).node)
  {
    hide KeepsApplied, SetAll, Node.Grants;
    if m.RequestVote? {
      SameKeeps(n, n.OnRequestVote(m, timeout).node);
    }
    if m.RequestVoteResponse? {
      LongerKeeps(n, n.OnRequestVoteResponse(m, timeout).node);
    }
  }

  lemma InstallKeeps(n: Node, m: Message, timeout: nat)
    requires IndicesOk(n) && m.InstallSnapshot?
    requires m.snapIndex <= n.commitIndex && n.snapIndex < m.snapIndex ==> n.TermAt(m.snapIndex) == Some(m.snapTerm)
    ensures KeepsApplied(n, n.OnInstallSnapshot(m, timeout).node)
  {
  }

  lemma HandleKeepsApplied(n: Node, input: Input)
    requires IndicesOk(n) && Orderly(n, input) && Handle(n, input).Done?
    ensures KeepsApplied(n, Handle(n, input).node)
  {
    hide KeepsApplied, Node.React, Orderly;
    match input {
      case Delivery(m, timeout, order) =>
        AdoptOrderly(n, m, timeout, order);
        var n1 := n.AdoptTerm(m.term, timeout);
        ReactKeepsApplied(n1, m, timeout, order);
        KeepsThrough(n, n1, n1.React(m, timeout, order).node);
      case _ => LongerKeeps(n, Handle(n, input).node);
    }
  }

  lemma KeepsThrough(n: Node, n1: Node, n': Node)
    requires KeepsApplied(n1, n') && n1.log == n.log && n1.snapIndex == n.snapIndex && n1.snapTerm == n.snapTerm
    requires n1.lastApplied == n.lastApplied
    ensures KeepsApplied(n, n')
  {
    forall i | n.snapIndex <= i <= n.lastApplied ensures i < n'.snapIndex || n'.TermAt(i) == n.TermAt(i) {
      assert n1.TermAt(i) == n.TermAt(i);
    }
  }

  // ----- Sequences of calls -----

  /** One call: an input, or the completion of a snapshot prepared in an earlier or the present state. */
  datatype Call = Given(input: Input) | Completes(prepared: nat)

  function Perform(nodes: seq<Node>, k: nat, call: Call): Step
    requires k < |nodes| && (call.Completes? ==> call.prepared <= k)
  {
    match call
    case Given(input) => Handle(nodes[k], input)
    case Completes(j) =>
      match nodes[j].PrepareSnapshot()
      case None => Panicked
      case Some((index, term)) => match nodes[k].CompleteSnapshot(index, term)
                                  case None => Panicked
                                  case Some(n) => Done(n, [])
  }

  /** What the caller owes: orderly inputs, and metadata that was prepared. */
  ghost predicate Proper(nodes: seq<Node>, k: nat, call: Call)
    requires k < |nodes|
  {
    match call
    case Given(input) => Orderly(nodes[k], input)
    case Completes(j) => j <= k
  }

  ghost predicate Calls(nodes: seq<Node>, calls: seq<Call>, actions: seq<seq<Action>>) {
    && |nodes| == |calls| + 1 && |actions| == |calls| && IndicesOk(nodes[0])
    && forall k :: 0 <= k < |calls| ==>
         Proper(nodes, k, calls[k]) && Perform(nodes, k, calls[k]) == Done(nodes[k + 1], actions[k])
  }

  function Flatten(actions: seq<seq<Action>>): seq<Action> {
    if actions == [] then [] else Flatten(actions[..|actions| - 1]) + actions[|actions| - 1]
  }

  /** The state at k is fine, and what any earlier state had applied is still there or compacted away. */
  ghost predicate StateOk(nodes: seq<Node>, k: nat)
    requires k < |nodes|
  {
    forall j :: 0 <= j <= k ==> IndicesOk(nodes[j]) && Remembers(nodes[j], nodes[k])
  }

  ghost predicate Remembers(n: Node, n': Node) {
    && n.snapIndex <= n.lastApplied <= n'.lastApplied && n.snapIndex <= n'.snapIndex
    && (n.lastApplied < n'.snapIndex || n'.TermAt(n.lastApplied) == n.TermAt(n.lastApplied))
  }

  /** Completing a snapshot never panics, and compacts at the index for which it was prepared or does nothing. */
  lemma CompletesInOrder(nodes: seq<Node>, k: nat, j: nat)
    requires k < |nodes| && j <= k && StateOk(nodes, k)
    ensures var n, index := nodes[k], nodes[j].lastApplied;
            var r := Perform(nodes, k, Completes(j));
            && InOrder(n, r)
            && r.node == (if index <= n.snapIndex then n else Compacted(n, index))
  {
    assert Remembers(nodes[j], nodes[k]);
    var n, index := nodes[k], nodes[j].lastApplied;
    var term := nodes[j].TermAt(index).value;
    CompletePanics(n, index, term);
    FollowQuiet(n.lastApplied, []);
  }

  /** No allowed call panics in a reachable state, and each continues the application in order. */
  lemma CallInOrder(nodes: seq<Node>, k: nat, call: Call)
    requires k < |nodes| && Proper(nodes, k, call) && StateOk(nodes, k)
    ensures InOrder(nodes[k], Perform(nodes, k, call))
    ensures KeepsApplied(nodes[k], Perform(nodes, k, call).node)
    ensures nodes[k].snapIndex <= Perform(nodes, k, call).node.snapIndex
  {
    match call {
      case Given(input) =>
        HandleInOrder(nodes[k], input);
        HandleKeepsApplied(nodes[k], input);
        SnapGrows(nodes[k], input);
      case Completes(j) =>
        CompletesInOrder(nodes, k, j);
        CompactedKeeps(nodes[k], nodes[j].lastApplied);
    }
  }

  lemma CompactedKeeps(n: Node, index: nat)
    requires IndicesOk(n) && index <= n.lastApplied
    ensures KeepsApplied(n, n)
    ensures index > n.snapIndex ==> KeepsApplied(n, Compacted(n, index))
  {
    if index > n.snapIndex {
      forall i | n.snapIndex <= i <= n.lastApplied && i >= index ensures Compacted(n, index).TermAt(i) == n.TermAt(i) {
        ReadsPreserved(n, index, i, 0);
      }
    }
  }

  lemma SnapGrows(n: Node, input: Input)
    requires Handle(n, input).Done?
    ensures n.snapIndex <= Handle(n, input).node.snapIndex
  {
    hide Node.React;
    if input.Delivery? {
      ReactSnapGrows(n.AdoptTerm(input.message.term, input.timeout), input.message, input.timeout, input.order);
    }
  }

  lemma ReactSnapGrows(n: Node, m: Message, timeout: nat, order: seq<nat>)
    requires n.React(m, timeout, order).Done?
    ensures n.snapIndex <= n.React(m, timeout, order).node.snapIndex
  {
    hide Node.OnAppendEntries, Node.OnAppendEntriesResponse, SetAll, Node.Grants;
    if m.AppendEntries? {
      AppendFrame(n, m, timeout);
    } else if m.AppendEntriesResponse? {
      ResponseShape(n, m, order);
    }
  }

  lemma {:induction false} FollowGrows(applied: nat, actions: seq<Action>)
    requires Follow(applied, actions).Some?
    ensures applied <= Follow(applied, actions).value
    decreases |actions|
  {
    if actions != [] {
      match actions[0] {
        case ApplyToStateMachine(index, _) => FollowGrows(index, actions[1..]);
        case LoadSnapshot(index, _, _) => FollowGrows(index, actions[1..]);
        case _ => FollowGrows(applied, actions[1..]);
      }
    }
  }

  lemma RemembersOn(m: Node, n: Node, n': Node)
    requires IndicesOk(n) && Remembers(m, n) && KeepsApplied(n, n')
    requires n.snapIndex <= n'.snapIndex && n.lastApplied <= n'.lastApplied
    ensures Remembers(m, n')
  {
  }

  lemma StepOk(nodes: seq<Node>, calls: seq<Call>, actions: seq<seq<Action>>, k: nat)
    requires Calls(nodes, calls, actions) && k < |calls| && StateOk(nodes, k)
    ensures StateOk(nodes, k + 1) && FromLog(nodes[k + 1], actions[k])
    ensures Follow(nodes[k].lastApplied, actions[k]) == Some(nodes[k + 1].lastApplied)
  {
    hide Perform, KeepsApplied, FromLog, Follow, Remembers, Proper;
    CallInOrder(nodes, k, calls[k]);
    FollowGrows(nodes[k].lastApplied, actions[k]);
    RemembersSelf(nodes[k + 1]);
    forall j | 0 <= j <= k + 1 ensures IndicesOk(nodes[j]) && Remembers(nodes[j], nodes[k + 1]) {
      if j <= k {
        RemembersOn(nodes[j], nodes[k], nodes[k + 1]);
      }
    }
  }

  lemma RemembersSelf(n: Node)
    requires IndicesOk(n)
    ensures Remembers(n, n)
  {
  }

  lemma {:induction false} StatesOk(nodes: seq<Node>, calls: seq<Call>, actions: seq<seq<Action>>, k: nat)
    requires Calls(nodes, calls, actions) && k < |nodes|
    ensures StateOk(nodes, k)
  {
    hide Perform, Proper;
    if k == 0 {
      RemembersSelf(nodes[0]);
    } else {
      StatesOk(nodes, calls, actions, k - 1);
      StepOk(nodes, calls, actions, k - 1);
    }
  }

  lemma {:induction false} FollowedUpTo(nodes: seq<Node>, calls: seq<Call>, actions: seq<seq<Action>>, k: nat)
    requires Calls(nodes, calls, actions) && k < |nodes|
    ensures Follow(nodes[0].lastApplied, Flatten(actions[..k])) == Some(nodes[k].lastApplied)
  {
    hide Perform, Proper, StateOk;
    if k > 0 {
      FollowedUpTo(nodes, calls, actions, k - 1);
      StatesOk(nodes, calls, actions, k - 1);
      StepOk(nodes, calls, actions, k - 1);
      assert actions[..k][..k - 1] == actions[..k - 1];
      FollowConcat(nodes[0].lastApplied, Flatten(actions[..k - 1]), actions[k - 1]);
    }
  }

  /** Applied exactly once and in order: over any sequence of allowed calls, snapshots included, the applied indices
      run on without gap or repetition, except forward over an installed snapshot, and end at the node's applied
      index; every command is the log entry at its index; and the bounds hold throughout. */
  lemma AppliedExactlyOnce(nodes: seq<Node>, calls: seq<Call>, actions: seq<seq<Action>>)
    requires Calls(nodes, calls, actions)
    ensures forall k :: 0 <= k < |nodes| ==> IndicesOk(nodes[k])
    ensures Follow(nodes[0].lastApplied, Flatten(actions)) == Some(nodes[|calls|].lastApplied)
    ensures forall k :: 0 <= k < |calls| ==> FromLog(nodes[k + 1], actions[k])
  {
    StatesOk(nodes, calls, actions, |calls|);
    FollowedUpTo(nodes, calls, actions, |calls|);
    assert actions[..|calls|] == actions;
    forall k | 0 <= k < |calls| ensures FromLog(nodes[k + 1], actions[k]) {
      StatesOk(nodes, calls, actions, k);
      StepOk(nodes, calls, actions, k);
    }
  }

  /** And no allowed call that may come next panics. */
  lemma NextCallInOrder(nodes: seq<Node>, calls: seq<Call>, actions: seq<seq<Action>>, call: Call)
    requires Calls(nodes, calls, actions) && Proper(nodes, |calls|, call)
    ensures InOrder(nodes[|calls|], Perform(nodes, |calls|, call))
  {
    StatesOk(nodes, calls, actions, |calls|);
    CallInOrder(nodes, |calls|, call);
  }
}
