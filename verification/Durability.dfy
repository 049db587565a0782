/** Executing a handler's actions in order makes the disk mirror the node, and nothing is revealed to a
    peer before it is durable. */
module Durability {
  import opened RaftTypes
  import opened RaftNode
  import opened Logs
  import opened Frames
  import opened Storage

  predicate Persists(a: Action) {
    a.PersistMetadata? || a.PersistLogEntries? || a.LoadSnapshot?
  }

  predicate Reveals(a: Action) {
    a.SendMessage? || a.SendInstallSnapshot?
  }

  /** Running `actions` from `disk` keeps the disk well formed at every point, ends with the disk
      holding `n`, and holds `n` already at every message sent on the way. Where an action stops the
      event loop nothing more is promised. */
  ghost predicate Mirrors(disk: Disk, actions: seq<Action>, n: Node)
    decreases |actions|
  {
    && DiskOk(disk)
    && if actions == [] then Holds(disk, n)
       else
         && (Reveals(actions[0]) ==> Holds(disk, n))
         && (Execute(disk, actions[0]).alive ==> Mirrors(Execute(disk, actions[0]).disk, actions[1..], n))
  }

  lemma {:induction false} QuietMirrors(disk: Disk, actions: seq<Action>, n: Node)
    requires Holds(disk, n)
    requires forall k :: 0 <= k < |actions| ==> !Persists(actions[k])
    ensures Mirrors(disk, actions, n)
    decreases |actions|
  {
    if actions != [] {
      QuietMirrors(disk, actions[1..], n);
    }
  }

  lemma MetadataMirrors(disk: Disk, t: nat, v: Option<NodeId>, rest: seq<Action>, n: Node)
    requires DiskOk(disk)
    requires Mirrors(disk.(meta := Some(Metadata(t, v))), rest, n)
    ensures Mirrors(disk, [PersistMetadata(t, v)] + rest, n)
  {
    assert ([PersistMetadata(t, v)] + rest)[1..] == rest;
  }

  /** Storing entries at a logical index inside or just past the log. */
  lemma StoreHolds(disk: Disk, n: Node, start: nat, entries: seq<LogEntry>, n': Node)
    requires Holds(disk, n) && disk.meta.Some?
    requires n.snapIndex < start <= n.LastLogIndex() + 1
    requires n'.log == n.log[..start - n.snapIndex - 1] + entries
    requires n'.currentTerm == n.currentTerm && n'.votedFor == n.votedFor
    requires n'.snapIndex == n.snapIndex && n'.snapTerm == n.snapTerm
    ensures Holds(Execute(disk, PersistLogEntries(start, entries)).disk, n')
  {
    StoreContiguous(n.snapIndex + 1, n.log, start, entries);
    var frames := StoreFrames(disk.log.GetOr([]), start, entries);
    assert frames == Framed(n.snapIndex + 1, n'.log);
    assert Entries(frames) == n'.log;
  }

  lemma StoreMirrors(disk: Disk, n: Node, start: nat, entries: seq<LogEntry>, rest: seq<Action>, n': Node)
    requires Holds(disk, n) && disk.meta.Some?
    requires n.snapIndex < start <= n.LastLogIndex() + 1
    requires n'.log == n.log[..start - n.snapIndex - 1] + entries
    requires n'.currentTerm == n.currentTerm && n'.votedFor == n.votedFor
    requires n'.snapIndex == n.snapIndex && n'.snapTerm == n.snapTerm
    requires forall k :: 0 <= k < |rest| ==> !Persists(rest[k])
    ensures Mirrors(disk, [PersistLogEntries(start, entries)] + rest, n')
  {
    StoreHolds(disk, n, start, entries, n');
    var disk' := Execute(disk, PersistLogEntries(start, entries)).disk;
    QuietMirrors(disk', rest, n');
    assert ([PersistLogEntries(start, entries)] + rest)[1..] == rest;
  }

  lemma ProposeMirrors(disk: Disk, n: Node, command: Bytes)
    requires Holds(disk, n) && (n.role == Leader ==> disk.meta.Some?)
    ensures Mirrors(disk, n.Propose(command).actions, n.Propose(command).node)
  {
    if n.role == Leader {
      var r := n.Propose(command);
      var e := LogEntry(n.currentTerm, command);
      assert n.log[..|n.log|] == n.log;
      StoreMirrors(disk, n, r.node.LastLogIndex(), [e], r.node.AppendToAll(), r.node);
    }
  }

  lemma TickMirrors(disk: Disk, n: Node, timeout: nat)
    requires Holds(disk, n)
    ensures Mirrors(disk, n.Tick(timeout).actions, n.Tick(timeout).node)
  {
    var r := n.Tick(timeout);
    if n.role != Leader && n.ticks + 1 >= n.electionTimeout {
      var disk' := disk.(meta := Some(Metadata(r.node.currentTerm, r.node.votedFor)));
      QuietMirrors(disk', r.node.RequestVotes(), r.node);
      MetadataMirrors(disk, r.node.currentTerm, r.node.votedFor, r.node.RequestVotes(), r.node);
    } else {
      QuietMirrors(disk, r.actions, r.node);
    }
  }

  lemma VoteMirrors(disk: Disk, n: Node, m: Message, timeout: nat)
    requires m.RequestVote? && Holds(disk, n)
    ensures Mirrors(disk, n.OnRequestVote(m, timeout).actions, n.OnRequestVote(m, timeout).node)
  {
    var r := n.OnRequestVote(m, timeout);
    if n.Grants(m) {
      var disk' := disk.(meta := Some(Metadata(n.currentTerm, Some(m.candidate))));
      QuietMirrors(disk', r.actions[1..], r.node);
      MetadataMirrors(disk, n.currentTerm, Some(m.candidate), r.actions[1..], r.node);
      assert r.actions == [r.actions[0]] + r.actions[1..];
    } else {
      QuietMirrors(disk, r.actions, r.node);
    }
  }

  lemma WinMirrors(disk: Disk, n: Node, m: Message, timeout: nat)
    requires m.RequestVoteResponse? && Holds(disk, n) && (n.role == Candidate ==> disk.meta.Some?)
    ensures Mirrors(disk, n.OnRequestVoteResponse(m, timeout).actions, n.OnRequestVoteResponse(m, timeout).node)
  {
    var r := n.OnRequestVoteResponse(m, timeout);
    if r.node.role == Leader && n.role == Candidate {
      assert n.log[..|n.log|] == n.log;
      StoreMirrors(disk, n, r.node.LastLogIndex(), [LogEntry(n.currentTerm, [])], r.node.AppendToAll(), r.node);
    } else {
      QuietMirrors(disk, r.actions, r.node);
    }
  }

  /** The follower's node after accepting entries, before its commit index moves. */
  function Accepted(n: Node, m: Message, timeout: nat): Node
    requires m.AppendEntries? && n.snapIndex <= m.prevIndex <= n.LastLogIndex()
  {
    n.ResetTimer(timeout).(role := Follower, currentLeader := Some(m.leader),
                           log := MergeLog(n.log, m.prevIndex - n.snapIndex, m.entries))
  }

  ghost predicate Accepts(n: Node, m: Message)
    requires m.AppendEntries?
  {
    n.role != Leader && (n.role == Candidate ==> m.term == n.currentTerm)
    && m.term >= n.currentTerm && n.Matches(m)
  }

  /** An accepted AppendEntries at or above the snapshot: what the follower holds and does. */
  lemma AcceptShape(n: Node, m: Message, timeout: nat)
    requires m.AppendEntries? && Accepts(n, m) && n.snapIndex <= m.prevIndex
    ensures n.snapIndex <= m.prevIndex <= n.LastLogIndex()
    ensures n.OnAppendEntries(m, timeout) == Accepted(n, m, timeout).FinishAppend(m)
  {
    hide Node.FinishAppend, MergeLog, Node.Merge;
    var f := n.ResetTimer(timeout).(role := Follower, currentLeader := Some(m.leader));
    MergeIsMergeLog(f, m.prevIndex + 1, m.entries);
  }

  /** The entries a follower persists are everything it holds after the matched prefix. */
  lemma SuffixShape(n: Node, m: Message, timeout: nat)
    requires m.AppendEntries? && Accepts(n, m) && n.snapIndex <= m.prevIndex
    ensures n.snapIndex <= m.prevIndex <= n.LastLogIndex()
    ensures var k := m.prevIndex - n.snapIndex; var g := Accepted(n, m, timeout);
            && |g.log| >= k && g.log[..k] == n.log[..k]
            && (m.entries == [] ==> g.log == n.log)
            && g.PersistSuffix(m)
               == Some(if m.entries == [] then [] else [PersistLogEntries(m.prevIndex + 1, g.log[k..])])
  {
    hide MergeLog, Node.TermAt;
    var k := m.prevIndex - n.snapIndex;
    MergeKeeps(n.log, k, m.entries);
    var g := Accepted(n, m, timeout);
    assert g.log[k..|g.log|] == g.log[k..];
  }

  lemma AppendMirrors(disk: Disk, n: Node, m: Message, timeout: nat)
    requires m.AppendEntries? && Holds(disk, n) && disk.meta.Some? && n.snapIndex <= m.prevIndex
    requires n.OnAppendEntries(m, timeout).Done?
    ensures Mirrors(disk, n.OnAppendEntries(m, timeout).actions, n.OnAppendEntries(m, timeout).node)
  {
    hide Node.OnAppendEntries, Node.FinishAppend, Mirrors;
    if Accepts(n, m) {
      AcceptShape(n, m, timeout);
      SuffixShape(n, m, timeout);
      AppendAcceptedMirrors(disk, n, m, timeout);
    } else {
      RefusedMirrors(disk, n, m, timeout);
    }
  }

  lemma RefusedMirrors(disk: Disk, n: Node, m: Message, timeout: nat)
    requires m.AppendEntries? && Holds(disk, n) && !Accepts(n, m)
    ensures var r := n.OnAppendEntries(m, timeout); r.Done? && Mirrors(disk, r.actions, r.node)
  {
    hide Mirrors, DiskOk, DiskLog, Node.FirstOfRun, Node.Merge, Node.FinishAppend;
    var r := n.OnAppendEntries(m, timeout);
    QuietMirrors(disk, r.actions, r.node);
  }

  /** The actions of an accepted append, and that finishing it leaves the persistent fields alone. */
  lemma FinishShape(g: Node, m: Message, persist: seq<Action>)
    requires m.AppendEntries? && g.PersistSuffix(m) == Some(persist) && g.FinishAppend(m).Done?
    ensures var r := g.FinishAppend(m); var c := g.FollowCommit(m.leaderCommit);
            && c.Done? && r.node == c.node
            && r.node == g.(commitIndex := r.node.commitIndex, lastApplied := r.node.lastApplied)
            && r.actions == persist + (c.actions + [SendMessage(m.leader,
                 AppendEntriesResponse(g.id, g.currentTerm, g.LastLogIndex(), true, None, None))])
            && forall k :: 0 <= k < |c.actions| ==> c.actions[k].ApplyToStateMachine?
  {
    var r := g.FinishAppend(m);
    var c := g.FollowCommit(m.leaderCommit);
    var answer := SendMessage(m.leader,
                    AppendEntriesResponse(g.id, g.currentTerm, g.LastLogIndex(), true, None, None));
    assert persist + c.actions + [answer] == persist + (c.actions + [answer]);
  }

  lemma AppendAcceptedMirrors(disk: Disk, n: Node, m: Message, timeout: nat)
    requires m.AppendEntries? && Holds(disk, n) && disk.meta.Some?
    requires Accepts(n, m) && n.snapIndex <= m.prevIndex <= n.LastLogIndex()
    requires Accepted(n, m, timeout).FinishAppend(m).Done?
    ensures var r := Accepted(n, m, timeout).FinishAppend(m); Mirrors(disk, r.actions, r.node)
  {
    hide Node.FinishAppend, Node.FollowCommit, Node.PersistSuffix, Mirrors, DiskOk, MergeLog, Accepts;
    SuffixShape(n, m, timeout);
    var g := Accepted(n, m, timeout);
    FinishShape(g, m, g.PersistSuffix(m).value);
    var r := g.FinishAppend(m);
    var answer := SendMessage(m.leader,
                    AppendEntriesResponse(g.id, g.currentTerm, g.LastLogIndex(), true, None, None));
    var rest := g.FollowCommit(m.leaderCommit).actions + [answer];
    if m.entries == [] {
      assert r.actions == rest;
      QuietMirrors(disk, rest, r.node);
    } else {
      RewriteMirrors(disk, n, m.prevIndex, g.log, rest, r.node);
    }
  }

  /** Rewriting the log from `prev + 1` on with what memory holds there. */
  lemma RewriteMirrors(disk: Disk, n: Node, prev: nat, log: seq<LogEntry>, rest: seq<Action>, r: Node)
    requires Holds(disk, n) && disk.meta.Some?
    requires n.snapIndex <= prev <= n.LastLogIndex() && prev - n.snapIndex <= |log|
    requires log[..prev - n.snapIndex] == n.log[..prev - n.snapIndex]
    requires r.log == log && r.currentTerm == n.currentTerm && r.votedFor == n.votedFor
    requires r.snapIndex == n.snapIndex && r.snapTerm == n.snapTerm
    requires forall k :: 0 <= k < |rest| ==> !Persists(rest[k])
    ensures Mirrors(disk, [PersistLogEntries(prev + 1, log[prev - n.snapIndex..])] + rest, r)
  {
    hide *;
    var k := prev - n.snapIndex;
    assert log == log[..k] + log[k..];
    StoreMirrors(disk, n, prev + 1, log[k..], rest, r);
  }

  lemma CommitMirrors(disk: Disk, n: Node, c: nat, ready: seq<nat>)
    requires Holds(disk, n) && n.CommitTo(c, ready).Done?
    ensures Mirrors(disk, n.CommitTo(c, ready).actions, n.CommitTo(c, ready).node)
  {
    var r := n.CommitTo(c, ready);
    QuietMirrors(disk, r.actions, r.node);
  }

  lemma ResponseMirrors(disk: Disk, n: Node, m: Message, order: seq<nat>)
    requires m.AppendEntriesResponse? && Holds(disk, n)
    requires n.OnAppendEntriesResponse(m, order).Done?
    ensures Mirrors(disk, n.OnAppendEntriesResponse(m, order).actions, n.OnAppendEntriesResponse(m, order).node)
  {
    hide Node.CommitScan, Node.ReadyBarriers, Node.ReplicatedIndex, Node.CommitTo, Mirrors, DiskOk;
    if m.success {
      var n1 := n.NoteReplicated(m);
      var c := n1.CommitScan(n1.commitIndex + 1, n1.ReplicatedIndex(), n1.commitIndex);
      CommitMirrors(disk, n1, c.value, n1.ReadyBarriers(order));
    } else {
      var r := n.OnAppendEntriesResponse(m, order);
      QuietMirrors(disk, r.actions, r.node);
    }
  }

  lemma SnapshotMirrors(disk: Disk, n: Node, m: Message, timeout: nat)
    requires m.InstallSnapshot? && Holds(disk, n) && disk.meta.Some?
    ensures Mirrors(disk, n.OnInstallSnapshot(m, timeout).actions, n.OnInstallSnapshot(m, timeout).node)
  {
    var r := n.OnInstallSnapshot(m, timeout);
    if r.actions[0].LoadSnapshot? {
      var x := Execute(disk, r.actions[0]);
      if x.alive {
        assert Holds(x.disk, r.node);
        QuietMirrors(x.disk, r.actions[1..], r.node);
      }
    } else {
      QuietMirrors(disk, r.actions, r.node);
    }
  }
}
