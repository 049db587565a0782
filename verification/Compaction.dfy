/** Compacting the log is invisible above the snapshot: what is read there, and what handlers do with it. */
module Compaction {
  import opened RaftTypes
  import opened RaftNode
  import opened Frames
  import opened Logs
  import opened Durability

  /** The node after a snapshot up to `index`. */
  function Compacted(n: Node, index: nat): Node
    requires n.snapIndex <= index <= n.LastLogIndex()
  {
    n.(log := n.log[index - n.snapIndex..], snapIndex := index, snapTerm := n.TermAt(index).value)
  }

  /** Completing a snapshot with the metadata prepared for it is compaction at the applied index. */
  lemma CompleteIsCompacted(n: Node)
    requires n.snapIndex <= n.lastApplied <= n.LastLogIndex()
    ensures n.PrepareSnapshot().Some?
    ensures var s := n.PrepareSnapshot().value;
            n.CompleteSnapshot(s.0, s.1) == Some(Compacted(n, n.lastApplied))
  {
    assert n.log[0..] == n.log;
  }

  /** A snapshot index beyond the log panics, one at or below the old snapshot does nothing. */
  lemma CompletePanics(n: Node, index: nat, term: nat)
    ensures n.CompleteSnapshot(index, term).None? <==> index > n.LastLogIndex()
    ensures index <= n.snapIndex ==> n.CompleteSnapshot(index, term) == Some(n)
  {
  }

  /** Every term, entry and slice read above the snapshot is preserved, and so is the end of the log. */
  lemma ReadsPreserved(n: Node, index: nat, k: nat, to: nat)
    requires n.snapIndex <= index <= n.LastLogIndex()
    ensures var c := Compacted(n, index);
            && c.LastLogIndex() == n.LastLogIndex() && c.LastLogTerm() == n.LastLogTerm()
            && (k >= index ==> c.TermAt(k) == n.TermAt(k))
            && (k > index ==> c.EntryAt(k) == n.EntryAt(k) && c.Slice(k, to) == n.Slice(k, to))
            && (k < index ==> c.TermAt(k) == None)
            && (k <= index ==> c.EntryAt(k) == None && c.Slice(k, to) == Some([]))
  {
    if k > index && to > index {
      SliceShift(n, index, k, to);
    }
  }

  lemma SliceShift(n: Node, index: nat, k: nat, to: nat)
    requires n.snapIndex <= index <= n.LastLogIndex() && k > index && to > index
    ensures Compacted(n, index).Slice(k, to) == n.Slice(k, to)
  {
    var d := index - n.snapIndex;
    var f := k - index - 1;
    var t := if to - index - 1 <= |n.log| - d then to - index - 1 else |n.log| - d;
    if f <= t {
      DropSlice(n.log, d, f, t);
    }
  }

  // ----- AppendEntries -----

  lemma {:induction false} AgreeShift(log: seq<LogEntry>, d: nat, k: nat, entries: seq<LogEntry>)
    requires d <= k <= |log|
    ensures Agree(log[d..], k - d, entries) == Agree(log, k, entries)
    decreases |entries|
  {
    if entries != [] && k < |log| && log[k].term == entries[0].term {
      AgreeShift(log, d, k + 1, entries[1..]);
    }
  }

  /** Merging above a cut and cutting commute. */
  lemma MergeShift(log: seq<LogEntry>, d: nat, k: nat, entries: seq<LogEntry>)
    requires d <= k <= |log|
    ensures d <= |MergeLog(log, k, entries)|
    ensures MergeLog(log, k, entries)[d..] == MergeLog(log[d..], k - d, entries)
  {
    hide Agree;
    AgreeShift(log, d, k, entries);
    var j := Agree(log, k, entries);
    if j < |entries| {
      CutShift(log, entries[j..], d, k + j, k - d + j);
    }
  }

  lemma CutShift(log: seq<LogEntry>, rest: seq<LogEntry>, d: nat, k: nat, e: nat)
    requires d <= k <= |log| && e == k - d
    ensures (log[..k] + rest)[d..] == log[d..][..e] + rest
  {
    DropConcat(log[..k], rest, d);
    DropTake(log, d, k);
  }

  lemma AcceptedShift(n: Node, index: nat, m: Message, timeout: nat)
    requires m.AppendEntries? && n.snapIndex <= index <= m.prevIndex <= n.LastLogIndex()
    ensures var g := Accepted(n, m, timeout);
            && g.snapIndex <= index <= g.LastLogIndex() && m.prevIndex <= g.LastLogIndex()
            && Accepted(Compacted(n, index), m, timeout) == Compacted(g, index)
  {
    hide MergeLog, Node.TermAt, Agree;
    var d := index - n.snapIndex;
    MergeShift(n.log, d, m.prevIndex - n.snapIndex, m.entries);
    MergeKeeps(n.log, m.prevIndex - n.snapIndex, m.entries);
    TermKept(n, index, m, timeout);
  }

  lemma TermKept(n: Node, index: nat, m: Message, timeout: nat)
    requires m.AppendEntries? && n.snapIndex <= index <= m.prevIndex <= n.LastLogIndex()
    ensures Accepted(n, m, timeout).TermAt(index) == n.TermAt(index)
  {
    var k := m.prevIndex - n.snapIndex;
    MergeKeeps(n.log, k, m.entries);
    var g := Accepted(n, m, timeout);
    if index > n.snapIndex {
      assert g.log[index - n.snapIndex - 1] == g.log[..k][index - n.snapIndex - 1];
    }
  }

  /** The same outcome on both sides: both panic, or the same actions and nodes that differ by compaction. */
  ghost predicate SameStep(full: Step, compacted: Step, index: nat) {
    || (full.Panicked? && compacted.Panicked?)
    || (full.Done? && compacted.Done? && full.actions == compacted.actions
        && full.node.snapIndex <= index <= full.node.LastLogIndex()
        && compacted.node == Compacted(full.node, index))
  }

  lemma FollowShift(g: Node, index: nat, commit: nat)
    requires g.snapIndex <= index <= g.LastLogIndex() && index <= g.commitIndex
    ensures SameStep(g.FollowCommit(commit), Compacted(g, index).FollowCommit(commit), index)
  {
    hide *;
    var c := if commit <= g.LastLogIndex() then commit else g.LastLogIndex();
    ReadsPreserved(g, index, g.commitIndex + 1, c + 1);
    FollowSame(g, index, commit, c);
  }

  lemma FollowSame(g: Node, index: nat, commit: nat, c: nat)
    requires g.snapIndex <= index <= g.LastLogIndex() && index <= g.commitIndex
    requires c == if commit <= g.LastLogIndex() then commit else g.LastLogIndex()
    requires Compacted(g, index).LastLogIndex() == g.LastLogIndex()
    requires Compacted(g, index).Slice(g.commitIndex + 1, c + 1) == g.Slice(g.commitIndex + 1, c + 1)
    ensures SameStep(g.FollowCommit(commit), Compacted(g, index).FollowCommit(commit), index)
  {
    hide Node.Slice;
  }

  lemma FinishShift(g: Node, index: nat, m: Message)
    requires m.AppendEntries? && g.snapIndex <= index <= g.LastLogIndex() && index <= g.commitIndex
    requires index <= m.prevIndex
    ensures SameStep(g.FinishAppend(m), Compacted(g, index).FinishAppend(m), index)
  {
    ReadsPreserved(g, index, m.prevIndex + 1, g.LastLogIndex() + 1);
    assert Compacted(g, index).PersistSuffix(m) == g.PersistSuffix(m);
    FollowShift(g, index, m.leaderCommit);
  }

  lemma MatchesShift(n: Node, index: nat, m: Message)
    requires m.AppendEntries? && n.snapIndex <= index <= n.LastLogIndex() && index <= m.prevIndex
    ensures Compacted(n, index).Matches(m) <==> n.Matches(m)
  {
    ReadsPreserved(n, index, m.prevIndex, 0);
  }

  /** Compaction commutes with an accepted AppendEntries at or above the snapshot: the same actions, and the
      same logical log, whether the log is compacted before or after. */
  lemma AppendCommutes(n: Node, index: nat, m: Message, timeout: nat)
    requires m.AppendEntries? && Accepts(n, m)
    requires n.snapIndex <= index <= n.LastLogIndex() && index <= n.commitIndex && index <= m.prevIndex
    ensures Accepts(Compacted(n, index), m)
    ensures SameStep(n.OnAppendEntries(m, timeout), Compacted(n, index).OnAppendEntries(m, timeout), index)
  {
    var c := Compacted(n, index);
    MatchesShift(n, index, m);
    AcceptShape(n, m, timeout);
    AcceptShape(c, m, timeout);
    AcceptedShift(n, index, m, timeout);
    FinishShift(Accepted(n, m, timeout), index, m);
  }

  // ----- The other handlers that read the log -----

  lemma VoteCommutes(n: Node, index: nat, m: Message, timeout: nat)
    requires m.RequestVote? && n.snapIndex <= index <= n.LastLogIndex()
    ensures SameStep(n.OnRequestVote(m, timeout), Compacted(n, index).OnRequestVote(m, timeout), index)
  {
    hide Node.LastLogTerm;
    ReadsPreserved(n, index, 0, 0);
  }

  lemma HasTerm(n: Node, i: nat)
    requires n.snapIndex <= i <= n.LastLogIndex()
    ensures n.TermAt(i).Some?
  {
  }

  /** A leader builds the same message for a peer whose previous index the snapshot does not cover; below the
      snapshot it turns to sending the snapshot. */
  lemma BuildCommutes(n: Node, index: nat, peer: NodeId)
    requires n.snapIndex <= index <= n.LastLogIndex()
    ensures index <= n.PrevFor(peer) <= n.LastLogIndex() && n.NextFor(peer) > 0 ==>
              Compacted(n, index).BuildAppendEntries(peer) == n.BuildAppendEntries(peer)
    ensures n.PrevFor(peer) < index ==> Compacted(n, index).BuildAppendEntries(peer).SendInstallSnapshot?
  {
    hide Node.TermAt, Node.Slice, Node.EntryAt;
    if index <= n.PrevFor(peer) <= n.LastLogIndex() {
      HasTerm(n, n.PrevFor(peer));
    }
    ReadsPreserved(n, index, n.PrevFor(peer), 0);
    ReadsPreserved(n, index, n.NextFor(peer), n.LastLogIndex() + 1);
  }

  lemma {:induction false} ScanCommutes(n: Node, index: nat, k: nat, last: nat, found: nat)
    requires n.snapIndex <= index <= n.LastLogIndex() && index < k
    ensures Compacted(n, index).CommitScan(k, last, found) == n.CommitScan(k, last, found)
    decreases last + 1 - k
  {
    if k <= last {
      ReadsPreserved(n, index, k, 0);
      if n.TermAt(k).Some? {
        ScanCommutes(n, index, k + 1, last, if n.TermAt(k).value == n.currentTerm then k else found);
      }
    }
  }

  /** The commit rule and what it applies do not change under compaction of applied entries. */
  lemma CommitCommutes(n: Node, index: nat, order: seq<nat>)
    requires n.snapIndex <= index <= n.LastLogIndex() && index <= n.lastApplied && index <= n.commitIndex
    ensures SameStep(n.AdvanceCommit(order), Compacted(n, index).AdvanceCommit(order), index)
  {
    hide Node.CommitScan, Node.ReplicatedIndex, Node.CommitTo, Node.ReadyBarriers, Node.TermAt;
    var c := Compacted(n, index);
    assert c.ReplicatedIndex() == n.ReplicatedIndex() && c.ReadyBarriers(order) == n.ReadyBarriers(order) by {
      SameIndices(n, index, order);
    }
    ScanCommutes(n, index, n.commitIndex + 1, n.ReplicatedIndex(), n.commitIndex);
    var r := n.CommitScan(n.commitIndex + 1, n.ReplicatedIndex(), n.commitIndex);
    if r.Some? {
      CommitToCommutes(n, index, r.value, n.ReadyBarriers(order));
    }
  }

  lemma {:induction false} SameIndices(n: Node, index: nat, order: seq<nat>)
    requires n.snapIndex <= index <= n.LastLogIndex()
    ensures Compacted(n, index).ReplicatedIndex() == n.ReplicatedIndex()
    ensures Compacted(n, index).ReadyBarriers(order) == n.ReadyBarriers(order)
  {
    ReadsPreserved(n, index, 0, 0);
    if order != [] {
      SameIndices(n, index, order[1..]);
    }
  }

  lemma CommitToCommutes(n: Node, index: nat, c: nat, ready: seq<nat>)
    requires n.snapIndex <= index <= n.LastLogIndex() && index <= n.lastApplied
    ensures SameStep(n.CommitTo(c, ready), Compacted(n, index).CommitTo(c, ready), index)
  {
    hide Node.Slice, Node.Applies, Node.Releases;
    ReadsPreserved(n, index, n.lastApplied + 1, c + 1);
  }
}
