/** Bringing a follower over a gap with a snapshot: offer, installation, answer, and the entries after it. */
module Snapshots {
  import opened RaftTypes
  import opened RaftNode
  import opened Logs
  import opened Durability
  import opened Applied

  /** The snapshot a leader sends, once the event loop has added the data. */
  function Shipment(l: Node, data: Bytes): Message {
    InstallSnapshot(l.currentTerm, l.id, l.snapIndex, l.snapTerm, data)
  }

  /** A peer whose previous entry is compacted away is offered the snapshot. */
  lemma OffersSnapshot(l: Node, peer: NodeId)
    ensures l.BuildAppendEntries(peer) == SendInstallSnapshot(peer, l.currentTerm, l.snapIndex, l.snapTerm)
            <==> l.PrevFor(peer) < l.snapIndex || l.PrevFor(peer) > l.LastLogIndex()
  {
  }

  /** A follower behind the snapshot answers with the snapshot's index; it discards its log and loads the data
      exactly when it lacks the entry the snapshot ends with. */
  lemma FollowerInstalls(l: Node, f: Node, data: Bytes, timeout: nat)
    requires f.role == Follower && f.currentTerm == l.currentTerm && f.snapIndex < l.snapIndex
    ensures var r := f.Receive(Shipment(l, data), timeout, []);
            var answer := SendMessage(l.id, InstallSnapshotResponse(f.id, f.currentTerm, l.snapIndex));
            && r.Done? && r.node.role == Follower && r.node.currentTerm == f.currentTerm && r.node.id == f.id
            && r.node.TermAt(l.snapIndex) == Some(l.snapTerm)
            && (if f.TermAt(l.snapIndex) == Some(l.snapTerm) then
                  r.actions == [answer] && r.node.log == f.log && r.node.snapIndex == f.snapIndex
                  && r.node.commitIndex == f.commitIndex
                else
                  r.actions == [LoadSnapshot(l.snapIndex, l.snapTerm, data), answer]
                  && r.node.log == [] && r.node.snapIndex == l.snapIndex && r.node.snapTerm == l.snapTerm
                  && r.node.commitIndex == r.node.lastApplied == l.snapIndex)
  {
  }

  /** The leader then sends exactly its remaining log, starting right above the snapshot. */
  lemma LeaderResumes(l: Node, peer: NodeId, timeout: nat)
    requires l.role == Leader
    ensures var r := l.Receive(InstallSnapshotResponse(peer, l.currentTerm, l.snapIndex), timeout, []);
            && r.Done? && r.actions == [] && r.node.matchIndex == l.matchIndex[peer := l.snapIndex]
            && r.node.BuildAppendEntries(peer)
               == SendMessage(peer, AppendEntries(l.currentTerm, l.id, l.snapIndex, l.snapTerm, l.log, l.commitIndex))
  {
    assert l.log[0..|l.log|] == l.log;
  }

  /** Snapshot transfer: a follower that was behind the leader's snapshot, and lacked its last entry, holds after
      one snapshot and one AppendEntries exactly the leader's snapshot and log. */
  lemma TransferCompletes(l: Node, f: Node, data: Bytes, timeout: nat)
    requires l.role == Leader && f.role == Follower && f.currentTerm == l.currentTerm && f.snapIndex < l.snapIndex
    requires f.TermAt(l.snapIndex) != Some(l.snapTerm)
    ensures var f1 := f.Receive(Shipment(l, data), timeout, []).node;
            var l1 := l.Receive(InstallSnapshotResponse(f.id, l.currentTerm, l.snapIndex), timeout, []).node;
            var offer := l1.BuildAppendEntries(f.id);
            && offer.SendMessage?
            && var r := f1.Receive(offer.message, timeout, []);
               r.Done? && r.node.log == l.log && r.node.snapIndex == l.snapIndex && r.node.snapTerm == l.snapTerm
  {
    FollowerInstalls(l, f, data, timeout);
    LeaderResumes(l, f.id, timeout);
    var f1 := f.Receive(Shipment(l, data), timeout, []).node;
    TakesWholeLog(l, f1, timeout);
  }

  lemma TakesWholeLog(l: Node, f: Node, timeout: nat)
    requires f.role == Follower && f.currentTerm == l.currentTerm && f.log == []
    requires f.snapIndex == l.snapIndex > 0 && f.snapTerm == l.snapTerm && f.commitIndex == f.snapIndex
    ensures var m := AppendEntries(l.currentTerm, l.id, l.snapIndex, l.snapTerm, l.log, l.commitIndex);
            var r := f.Receive(m, timeout, []);
            r.Done? && r.node.log == l.log && r.node.snapIndex == l.snapIndex && r.node.snapTerm == l.snapTerm
  {
    var m := AppendEntries(l.currentTerm, l.id, l.snapIndex, l.snapTerm, l.log, l.commitIndex);
    AcceptShape(f, m, timeout);
    SuffixShape(f, m, timeout);
    var g := Accepted(f, m, timeout);
    assert Agree(f.log, 0, l.log) == 0;
    assert g.log == l.log;
    CommitsWithin(g, m.leaderCommit);
    FinishShape(g, m, g.PersistSuffix(m).value);
  }

  lemma CommitsWithin(g: Node, commit: nat)
    requires g.commitIndex == g.snapIndex
    ensures g.FollowCommit(commit).Done?
  {
  }

  /** The leader's offer right above its snapshot. */
  function Remaining(l: Node): Message {
    AppendEntries(l.currentTerm, l.id, l.snapIndex, l.snapTerm, l.log, l.commitIndex)
  }

  /** Log matching between the two: the same term at the same index means the same entry. */
  ghost predicate SameTermSameEntry(l: Node, f: Node) {
    forall i :: l.EntryAt(i).Some? && f.EntryAt(i).Some? && l.EntryAt(i).value.term == f.EntryAt(i).value.term ==>
      l.EntryAt(i) == f.EntryAt(i)
  }

  lemma MergedHolds(log: seq<LogEntry>, k: nat, entries: seq<LogEntry>, x: nat)
    requires k <= |log| && x < |entries|
    ensures k + x < |MergeLog(log, k, entries)|
    ensures var e := MergeLog(log, k, entries)[k + x];
            e == entries[x] || (k + x < |log| && e == log[k + x] && e.term == entries[x].term)
  {
    var j := Agree(log, k, entries);
    if j < |entries| && x >= j {
      assert (log[..k + j] + entries[j..])[k + x] == entries[j..][x - j];
    }
  }

  /** A follower that holds the snapshot's last entry keeps its log instead, and after the same two messages holds
      every entry of the leader's log at its index, given log matching and agreement on what it has committed. */
  lemma TransferJoins(l: Node, f: Node, data: Bytes, timeout: nat)
    requires l.role == Leader && f.role == Follower && f.currentTerm == l.currentTerm && f.snapIndex < l.snapIndex
    requires f.TermAt(l.snapIndex) == Some(l.snapTerm)
    requires IndicesOk(f) && KeepsCommitted(f, Remaining(l)) && SameTermSameEntry(l, f)
    ensures var f1 := f.Receive(Shipment(l, data), timeout, []).node;
            var l1 := l.Receive(InstallSnapshotResponse(f.id, l.currentTerm, l.snapIndex), timeout, []).node;
            var r := f1.Receive(Remaining(l), timeout, []);
            && l1.BuildAppendEntries(f.id) == SendMessage(f.id, Remaining(l))
            && f1.log == f.log && r.Done? && r.node.snapIndex == f.snapIndex
            && forall x :: 0 <= x < |l.log| ==> r.node.EntryAt(l.snapIndex + 1 + x) == Some(l.log[x])
  {
    hide Node.Receive;
    FollowerInstalls(l, f, data, timeout);
    LeaderResumes(l, f.id, timeout);
    var f1 := f.Receive(Shipment(l, data), timeout, []).node;
    Unchanged(l, f, data, timeout);
    SameKeepsCommitted(f, f1, Remaining(l));
    Joins(l, f1, timeout);
  }

  lemma Unchanged(l: Node, f: Node, data: Bytes, timeout: nat)
    requires f.role == Follower && f.currentTerm == l.currentTerm && f.snapIndex < l.snapIndex
    requires f.TermAt(l.snapIndex) == Some(l.snapTerm)
    ensures f.Receive(Shipment(l, data), timeout, []).Done?
    ensures f.Receive(Shipment(l, data), timeout, []).node == f.ResetTimer(timeout).(currentLeader := Some(l.id))
  {
  }

  lemma SameKeepsCommitted(f: Node, f1: Node, m: Message)
    requires m.AppendEntries? && KeepsCommitted(f, m) && f1.log == f.log && f1.snapIndex == f.snapIndex
    requires f1.snapTerm == f.snapTerm && f1.commitIndex == f.commitIndex
    ensures KeepsCommitted(f1, m)
  {
    forall k | 0 <= k < |m.entries| && m.prevIndex + 1 + k <= f1.commitIndex
      ensures f1.TermAt(m.prevIndex + 1 + k) == Some(m.entries[k].term)
    {
      assert f.TermAt(m.prevIndex + 1 + k) == Some(m.entries[k].term);
    }
  }

  lemma Joins(l: Node, f: Node, timeout: nat)
    requires f.role == Follower && f.currentTerm == l.currentTerm && f.snapIndex < l.snapIndex
    requires f.TermAt(l.snapIndex) == Some(l.snapTerm)
    requires IndicesOk(f) && KeepsCommitted(f, Remaining(l)) && SameTermSameEntry(l, f)
    ensures var r := f.Receive(Remaining(l), timeout, []);
            && r.Done? && r.node.snapIndex == f.snapIndex
            && forall x :: 0 <= x < |l.log| ==> r.node.EntryAt(l.snapIndex + 1 + x) == Some(l.log[x])
  {
    hide Node.OnAppendEntries, Node.FinishAppend, Node.PersistSuffix, Node.FollowCommit;
    hide MergeLog, KeepsCommitted, Follow;
    var m := Remaining(l);
    AcceptInOrder(f, m, timeout);
    AcceptShape(f, m, timeout);
    SuffixShape(f, m, timeout);
    var g := Accepted(f, m, timeout);
    FinishShape(g, m, g.PersistSuffix(m).value);
    var p := l.snapIndex - f.snapIndex;
    forall x | 0 <= x < |l.log| ensures g.EntryAt(l.snapIndex + 1 + x) == Some(l.log[x]) {
      MergedHolds(f.log, p, l.log, x);
      assert l.EntryAt(l.snapIndex + 1 + x) == Some(l.log[x]);
      assert p + x < |f.log| ==> f.EntryAt(l.snapIndex + 1 + x) == Some(f.log[p + x]);
    }
    var r := f.OnAppendEntries(m, timeout);
    forall x | 0 <= x < |l.log| ensures r.node.EntryAt(l.snapIndex + 1 + x) == Some(l.log[x]) {
      assert r.node.EntryAt(l.snapIndex + 1 + x) == g.EntryAt(l.snapIndex + 1 + x);
    }
  }
}
