/** The leader's commit rule against a counting specification. */
module CommitRule {
  import opened RaftTypes
  import opened RaftNode
  import opened OrderStatistics

  /** How many nodes, the leader included, hold its log up to `index`. */
  function Replicas(n: Node, index: nat): nat {
    |Reaching(n.matchIndex, n.matchIndex.Keys, index)| + if n.LastLogIndex() >= index then 1 else 0
  }

  /** Half of the N tracked nodes, rounded up. */
  function Needed(n: Node): nat {
    (|n.matchIndex.Keys| + 2) / 2
  }

  /** The sorted middle element is the greatest index that enough nodes hold. */
  lemma ReplicatedIsGreatest(n: Node, index: nat)
    ensures Replicas(n, index) >= Needed(n) <==> index <= n.ReplicatedIndex()
  {
    var values := ValuesOf(n.matchIndex);
    var all := values + [n.LastLogIndex()];
    var sorted := Sort(all);
    SortAscending(all);
    CountSort(all, index);
    CountAppend(values, n.LastLogIndex(), index);
    ValuesCount(n.matchIndex, n.matchIndex.Keys, index);
    CountAscending(sorted, |sorted| / 2, index);
  }

  /** The indices the rule may commit: later than the commit index, of the current term, on enough nodes. */
  ghost predicate Committable(n: Node, index: nat) {
    n.commitIndex < index && n.TermAt(index) == Some(n.currentTerm) && Replicas(n, index) >= Needed(n)
  }

  /** The scan finds the last index of the current term in its range, or keeps what it had. */
  lemma {:induction false} ScanFindsLast(n: Node, index: nat, last: nat, found: nat)
    requires n.snapIndex < index && last <= n.LastLogIndex()
    ensures var r := n.CommitScan(index, last, found);
            && r.Some?
            && (r.value == found || (index <= r.value <= last && n.TermAt(r.value) == Some(n.currentTerm)))
            && (forall k :: index <= k <= last && n.TermAt(k) == Some(n.currentTerm) ==>
                  index <= r.value && k <= r.value)
    decreases last + 1 - index
  {
    if index <= last {
      assert n.TermAt(index).Some?;
      ScanFindsLast(n, index + 1, last, if n.TermAt(index).value == n.currentTerm then index else found);
    }
  }

  /** The scan panics exactly when the picked index lies beyond the log. */
  lemma {:induction false} ScanPanics(n: Node, index: nat, last: nat, found: nat)
    requires n.snapIndex < index <= n.LastLogIndex() + 1
    ensures n.CommitScan(index, last, found).None? <==> last > n.LastLogIndex()
    decreases n.LastLogIndex() + 1 - index
  {
    if index <= n.LastLogIndex() && index <= last {
      ScanPanics(n, index + 1, last, if n.TermAt(index).value == n.currentTerm then index else found);
    }
  }

  /** The sort-and-pick loop commits the greatest committable index, or leaves the commit index alone. */
  lemma CommitsGreatest(n: Node) returns (c: nat)
    requires n.snapIndex <= n.commitIndex && n.ReplicatedIndex() <= n.LastLogIndex()
    ensures n.CommitScan(n.commitIndex + 1, n.ReplicatedIndex(), n.commitIndex) == Some(c)
    ensures c == n.commitIndex || Committable(n, c)
    ensures forall k: nat :: Committable(n, k) ==> k <= c
  {
    ScanFindsLast(n, n.commitIndex + 1, n.ReplicatedIndex(), n.commitIndex);
    c := n.CommitScan(n.commitIndex + 1, n.ReplicatedIndex(), n.commitIndex).value;
    if c != n.commitIndex {
      ReplicatedIsGreatest(n, c);
    }
    forall k: nat | Committable(n, k) ensures k <= c {
      ReplicatedIsGreatest(n, k);
    }
  }

  /** With an odd number of nodes "enough" is a strict majority; with an even number it is only half. */
  lemma NeededIsMajority(n: Node)
    requires n.matchIndex.Keys == (set p | p in n.peers) && |n.matchIndex.Keys| == |n.peers|
    ensures 2 * Needed(n) > |n.peers| + 1 <==> |n.peers| % 2 == 0
  {
  }

  /** A leader of four nodes that counts itself and one follower commits. Half is enough to be safe, because an
      election takes more than half of the votes. */
  lemma EvenClusterCommitsOnHalf(n: Node)
    requires n.role == Leader && n.snapIndex == 0 && n.currentTerm == 1
    requires n.peers == [2, 3, 4] && n.log == [LogEntry(1, [])] && n.commitIndex == 0
    requires n.matchIndex == map[2 := 1, 3 := 0, 4 := 0]
    ensures n.CommitScan(1, n.ReplicatedIndex(), 0) == Some(1) && Replicas(n, 1) == 2
  {
    assert Reaching(n.matchIndex, n.matchIndex.Keys, 1) == {2};
    assert n.matchIndex.Keys == {2, 3, 4};
    ReplicatedIsGreatest(n, 1);
    ReplicatedIsGreatest(n, 2);
    assert Reaching(n.matchIndex, n.matchIndex.Keys, 2) == {};
    assert n.ReplicatedIndex() == 1;
    assert n.TermAt(1) == Some(1);
  }
}
