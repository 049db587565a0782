/** What ticks alone do: a leader beats at a fixed rate, everybody else waits and then stands for election. */
module Timing {
  import opened RaftTypes
  import opened RaftNode

  /** The node after k ticks and nothing else, and everything it emitted. */
  function AfterTicks(n: Node, k: nat, timeout: nat): Step {
    if k == 0 then Done(n, [])
    else match AfterTicks(n, k - 1, timeout)
         case Panicked => Panicked
         case Done(n1, actions) => match n1.Tick(timeout)
                                   case Panicked => Panicked
                                   case Done(n2, more) => Done(n2, actions + more)
  }

  lemma {:induction false} LeaderWaits(n: Node, k: nat, timeout: nat)
    requires n.role == Leader && n.ticks == 0 && k < n.heartbeatInterval
    ensures AfterTicks(n, k, timeout) == Done(n.(ticks := k), [])
  {
    hide Node.AppendToAll;
    if k > 0 {
      LeaderWaits(n, k - 1, timeout);
    } else {
      assert n.(ticks := 0) == n;
    }
  }

  /** Messages to peers do not depend on the tick counter. */
  lemma BuildIgnoresTicks(n: Node, ticks: nat, peer: NodeId)
    ensures n.(ticks := ticks).BuildAppendEntries(peer) == n.BuildAppendEntries(peer)
  {
  }

  lemma AllIgnoreTicks(n: Node, ticks: nat)
    ensures n.(ticks := ticks).AppendToAll() == n.AppendToAll()
  {
    hide Node.BuildAppendEntries;
    var a, b := n.(ticks := ticks).AppendToAll(), n.AppendToAll();
    forall k | 0 <= k < |n.peers| ensures a[k] == b[k] {
      BuildIgnoresTicks(n, ticks, n.peers[k]);
    }
  }

  /** A leader's ticks are periodic: silent for an interval but for its last tick, which sends AppendEntries to
      every peer and brings the node back to where it was. */
  lemma LeaderBeats(n: Node, k: nat, timeout: nat)
    requires n.role == Leader && n.ticks == 0 && 0 < k <= n.heartbeatInterval
    ensures var r := AfterTicks(n, k, timeout);
            if k < n.heartbeatInterval then r == Done(n.(ticks := k), []) else r == Done(n, n.AppendToAll())
  {
    hide Node.AppendToAll;
    LeaderWaits(n, k - 1, timeout);
    AllIgnoreTicks(n, k);
    assert [] + n.AppendToAll() == n.AppendToAll();
  }

  /** Until its timeout a node that does not lead only counts. */
  lemma {:induction false} OthersWait(n: Node, k: nat, timeout: nat)
    requires n.role != Leader && (k == 0 || n.ticks + k < n.electionTimeout)
    ensures AfterTicks(n, k, timeout) == Done(n.(ticks := n.ticks + k), [])
  {
    if k > 0 {
      OthersWait(n, k - 1, timeout);
    }
  }

  /** At the timeout it becomes a candidate of the next term, votes for itself durably, and only then asks every
      peer, in order, for a vote with its own last index and term; the counter starts again. */
  lemma ThenStands(n: Node, timeout: nat)
    requires n.role != Leader && n.ticks < n.electionTimeout
    ensures var k := n.electionTimeout - n.ticks; var r := AfterTicks(n, k, timeout);
            && r.Done? && r.node == n.(role := Candidate, currentTerm := n.currentTerm + 1, votedFor := Some(n.id),
                                       votesReceived := {n.id}, currentLeader := None, ticks := 0,
                                       electionTimeout := timeout)
            && |r.actions| == |n.peers| + 1
            && r.actions[0] == PersistMetadata(n.currentTerm + 1, Some(n.id))
            && forall j :: 0 <= j < |n.peers| ==>
                 r.actions[j + 1] == SendMessage(n.peers[j], RequestVote(n.currentTerm + 1, n.id,
                                                                        n.LastLogIndex(), n.LastLogTerm()))
  {
    hide AfterTicks, Node.RequestVotes, Node.TermAt, Node.Tick;
    var k := n.electionTimeout - n.ticks;
    OthersWait(n, k - 1, timeout);
    var n1 := n.(ticks := n.ticks + (k - 1));
    LastTick(n, k, n1, timeout);
    Stands(n1, timeout);
    Requests(n1.Tick(timeout).node, n.LastLogIndex(), n.LastLogTerm()) by { SameLast(n, n1.Tick(timeout).node); }
  }

  lemma SameLast(n: Node, n': Node)
    requires n'.log == n.log && n'.snapIndex == n.snapIndex && n'.snapTerm == n.snapTerm
    ensures n'.LastLogIndex() == n.LastLogIndex() && n'.LastLogTerm() == n.LastLogTerm()
  {
  }

  lemma LastTick(n: Node, k: nat, n1: Node, timeout: nat)
    requires k > 0 && AfterTicks(n, k - 1, timeout) == Done(n1, [])
    ensures AfterTicks(n, k, timeout) == n1.Tick(timeout)
  {
    hide Node.Tick;
    if n1.Tick(timeout).Done? {
      assert [] + n1.Tick(timeout).actions == n1.Tick(timeout).actions;
    }
  }

  lemma Stands(n: Node, timeout: nat)
    requires n.role != Leader && n.ticks + 1 >= n.electionTimeout
    ensures var r := n.Tick(timeout);
            && r.Done?
            && r.node == n.(role := Candidate, currentTerm := n.currentTerm + 1, votedFor := Some(n.id),
                            votesReceived := {n.id}, currentLeader := None, ticks := 0, electionTimeout := timeout)
            && r.actions == [PersistMetadata(n.currentTerm + 1, Some(n.id))] + r.node.RequestVotes()
  {
    hide Node.RequestVotes;
  }

  lemma Requests(c: Node, index: nat, term: nat)
    requires c.LastLogIndex() == index && c.LastLogTerm() == term
    ensures |c.RequestVotes()| == |c.peers|
    ensures forall j :: 0 <= j < |c.peers| ==>
              c.RequestVotes()[j] == SendMessage(c.peers[j], RequestVote(c.currentTerm, c.id, index, term))
  {
  }
}
