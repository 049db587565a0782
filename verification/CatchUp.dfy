/** A leader brings one follower up to date: how many exchanges it takes, and what the follower ends with. */
module CatchUp {
  import opened RaftTypes
  import opened RaftNode
  import opened Frames
  import opened Logs
  import opened Durability
  import opened Process
  import opened History
  import opened Cluster
  import opened Elections
  import opened ElectionSteps
  import opened Replication
  import opened ReplicationSteps
  import opened Safety

  /** A leader and a follower in conversation; `done` once the follower has accepted. */
  datatype Pair = Pair(leader: Node, follower: Node, done: bool)

  /** One exchange: the leader's AppendEntries, the follower's answer, the leader's reaction to it. */
  function Exchange(p: Pair): Pair {
    var offer := p.leader.BuildAppendEntries(p.follower.id);
    if p.done || !offer.SendMessage? then p
    else
      var r := p.follower.Receive(offer.message, 0, []);
      if r.Panicked? || r.actions == [] || !r.actions[|r.actions| - 1].SendMessage? then p
      else
        var answer := r.actions[|r.actions| - 1].message;
        if answer.AppendEntriesResponse? && answer.success then Pair(p.leader, r.node, true)
        else
          match p.leader.Receive(answer, 0, [])
          case Panicked => p
          case Done(leader, _) => Pair(leader, r.node, false)
  }

  function Exchanges(p: Pair, k: nat): Pair
    decreases k
  {
    if k == 0 then p else Exchanges(Exchange(p), k - 1)
  }

  /** The number of maximal stretches of equal term. */
  function Runs(log: seq<LogEntry>): nat {
    if log == [] then 0
    else if |log| == 1 then 1
    else Runs(log[..|log| - 1]) + if log[|log| - 1].term != log[|log| - 2].term then 1 else 0
  }

  lemma {:induction false} RunsBlock(log: seq<LogEntry>, a: nat, b: nat)
    requires a < b <= |log|
    requires forall k :: a <= k < b ==> log[k].term == log[a].term
    requires a > 0 ==> log[a - 1].term != log[a].term
    ensures Runs(log[..b]) == Runs(log[..a]) + 1
  {
    assert log[..b][..b - 1] == log[..b - 1];
    if a + 1 < b {
      RunsBlock(log, a, b - 1);
    }
  }

  /** Same term at the same position means the same prefix, and entries of the leader's term are the leader's. */
  ghost predicate Matched(leader: seq<LogEntry>, follower: seq<LogEntry>, term: nat) {
    && (forall k :: 0 <= k < |leader| && k < |follower| && leader[k].term == follower[k].term ==>
          leader[..k + 1] == follower[..k + 1])
    && (forall k :: 0 <= k < |follower| ==> 0 < follower[k].term <= term)
    && (forall k :: 0 <= k < |follower| && follower[k].term == term ==> k < |leader|)
    && (forall j, k :: 0 <= j <= k < |follower| ==> follower[j].term <= follower[k].term)
  }

  ghost predicate CatchingUp(p: Pair) {
    var l, f := p.leader, p.follower;
    && l.role == Leader && f.role == Follower && f.currentTerm == l.currentTerm
    && l.snapIndex == 0 && l.snapTerm == 0 && f.snapIndex == 0 && f.snapTerm == 0
    && f.id in l.nextIndex && 0 < l.nextIndex[f.id] <= |l.log| + 1
    && l.log != [] && LastTerm(l.log) == l.currentTerm && l.commitIndex <= |l.log|
    && Matched(l.log, f.log, l.currentTerm)
    && !p.done
  }

  /** Where the leader thinks the follower's log ends. */
  function Prev(p: Pair): nat
    requires CatchingUp(p)
  {
    p.leader.nextIndex[p.follower.id] - 1
  }

  /** Exchanges left at most. */
  ghost function Left(p: Pair): nat
    requires CatchingUp(p)
  {
    if Prev(p) > |p.follower.log| then Runs(p.follower.log) + 2
    else Runs(p.follower.log[..Prev(p)]) + 1
  }

  // ----- The leader's offer -----

  function Offer(p: Pair): (m: Message)
    requires CatchingUp(p)
    ensures m.AppendEntries?
  {
    var l, prev := p.leader, Prev(p);
    AppendEntries(l.currentTerm, l.id, prev, LastTerm(l.log[..prev]), l.log[prev..], l.commitIndex)
  }

  lemma OfferIs(p: Pair)
    requires CatchingUp(p)
    ensures p.leader.BuildAppendEntries(p.follower.id) == SendMessage(p.follower.id, Offer(p))
  {
    PlainBuild(p.leader, p.follower.id);
  }

  // ----- Rejection -----

  /** The scan stops at the start of the run that ends at `index`; real terms make it succeed. */
  lemma {:induction false} FirstOfRunIs(n: Node, term: nat, index: nat)
    requires n.snapIndex == 0 && n.snapTerm == 0 && term > 0 && index <= |n.log|
    ensures var r := n.FirstOfRun(term, index);
            if index == 0 then r == None
            else r.Some? && 0 < r.value <= index
                 && (forall k :: r.value - 1 <= k < index - 1 ==> n.log[k].term == term)
                 && (r.value > 1 ==> n.log[r.value - 2].term != term)
  {
    if index > 0 {
      PlainLog(n);
      FirstOfRunIs(n, term, index - 1);
    }
  }

  /** The follower's node after it looked at an offer it does not match. */
  function Declined(p: Pair): Node
    requires CatchingUp(p)
  {
    p.follower.ResetTimer(0).(currentLeader := Some(p.leader.id))
  }

  lemma DeclineIs(p: Pair)
    requires CatchingUp(p) && !p.follower.Matches(Offer(p))
    ensures p.follower.Receive(Offer(p), 0, []) == Done(Declined(p), [Declined(p).Mismatch(Offer(p))])
  {
    var f := Declined(p);
    assert !f.Matches(Offer(p));
    assert [] + [f.Mismatch(Offer(p))] == [f.Mismatch(Offer(p))];
  }

  /** The index a rejection names: just past a short log, or the start of the conflicting run. */
  lemma ConflictIs(p: Pair) returns (x: nat)
    requires CatchingUp(p) && !p.follower.Matches(Offer(p))
    ensures 0 < x <= Prev(p)
    ensures var a := Declined(p).Mismatch(Offer(p));
            && a.SendMessage? && a.message.AppendEntriesResponse? && !a.message.success
            && a.message.id == p.follower.id && a.message.term == p.leader.currentTerm
            && a.message.conflictIndex == Some(x)
    ensures Prev(p) > |p.follower.log| ==> x == |p.follower.log| + 1
    ensures Prev(p) <= |p.follower.log| ==> Runs(p.follower.log[..Prev(p)]) == Runs(p.follower.log[..x - 1]) + 1
  {
    hide Node.FirstOfRun, Node.TermAt, Runs;
    var f, prev := Declined(p), Prev(p);
    PrevReal(p);
    PlainTerm(f, prev);
    if prev > |f.log| {
      x := |f.log| + 1;
    } else {
      var c := f.log[prev - 1].term;
      FirstOfRunIs(f, c, prev);
      x := f.FirstOfRun(c, prev).value;
      RunsBlock(f.log, x - 1, prev);
    }
  }

  /** An offer that does not match is not at the start, and the follower's term there is a real one. */
  lemma PrevReal(p: Pair)
    requires CatchingUp(p) && !p.follower.Matches(Offer(p))
    ensures Prev(p) > 0
    ensures Prev(p) <= |p.follower.log| ==>
              var c := p.follower.log[Prev(p) - 1].term; c > 0 && LastTerm(p.follower.log[..Prev(p)]) == c
  {
  }

  lemma NoteIs(l: Node, answer: Message)
    requires l.role == Leader && answer.AppendEntriesResponse? && !answer.success && answer.term == l.currentTerm
    requires answer.conflictIndex.Some? && answer.id in l.nextIndex
    ensures var r := l.Receive(answer, 0, []);
            r.Done? && r.node == l.(nextIndex := l.nextIndex[answer.id := answer.conflictIndex.value])
  {
  }

  /** A rejection strictly lowers the next index, leaves the follower's log alone, and uses up one exchange. */
  lemma RejectionLowers(p: Pair)
    requires CatchingUp(p) && !p.follower.Matches(Offer(p))
    ensures var q := Exchange(p);
            && CatchingUp(q) && Left(q) < Left(p)
            && q.follower.id == p.follower.id
            && q.leader.nextIndex[p.follower.id] < p.leader.nextIndex[p.follower.id]
            && q.leader.log == p.leader.log && q.follower.log == p.follower.log
  {
    hide Exchange, Matched, Offer, Runs, Declined, Node.Matches;
    var x := ConflictIs(p);
    ExchangeIs(p, x);
    Lowers(p, x);
  }

  /** The pair after a rejection that names x. */
  function Lowered(p: Pair, x: nat): Pair
    requires CatchingUp(p)
  {
    Pair(p.leader.(nextIndex := p.leader.nextIndex[p.follower.id := x]), Declined(p), false)
  }

  lemma ExchangeIs(p: Pair, x: nat)
    requires CatchingUp(p) && !p.follower.Matches(Offer(p))
    requires var a := Declined(p).Mismatch(Offer(p));
             && a.SendMessage? && a.message.AppendEntriesResponse? && !a.message.success
             && a.message.id == p.follower.id && a.message.term == p.leader.currentTerm
             && a.message.conflictIndex == Some(x)
    ensures Exchange(p) == Lowered(p, x)
  {
    hide Node.BuildAppendEntries, Node.Receive, Node.Mismatch, Matched, Offer, Node.Matches;
    OfferIs(p);
    DeclineIs(p);
    NoteIs(p.leader, Declined(p).Mismatch(Offer(p)).message);
  }

  lemma Lowers(p: Pair, x: nat)
    requires CatchingUp(p) && 0 < x <= Prev(p)
    requires Prev(p) > |p.follower.log| ==> x == |p.follower.log| + 1
    requires Prev(p) <= |p.follower.log| ==> Runs(p.follower.log[..Prev(p)]) == Runs(p.follower.log[..x - 1]) + 1
    ensures var q := Lowered(p, x);
            && CatchingUp(q) && Left(q) < Left(p) && q.follower.id == p.follower.id
            && q.leader.nextIndex[p.follower.id] < p.leader.nextIndex[p.follower.id]
            && q.leader.log == p.leader.log && q.follower.log == p.follower.log
  {
    hide Matched, Runs;
    TakeAll(p.follower.log);
  }

  // ----- Acceptance -----

  lemma AgreeIsEqual(leader: seq<LogEntry>, follower: seq<LogEntry>, term: nat, prev: nat)
    requires Matched(leader, follower, term) && prev <= |leader| && prev <= |follower|
    requires prev > 0 ==> leader[prev - 1].term == follower[prev - 1].term
    ensures var j := Agree(follower, prev, leader[prev..]); leader[..prev + j] == follower[..prev + j]
  {
    hide Agree;
    var es := leader[prev..];
    var j := Agree(follower, prev, es);
    if j > 0 {
      assert es[j - 1] == leader[prev + j - 1];
      assert leader[prev + j - 1].term == follower[prev + j - 1].term;
    }
  }

  /** A follower of the leader's term never holds more than a leader whose log ends in that term. */
  lemma NotLonger(leader: seq<LogEntry>, follower: seq<LogEntry>, term: nat)
    requires Matched(leader, follower, term) && leader != [] && LastTerm(leader) == term && leader <= follower
    ensures |follower| == |leader|
  {
    assert follower[|leader| - 1] == leader[|leader| - 1];
    assert follower[|follower| - 1].term == term;
  }

  /** Merging the leader's suffix into a matching follower gives exactly the leader's log. */
  lemma MergedIsLeader(leader: seq<LogEntry>, follower: seq<LogEntry>, term: nat, prev: nat)
    requires Matched(leader, follower, term) && leader != [] && LastTerm(leader) == term
    requires prev <= |leader| && prev <= |follower|
    requires prev > 0 ==> leader[prev - 1].term == follower[prev - 1].term
    ensures MergeLog(follower, prev, leader[prev..]) == leader
  {
    hide Matched, Agree, LastTerm;
    var es := leader[prev..];
    var j := Agree(follower, prev, es);
    AgreeIsEqual(leader, follower, term, prev);
    if j == |es| {
      TakeAll(leader);
      NotLonger(leader, follower, term);
      TakeAll(follower);
    } else {
      Rejoin(leader, prev, j);
    }
  }

  lemma MergedOffer(p: Pair)
    requires CatchingUp(p) && p.follower.Matches(Offer(p))
    ensures Prev(p) <= |p.follower.log|
    ensures MergeLog(p.follower.log, Prev(p), Offer(p).entries) == p.leader.log
  {
    var f, prev := p.follower, Prev(p);
    PlainLog(f);
    if prev > 0 {
      assert LastTerm(f.log[..prev]) == LastTerm(p.leader.log[..prev]);
    }
    MergedIsLeader(p.leader.log, f.log, p.leader.currentTerm, prev);
  }

  lemma OfferAccepted(p: Pair)
    requires CatchingUp(p) && p.follower.Matches(Offer(p))
    ensures Offer(p).AppendEntries? && Accepts(p.follower, Offer(p))
            && p.follower.snapIndex <= Offer(p).prevIndex == Prev(p)
    ensures Offer(p).leaderCommit <= |p.leader.log| && p.follower.snapIndex == 0
    ensures p.follower.Receive(Offer(p), 0, []) == p.follower.OnAppendEntries(Offer(p), 0)
  {
    var r := p.follower.OnAppendEntries(Offer(p), 0);
    if r.Done? {
      assert [] + r.actions == r.actions;
    }
  }

  /** The answer to an accepted offer: the leader's log is in place and the last action reports success. */
  lemma OfferAnswered(p: Pair)
    requires CatchingUp(p) && p.follower.Matches(Offer(p))
    ensures var r := p.follower.Receive(Offer(p), 0, []);
            && r.Done? && r.node.log == p.leader.log && r.actions != []
            && r.actions[|r.actions| - 1].SendMessage?
            && r.actions[|r.actions| - 1].message.AppendEntriesResponse?
            && r.actions[|r.actions| - 1].message.success
  {
    hide *;
    var m, f := Offer(p), p.follower;
    OfferAccepted(p);
    MergedOffer(p);
    AcceptShape(f, m, 0);
    SuffixShape(f, m, 0);
    AcceptedLog(f, m);
    var g := Accepted(f, m, 0);
    FollowDone(g, m);
    FinishShape(g, m, g.PersistSuffix(m).value);
  }

  lemma AcceptedLog(f: Node, m: Message)
    requires m.AppendEntries? && f.snapIndex == 0 && f.snapIndex <= m.prevIndex <= f.LastLogIndex()
    ensures m.prevIndex <= |f.log| && Accepted(f, m, 0).log == MergeLog(f.log, m.prevIndex, m.entries)
    ensures Accepted(f, m, 0).snapIndex == 0
  {
  }

  /** An accepted offer ends the conversation with the follower holding the leader's log. */
  lemma AcceptanceEnds(p: Pair)
    requires CatchingUp(p) && p.follower.Matches(Offer(p))
    ensures var q := Exchange(p); q.done && q.follower.log == p.leader.log && q.leader == p.leader
  {
    hide Node.BuildAppendEntries, Node.Receive, Offer, Node.Matches, Matched;
    OfferIs(p);
    OfferAnswered(p);
  }

  lemma FollowDone(g: Node, m: Message)
    requires m.AppendEntries? && g.snapIndex == 0 && m.leaderCommit <= |g.log| && g.PersistSuffix(m).Some?
    ensures g.FinishAppend(m).Done?
  {
  }

  // ----- The whole conversation -----

  lemma NotDone(p: Pair)
    requires CatchingUp(p)
    ensures !p.done && Left(p) > 0
  {
  }

  lemma {:induction false} ExchangesEnd(p: Pair) returns (k: nat)
    requires CatchingUp(p)
    ensures 0 < k <= Left(p)
    ensures Exchanges(p, k).done && Exchanges(p, k).follower.log == p.leader.log
    ensures forall j :: 0 <= j < k ==> !Exchanges(p, j).done
    decreases Left(p)
  {
    hide Exchange, CatchingUp, Left, Offer, Node.Matches;
    NotDone(p);
    if p.follower.Matches(Offer(p)) {
      AcceptanceEnds(p);
      k := 1;
      assert Exchanges(p, 1) == Exchange(p);
    } else {
      RejectionLowers(p);
      var q := Exchange(p);
      var i := ExchangesEnd(q);
      k := i + 1;
      forall j | 0 <= j < k ensures !Exchanges(p, j).done {
        if j > 0 {
          assert Exchanges(p, j) == Exchanges(q, j - 1);
        }
      }
    }
  }

  lemma {:induction false} RunsPrefix(log: seq<LogEntry>, k: nat)
    requires k <= |log|
    ensures Runs(log[..k]) <= Runs(log)
  {
    if k < |log| {
      RunsPrefix(log[..|log| - 1], k);
      assert log[..|log| - 1][..k] == log[..k];
    } else {
      assert log[..k] == log;
    }
  }

  /** Catch-up terminates: after at most (runs of equal term in the follower's log) + 2 exchanges the follower
      accepts, and then its log is the leader's. */
  lemma CatchUpTerminates(p: Pair) returns (k: nat)
    requires CatchingUp(p)
    ensures 0 < k <= Runs(p.follower.log) + 2
    ensures Exchanges(p, k).done && Exchanges(p, k).follower.log == p.leader.log
    ensures forall j :: 0 <= j < k ==> !Exchanges(p, j).done
  {
    k := ExchangesEnd(p);
    if Prev(p) <= |p.follower.log| {
      RunsPrefix(p.follower.log, Prev(p));
    }
  }

  // ----- Every reachable leader and follower can be brought together -----

  lemma MatchedFromHistory(nodes: seq<NodeId>, leader: seq<LogEntry>, follower: seq<LogEntry>, term: nat, h: History)
    requires HistoryOk(nodes, h) && term in h.reigns && h.reigns[term].log == leader
    requires Coherent(leader, h) && LogOk(follower, term, h)
    ensures Matched(leader, follower, term)
  {
    forall k | 0 <= k < |leader| && k < |follower| && leader[k].term == follower[k].term
      ensures leader[..k + 1] == follower[..k + 1]
    {
      CoherentMatch(leader, follower, k, h);
    }
    forall j, k | 0 <= j <= k < |follower| ensures 0 < follower[j].term <= follower[k].term {
      CoherentSorted(nodes, h, follower, j, k);
    }
    forall k | 0 <= k < |follower| && follower[k].term == term ensures k < |leader| {
      assert OnReign(follower, k, h);
    }
  }

  /** In every state of a guarded run, a leader and any other follower of its term are in a position to catch
      up: the conditions of `CatchUpTerminates` are not assumptions about reachable states. */
  lemma ReachablePair(cfg: Config, states: seq<Cluster>, events: seq<ClusterEvent>, k: nat, l: NodeId, f: NodeId)
    requires SafeRun(cfg, states, events) && k < |states| && l in states[k].procs && f in states[k].procs && l != f
    requires states[k].procs[l].node.role == Leader && states[k].procs[f].node.role == Follower
    requires states[k].procs[l].node.currentTerm == states[k].procs[f].node.currentTerm
    ensures CatchingUp(Pair(states[k].procs[l].node, states[k].procs[f].node, false))
  {
    var hs := JustifyUpTo(cfg, states, events, k);
    var h, c := hs[k], states[k];
    assert SafeInv(cfg, c, h);
    assert ProcessOk(cfg.nodes, l, c.procs[l], h) && ReplicaProcessOk(l, c.procs[l], h);
    assert ProcessOk(cfg.nodes, f, c.procs[f], h);
    LeaderFacts(cfg, c, l, h);
    var leader, follower := c.procs[l].node, c.procs[f].node;
    MatchedFromHistory(cfg.nodes, leader.log, follower.log, leader.currentTerm, h);
    OthersExclude(l, cfg.nodes);
    assert f in leader.peers;
  }
}
