/** What a cluster has ever done, as far as the safety proofs need it: every vote made durable, the log of
    each term's leader, every replication a node acknowledged, every index a leader committed. */
module History {
  import opened RaftTypes
  import opened Frames
  import opened Logs

  /** A durable vote: for whom, and what the voter's log was. */
  datatype Vote = Vote(candidate: NodeId, log: seq<LogEntry>)

  /** One term's leader, the nodes that elected it, and its append-only log. */
  datatype Reign = Reign(leader: NodeId, electors: set<NodeId>, log: seq<LogEntry>)

  datatype History = History(
    votes: map<(NodeId, nat), Vote>,
    reigns: map<nat, Reign>,
    acks: set<(NodeId, nat, nat)>,
    commits: set<(nat, nat)>)

  const EMPTY_HISTORY := History(map[], map[], {}, {})

  // ----- Growth -----

  ghost predicate Grows(h: History, h': History) {
    && (forall k :: k in h.votes ==> k in h'.votes && h'.votes[k] == h.votes[k])
    && (forall t :: t in h.reigns ==>
          && t in h'.reigns && h'.reigns[t].leader == h.reigns[t].leader
          && h'.reigns[t].electors == h.reigns[t].electors
          && h.reigns[t].log <= h'.reigns[t].log)
    && h.acks <= h'.acks
    && h.commits <= h'.commits
  }

  /** Growth caused by node `i` alone. */
  ghost predicate GrowsBy(h: History, h': History, i: NodeId) {
    && Grows(h, h')
    && (forall v: NodeId, t: nat :: (v, t) in h'.votes && v != i ==> (v, t) in h.votes)
    && (forall t :: t in h'.reigns && h'.reigns[t].leader != i ==> t in h.reigns && h'.reigns[t] == h.reigns[t])
    && (forall v: NodeId, t: nat, m: nat :: (v, t, m) in h'.acks && v != i ==> (v, t, m) in h.acks)
  }

  lemma GrowsSelf(h: History)
    ensures Grows(h, h)
  {
  }

  lemma GrowsTransitive(a: History, b: History, c: History)
    requires Grows(a, b) && Grows(b, c)
    ensures Grows(a, c)
  {
  }

  // ----- Logs against the history -----

  function LastTerm(log: seq<LogEntry>): nat {
    if log == [] then 0 else log[|log| - 1].term
  }

  /** The voter's test: `candidate` is at least as up to date as `voter`. */
  ghost predicate UpToDate(candidate: seq<LogEntry>, voter: seq<LogEntry>) {
    LastTerm(candidate) > LastTerm(voter)
    || (LastTerm(candidate) == LastTerm(voter) && |candidate| >= |voter|)
  }

  ghost predicate TermsUpTo(log: seq<LogEntry>, t: nat) {
    forall k :: 0 <= k < |log| ==> log[k].term <= t
  }

  ghost predicate TermsBelow(log: seq<LogEntry>, t: nat) {
    forall k :: 0 <= k < |log| ==> log[k].term < t
  }

  /** The log up to position k is a prefix of the log of the leader that made entry k. */
  ghost predicate OnReign(log: seq<LogEntry>, k: nat, h: History)
    requires k < |log|
  {
    var t := log[k].term;
    t in h.reigns && k < |h.reigns[t].log| && log[..k + 1] == h.reigns[t].log[..k + 1]
  }

  ghost predicate Coherent(log: seq<LogEntry>, h: History) {
    forall k :: 0 <= k < |log| ==> OnReign(log, k, h)
  }

  ghost predicate LogOk(log: seq<LogEntry>, t: nat, h: History) {
    Coherent(log, h) && TermsUpTo(log, t)
  }

  lemma CoherentGrows(log: seq<LogEntry>, h: History, h': History)
    requires Coherent(log, h) && Grows(h, h')
    ensures Coherent(log, h')
  {
    forall k | 0 <= k < |log| ensures OnReign(log, k, h') {
      assert OnReign(log, k, h);
      var t := log[k].term;
      assert h.reigns[t].log[..k + 1] == h'.reigns[t].log[..k + 1];
    }
  }

  lemma CoherentPrefix(log: seq<LogEntry>, m: nat, h: History)
    requires Coherent(log, h) && m <= |log|
    ensures Coherent(log[..m], h)
  {
    forall k | 0 <= k < m ensures OnReign(log[..m], k, h) {
      assert OnReign(log, k, h);
      assert log[..m][..k + 1] == log[..k + 1];
    }
  }

  lemma CoherentAppend(log: seq<LogEntry>, e: LogEntry, h: History)
    requires Coherent(log, h) && e.term in h.reigns && log + [e] <= h.reigns[e.term].log
    ensures Coherent(log + [e], h)
  {
    var log' := log + [e];
    forall k | 0 <= k < |log'| ensures OnReign(log', k, h) {
      if k < |log| {
        assert OnReign(log, k, h);
        assert log'[..k + 1] == log[..k + 1];
      }
    }
  }

  /** The heart of log matching: the same term at the same position means the same log up to there. */
  lemma CoherentMatch(a: seq<LogEntry>, b: seq<LogEntry>, k: nat, h: History)
    requires Coherent(a, h) && Coherent(b, h)
    requires k < |a| && k < |b| && a[k].term == b[k].term
    ensures a[..k + 1] == b[..k + 1]
  {
    assert OnReign(a, k, h) && OnReign(b, k, h);
  }

  /** A coherent log is a prefix of the log of the leader that made its last entry. */
  lemma CoherentLast(log: seq<LogEntry>, h: History)
    requires Coherent(log, h) && log != []
    ensures LastTerm(log) in h.reigns && log <= h.reigns[LastTerm(log)].log
  {
    assert OnReign(log, |log| - 1, h);
    assert log[..|log|] == log;
  }

  /** Merging a coherent continuation either keeps the log, which already contains it, or yields it. */
  lemma MergeCoherent(log: seq<LogEntry>, carried: seq<LogEntry>, k: nat, h: History)
    requires Coherent(log, h) && Coherent(carried, h)
    requires k <= |log| && k <= |carried| && log[..k] == carried[..k]
    ensures var r := MergeLog(log, k, carried[k..]);
            (r == log && carried <= log) || (r == carried && !(carried <= log))
  {
    hide Agree, Coherent;
    var es := carried[k..];
    var j := Agree(log, k, es);
    if j > 0 {
      assert es[j - 1] == carried[k + j - 1];
      CoherentMatch(log, carried, k + j - 1, h);
    }
    assert log[..k + j] == carried[..k + j];
    if j == |es| {
      TakeAll(carried);
      TakeDrop(log, k + j);
    } else {
      Rejoin(carried, k, j);
      Differs(log, carried, k + j, es[j]);
    }
  }

  lemma Differs(log: seq<LogEntry>, carried: seq<LogEntry>, i: nat, e: LogEntry)
    requires i < |carried| && carried[i] == e && (i < |log| ==> log[i].term != e.term)
    ensures !(carried <= log)
  {
  }

  // ----- Elections -----

  ghost predicate VotedFor(h: History, v: NodeId, t: nat, c: NodeId) {
    (v, t) in h.votes && h.votes[(v, t)].candidate == c
  }

  function NodeSet(nodes: seq<NodeId>): set<NodeId> {
    set i | i in nodes
  }

  ghost predicate VoteOk(nodes: seq<NodeId>, h: History, v: NodeId, t: nat)
    requires (v, t) in h.votes
  {
    var x := h.votes[(v, t)];
    && v in nodes && x.candidate in nodes
    && LogOk(x.log, t, h)
    && (x.candidate == v ==> TermsBelow(x.log, t))
    && VotedFor(h, x.candidate, t, x.candidate)
    && UpToDate(h.votes[(x.candidate, t)].log, x.log)
  }

  ghost predicate ReignOk(nodes: seq<NodeId>, h: History, t: nat)
    requires t in h.reigns
  {
    var r := h.reigns[t];
    && t > 0
    && r.leader in nodes
    && r.electors <= NodeSet(nodes) && 2 * |r.electors| > |NodeSet(nodes)|
    && (forall v :: v in r.electors ==> VotedFor(h, v, t, r.leader))
    && VotedFor(h, r.leader, t, r.leader)
    && var base := h.votes[(r.leader, t)].log;
       && base < r.log
       && (forall k :: |base| <= k < |r.log| ==> r.log[k].term == t)
  }

  ghost predicate HistoryOk(nodes: seq<NodeId>, h: History) {
    && (forall v: NodeId, t: nat :: (v, t) in h.votes ==> VoteOk(nodes, h, v, t))
    && (forall t :: t in h.reigns ==> ReignOk(nodes, h, t))
  }

  lemma QuorumsMeet(nodes: set<NodeId>, a: set<NodeId>, b: set<NodeId>) returns (v: NodeId)
    requires a <= nodes && b <= nodes && 2 * |a| >= |nodes| && 2 * |b| > |nodes|
    ensures v in a && v in b
  {
    if a * b == {} {
      assert |a + b| == |a| + |b|;
      SubsetSize(a + b, nodes);
    }
    v :| v in a * b;
  }

  lemma {:induction false} SubsetSize<T>(a: set<T>, b: set<T>)
    requires a <= b
    ensures |a| <= |b|
    decreases a
  {
    if a != {} {
      var x :| x in a;
      SubsetSize(a - {x}, b - {x});
    }
  }

  /** The shape of a leader's log: entries of its own term, at least one, on top of older ones. */
  lemma ReignShape(nodes: seq<NodeId>, h: History, t: nat)
    requires HistoryOk(nodes, h) && t in h.reigns
    ensures var log := h.reigns[t].log; log != [] && LastTerm(log) == t && LogOk(log, t, h)
  {
    assert ReignOk(nodes, h, t);
    var r := h.reigns[t];
    assert VoteOk(nodes, h, r.leader, t);
    var base := h.votes[(r.leader, t)].log;
    assert r.log[|r.log| - 1].term == t;
    forall k | 0 <= k < |r.log| ensures OnReign(r.log, k, h) && r.log[k].term <= t {
      if k < |base| {
        assert OnReign(base, k, h);
        assert base[..k + 1] == r.log[..k + 1];
        assert r.log[k] == base[k];
      }
    }
  }

  /** Terms never decrease along a coherent log. */
  lemma CoherentSorted(nodes: seq<NodeId>, h: History, log: seq<LogEntry>, i: nat, j: nat)
    requires HistoryOk(nodes, h) && Coherent(log, h) && i <= j < |log|
    ensures 0 < log[i].term <= log[j].term
  {
    assert OnReign(log, j, h) && OnReign(log, i, h);
    var t := log[j].term;
    ReignShape(nodes, h, t);
    assert ReignOk(nodes, h, log[i].term);
    assert log[i] == log[..j + 1][i] == h.reigns[t].log[..j + 1][i] == h.reigns[t].log[i];
  }
}
