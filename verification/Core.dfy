/** The Raft node as the object the event loop drives. Its methods update the fields in place, loop by loop as
    `RaftCore` does; each is proved against the step function of `RaftNode`. A panic is the result None. The
    value drawn for the election timeout is a parameter. */
module Core {
  import opened RaftTypes
  import opened RaftNode
  import opened OrderStatistics

  /** The method's result and the new state are what the step says. */
  ghost predicate Ends(s: Step, n: Node, r: Option<seq<Action>>) {
    match r
    case None => s.Panicked?
    case Some(actions) => s == Done(n, actions)
  }

  /** A listing of a set of keys in any order, as a hash map yields them. */
  ghost predicate Lists(order: seq<nat>, keys: set<nat>) {
    && (forall k :: k in keys <==> k in order)
    && forall i, j :: 0 <= i < j < |order| ==> order[i] != order[j]
  }

  /** On a success the hash map of barriers is walked completely, in some order. */
  ghost predicate Listed(n: Node, input: Input) {
    input.Delivery? && input.message.AppendEntriesResponse? && input.message.success ==>
      Lists(input.order, n.AdoptTerm(input.message.term, input.timeout).readBarriers.Keys)
  }

  /** Sorting forgets the order in which the values were collected. */
  lemma SortedSame(collected: seq<nat>, m: map<nat, nat>, own: nat)
    requires multiset(collected) == multiset(ValuesOf(m))
    ensures Sort(collected + [own]) == Sort(ValuesOf(m) + [own])
  {
    SortAscending(collected + [own]);
    SortAscending(ValuesOf(m) + [own]);
    AscendingUnique(Sort(collected + [own]), Sort(ValuesOf(m) + [own]));
  }

  /** The values of a hash map, collected key by key in any order. */
  method Collect(m: map<nat, nat>) returns (values: seq<nat>)
    ensures multiset(values) == multiset(ValuesOf(m))
  {
    values := [];
    var keys := m.Keys;
    while keys != {}
      invariant keys <= m.Keys
      invariant multiset(values) + multiset(ValuesOver(m, keys)) == multiset(ValuesOf(m))
      decreases |keys|
    {
      var k :| k in keys;
      ValuesRemove(m, keys, k);
      values := values + [m[k]];
      keys := keys - {k};
    }
  }

  lemma {:induction false} ReadyAppend(n: Node, order: seq<nat>, k: nat)
    ensures n.ReadyBarriers(order + [k]) == n.ReadyBarriers(order) + n.ReadyBarriers([k])
  {
    if order == [] {
      assert order + [k] == [k];
    } else {
      assert (order + [k])[1..] == order[1..] + [k];
      ReadyAppend(n, order[1..], k);
    }
  }

  lemma {:induction false} ReadySame(n: Node, n': Node, order: seq<nat>)
    requires n'.readBarriers == n.readBarriers && n'.successCount == n.successCount && n'.peers == n.peers
    ensures n'.ReadyBarriers(order) == n.ReadyBarriers(order)
  {
    if order != [] {
      ReadySame(n, n', order[1..]);
    }
  }

  /** Take out the barriers that are ready, in whatever order the hash map yields its keys. */
  method ExtractReady(n: Node) returns (ready: seq<nat>, left: map<nat, nat>, ghost order: seq<nat>)
    ensures Lists(order, n.readBarriers.Keys)
    ensures ready == n.ReadyBarriers(order)
    ensures left == n.readBarriers - (set k | k in ready)
  {
    ready, order, left := [], [], n.readBarriers;
    var keys := n.readBarriers.Keys;
    while keys != {}
      invariant keys <= n.readBarriers.Keys && Lists(order, n.readBarriers.Keys - keys)
      invariant ready == n.ReadyBarriers(order)
      invariant left == n.readBarriers - (set k | k in ready)
      decreases |keys|
    {
      var k :| k in keys;
      ReadyAppend(n, order, k);
      if n.successCount >= n.readBarriers[k] + (|n.peers| + 1) / 2 {
        ready := ready + [k];
        left := left - {k};
      }
      keys, order := keys - {k}, order + [k];
    }
  }

  /** A new leader expects every peer to need the entry after its last, and to have matched nothing. */
  method TrackPeers(peers: seq<NodeId>, last: nat, next0: map<NodeId, nat>, match0: map<NodeId, nat>)
    returns (nextIndex: map<NodeId, nat>, matchIndex: map<NodeId, nat>)
    ensures nextIndex == SetAll(next0, peers, last + 1)
    ensures matchIndex == SetAll(match0, peers, 0)
  {
    nextIndex, matchIndex := next0, match0;
    for k := 0 to |peers|
      invariant nextIndex == SetAll(next0, peers[..k], last + 1)
      invariant matchIndex == SetAll(match0, peers[..k], 0)
    {
      assert peers[..k + 1][..k] == peers[..k];
      nextIndex := nextIndex[peers[k] := last + 1];
      matchIndex := matchIndex[peers[k] := 0];
    }
    assert peers[..|peers|] == peers;
  }

  lemma SliceLast(n: Node)
    requires n.log != []
    ensures n.Slice(n.LastLogIndex(), n.LastLogIndex() + 1) == Some([n.log[|n.log| - 1]])
  {
    assert n.log[|n.log| - 1..|n.log|] == [n.log[|n.log| - 1]];
  }

  class RaftCore {
    const id: NodeId
    const peers: seq<NodeId>
    const heartbeatInterval: nat
    var role: Role
    var currentTerm: nat
    var votedFor: Option<NodeId>
    var log: seq<LogEntry>
    var commitIndex: nat
    var lastApplied: nat
    var currentLeader: Option<NodeId>
    var nextIndex: map<NodeId, nat>
    var matchIndex: map<NodeId, nat>
    var votesReceived: set<NodeId>
    var snapIndex: nat
    var snapTerm: nat
    var ticks: nat
    var electionTimeout: nat
    var successCount: nat
    var nextBarrierId: nat
    var readBarriers: map<nat, nat>

    /** The fields as a value; its functions are the read-only functions of the object. */
    function Model(): Node
      reads this
    {
      Node(id, peers, role, currentTerm, votedFor, log, commitIndex, lastApplied, currentLeader, nextIndex,
           matchIndex, votesReceived, snapIndex, snapTerm, ticks, electionTimeout, heartbeatInterval,
           successCount, nextBarrierId, readBarriers)
    }

    constructor (id: NodeId, nodes: seq<NodeId>, heartbeat: Option<nat>, timeout: nat)
      ensures Model() == New(id, nodes, heartbeat, timeout)
    {
      this.id, peers, heartbeatInterval := id, Others(id, nodes), heartbeat.GetOr(DEFAULT_HEARTBEAT);
      role, currentTerm, votedFor, log := Follower, 0, None, [];
      commitIndex, lastApplied, currentLeader := 0, 0, None;
      nextIndex, matchIndex, votesReceived := map[], map[], {};
      snapIndex, snapTerm, ticks, electionTimeout := 0, 0, 0, timeout;
      successCount, nextBarrierId, readBarriers := 0, 0, map[];
    }

    /** The fields that survive a restart. */
    method Reload(term: nat, vote: Option<NodeId>, entries: seq<LogEntry>)
      modifies this
      ensures Model() == old(Model()).(currentTerm := term, votedFor := vote, log := entries)
    {
      currentTerm, votedFor, log := term, vote, entries;
    }

    /** Start right above a snapshot. */
    method ResumeAt(index: nat, term: nat)
      modifies this
      ensures Model() == old(Model()).(snapIndex := index, snapTerm := term, commitIndex := index, lastApplied := index)
    {
      snapIndex, snapTerm := index, term;
      commitIndex, lastApplied := index, index;
    }

    // ----- Client and timer inputs -----

    method Propose(command: Bytes) returns (accepted: bool, actions: seq<Action>)
      modifies this
      ensures accepted == (old(role) == Leader)
      ensures Done(Model(), actions) == old(Model()).Propose(command)
    {
      if role != Leader { return false, []; }
      log := log + [LogEntry(currentTerm, command)];
      ticks := 0;
      var last := Model().LastLogIndex();
      SliceLast(Model());
      var entries := Model().Slice(last, last + 1);
      accepted, actions := true, [PersistLogEntries(last, entries.value)] + Model().AppendToAll();
    }

    method ResetElectionTimeout(timeout: nat)
      modifies this
      ensures Model() == old(Model()).ResetTimer(timeout)
    {
      ticks, electionTimeout := 0, timeout;
    }

    method Tick(timeout: nat) returns (actions: seq<Action>)
      modifies this
      ensures Done(Model(), actions) == old(Model()).Tick(timeout)
    {
      ticks := ticks + 1;
      match role {
        case Leader => actions := Heartbeat();
        case Candidate => actions := ElectionTimeout(timeout);
        case Follower => actions := ElectionTimeout(timeout);
      }
    }

    method Heartbeat() returns (actions: seq<Action>)
      modifies this
      ensures Done(Model(), actions) == old(Model()).Heartbeat()
    {
      if ticks < heartbeatInterval { return []; }
      actions := Model().AppendToAll();
      ticks := 0;
    }

    method VoteForSelf()
      modifies this
      ensures Model() == old(Model()).(votesReceived := {id}, votedFor := Some(id))
    {
      votesReceived := {};
      votedFor := Some(id);
      votesReceived := votesReceived + {id};
    }

    method ElectionTimeout(timeout: nat) returns (actions: seq<Action>)
      modifies this
      ensures Done(Model(), actions) == old(Model()).ElectionTimeout(timeout)
    {
      if ticks < electionTimeout { return []; }
      currentTerm := currentTerm + 1;
      role := Candidate;
      currentLeader := None;
      VoteForSelf();
      ResetElectionTimeout(timeout);
      actions := [PersistMetadata(currentTerm, votedFor)] + Model().RequestVotes();
    }

    method RequestReadBarrier() returns (barrier: Option<nat>)
      modifies this
      ensures (Model(), barrier) == old(Model()).RequestReadBarrier()
    {
      if role != Leader { return None; }
      nextBarrierId := nextBarrierId + 1;
      readBarriers := readBarriers[nextBarrierId := successCount];
      return Some(nextBarrierId);
    }

    // ----- Elections -----

    method StepDown(term: nat)
      modifies this
      ensures Model() == old(Model()).(currentTerm := term, role := Follower, votedFor := None)
    {
      currentTerm := term;
      role := Follower;
      votedFor := None;
    }

    method CheckMsgTerm(term: nat, timeout: nat) returns (actions: seq<Action>)
      modifies this
      ensures Model() == old(Model()).AdoptTerm(term, timeout)
      ensures actions == old(Model()).AdoptActions(term)
    {
      if term <= currentTerm { return []; }
      StepDown(term);
      ResetElectionTimeout(timeout);
      readBarriers := map[];
      currentLeader := None;
      return [PersistMetadata(currentTerm, votedFor)];
    }

    method HandleRequestVote(m: Message, timeout: nat) returns (actions: seq<Action>)
      requires m.RequestVote?
      modifies this
      ensures Done(Model(), actions) == old(Model()).Receive(m, timeout, [])
    {
      actions := CheckMsgTerm(m.term, timeout);
      var refusal := SendMessage(m.candidate, RequestVoteResponse(id, currentTerm, false));
      if m.term < currentTerm { return actions + [refusal]; }
      var canVote := match votedFor case None => true case Some(v) => v == m.candidate;
      var n := Model();
      var logCheck := m.lastLogTerm > n.LastLogTerm()
                      || (m.lastLogTerm == n.LastLogTerm() && m.lastLogIndex >= n.LastLogIndex());
      if canVote && logCheck {
        ResetElectionTimeout(timeout);
        votedFor := Some(m.candidate);
        actions := actions + [PersistMetadata(currentTerm, votedFor),
                              SendMessage(m.candidate, RequestVoteResponse(id, currentTerm, true))];
      } else {
        actions := actions + [refusal];
      }
    }

    method HandleRequestVoteResponse(m: Message, timeout: nat) returns (actions: seq<Action>)
      requires m.RequestVoteResponse?
      modifies this
      ensures Done(Model(), actions) == old(Model()).Receive(m, timeout, [])
    {
      actions := CheckMsgTerm(m.term, timeout);
      if role != Candidate || !m.granted { return actions + []; }
      votesReceived := votesReceived + {m.id};
      if |votesReceived| <= (|peers| + 1) / 2 { return actions + []; }
      var won := BecomeLeader(timeout);
      actions := actions + won;
    }

    method TakeOffice()
      modifies this
      ensures Model() == old(Model()).(role := Leader, currentLeader := Some(id))
    {
      role := Leader;
      currentLeader := Some(id);
    }

    method BecomeLeader(timeout: nat) returns (actions: seq<Action>)
      modifies this
      ensures Model() == old(Model()).WinElection(timeout)
      ensures actions
              == [PersistLogEntries(Model().LastLogIndex(), [LogEntry(currentTerm, [])])] + Model().AppendToAll()
    {
      hide Node.AppendToAll, SetAll;
      TakeOffice();
      var persist := InitializeLeaderState();
      ResetElectionTimeout(timeout);
      assert Model() == old(Model()).WinElection(timeout);
      actions := [persist] + Model().AppendToAll();
    }

    /** Add the blank entry of the new term and start tracking every peer. */
    method InitializeLeaderState() returns (persist: Action)
      modifies this`log, this`nextIndex, this`matchIndex
      ensures Model() == old(Model()).(log := old(log) + [LogEntry(currentTerm, [])],
                                       nextIndex := SetAll(old(nextIndex), peers, old(Model()).LastLogIndex() + 2),
                                       matchIndex := SetAll(old(matchIndex), peers, 0))
      ensures persist == PersistLogEntries(old(Model()).LastLogIndex() + 1, [LogEntry(currentTerm, [])])
    {
      hide Node.Slice, SetAll;
      log := log + [LogEntry(currentTerm, [])];
      var last := Model().LastLogIndex();
      nextIndex, matchIndex := TrackPeers(peers, last, nextIndex, matchIndex);
      SliceLast(Model());
      var entries := Model().Slice(last, last + 1);
      persist := PersistLogEntries(last, entries.value);
    }

    // ----- Replication: the follower -----

    /** Search back for the first index of the run of `term` below `index`. */
    method FindConflict(term: nat, index: nat) returns (found: Option<nat>)
      ensures found == Model().FirstOfRun(term, index)
    {
      var i: nat := index;
      while i > 0
        invariant 0 <= i <= index && Model().FirstOfRun(term, i) == Model().FirstOfRun(term, index)
      {
        i := i - 1;
        if Model().TermAt(i).GetOr(0) != term { return Some(i + 1); }
      }
      return None;
    }

    /** Overwrite from the first conflicting entry on, and append; false is a panic. */
    method AppendNew(next: nat, entries: seq<LogEntry>) returns (ok: bool)
      modifies this`log
      ensures ok == old(Model()).Merge(next, entries).Some?
      ensures ok ==> Model() == old(Model()).Merge(next, entries).value
    {
      var k := 0;
      assert entries[0..] == entries;
      while k < |entries|
        invariant k <= |entries|
        invariant Model().Merge(next + k, entries[k..]) == old(Model()).Merge(next, entries)
      {
        var i, newEntry := next + k, entries[k];
        assert entries[k..][1..] == entries[k + 1..];
        k := k + 1;
        if i <= Model().LastLogIndex() {
          var term := Model().TermAt(i);
          if term.None? { return false; }
          if term.value == newEntry.term { continue; }
          if i <= snapIndex { return false; }
          log := log[..i - snapIndex - 1];
        }
        log := log + [newEntry];
      }
      return true;
    }

    method ApplyAll(start: nat, entries: seq<LogEntry>) returns (actions: seq<Action>)
      ensures actions == Node.Applies(start, entries)
    {
      actions := [];
      for k := 0 to |entries|
        invariant actions == Node.Applies(start, entries)[..k]
      {
        actions := actions + [ApplyToStateMachine(start + k, entries[k].command)];
      }
    }

    method FollowLeaderCommit(leaderCommit: nat) returns (r: Option<seq<Action>>)
      modifies this`commitIndex, this`lastApplied
      ensures Ends(old(Model()).FollowCommit(leaderCommit), Model(), r)
    {
      hide Node.Applies;
      if leaderCommit <= commitIndex { return Some([]); }
      var before, last := commitIndex, Model().LastLogIndex();
      commitIndex := if leaderCommit <= last then leaderCommit else last;
      var entries := Model().Slice(before + 1, commitIndex + 1);
      if entries.None? { return None; }
      var actions := ApplyAll(before + 1, entries.value);
      lastApplied := commitIndex;
      return Some(actions);
    }

    method HandleAppendEntries(m: Message, timeout: nat) returns (r: Option<seq<Action>>)
      requires m.AppendEntries?
      modifies this
      ensures Ends(old(Model()).Receive(m, timeout, []), Model(), r)
    {
      var actions := CheckMsgTerm(m.term, timeout);
      if m.term == currentTerm && role == Candidate { role := Follower; }
      if role != Follower { return Some(actions + [Model().Reject(m, None, None)]); }
      if m.term < currentTerm { return Some(actions + [Model().Reject(m, None, None)]); }
      ResetElectionTimeout(timeout);
      currentLeader := Some(m.leader);
      r := AppendFrom(m);
      if r.Some? { r := Some(actions + r.value); }
    }

    method AppendFrom(m: Message) returns (r: Option<seq<Action>>)
      requires m.AppendEntries?
      modifies this
      ensures Ends(old(Model()).AppendFrom(m), Model(), r)
    {
      var last := Model().LastLogIndex();
      if !(m.prevIndex == 0 || (m.prevIndex <= last && Model().TermAt(m.prevIndex) == Some(m.prevTerm))) {
        if m.prevIndex > last { return Some([Model().Reject(m, Some(last + 1), None)]); }
        var conflictTerm := Model().TermAt(m.prevIndex).GetOr(0);
        var conflictIndex := FindConflict(conflictTerm, m.prevIndex);
        return Some([Model().Reject(m, conflictIndex, Some(conflictTerm))]);
      }
      var ok := AppendNew(m.prevIndex + 1, m.entries);
      if !ok { return None; }
      r := FinishAppend(m);
    }

    method FinishAppend(m: Message) returns (r: Option<seq<Action>>)
      requires m.AppendEntries?
      modifies this
      ensures Ends(old(Model()).FinishAppend(m), Model(), r)
    {
      var actions := [];
      if m.entries != [] {
        var suffix := Model().Slice(m.prevIndex + 1, Model().LastLogIndex() + 1);
        if suffix.None? { return None; }
        actions := [PersistLogEntries(m.prevIndex + 1, suffix.value)];
      }
      var applies := FollowLeaderCommit(m.leaderCommit);
      if applies.None? { return None; }
      actions := actions + applies.value;
      return Some(actions + [SendMessage(m.leader, AppendEntriesResponse(id, currentTerm, Model().LastLogIndex(), true,
                                                                         None, None))]);
    }

    // ----- Replication: the leader -----

    /** The index a majority has reached: collect, add the own last index, sort, pick the middle. */
    method MajorityIndex() returns (replicated: nat)
      ensures replicated == Model().ReplicatedIndex()
    {
      var indices := Collect(matchIndex);
      SortedSame(indices, matchIndex, Model().LastLogIndex());
      indices := Sort(indices + [Model().LastLogIndex()]);
      replicated := indices[|indices| / 2];
    }

    /** The last index of the current term up to `replicated`; None is a panic. */
    method FindCommit(replicated: nat) returns (found: Option<nat>)
      ensures found == Model().CommitScan(commitIndex + 1, replicated, commitIndex)
    {
      var newCommit: nat, index: nat := commitIndex, commitIndex + 1;
      while index <= replicated
        invariant Model().CommitScan(index, replicated, newCommit)
               == Model().CommitScan(commitIndex + 1, replicated, commitIndex)
        decreases replicated + 1 - index
      {
        var term := Model().TermAt(index);
        if term.None? { return None; }
        if term.value == currentTerm { newCommit := index; }
        index := index + 1;
      }
      return Some(newCommit);
    }

    method NoteSuccess(m: Message)
      requires m.AppendEntriesResponse?
      modifies this
      ensures Model() == old(Model()).NoteReplicated(m)
    {
      matchIndex := matchIndex[m.id := m.matchIndex];
      nextIndex := nextIndex[m.id := m.matchIndex + 1];
      successCount := successCount + 1;
    }

    method HandleAppendEntriesResponse(m: Message, timeout: nat) returns (r: Option<seq<Action>>, ghost order: seq<nat>)
      requires m.AppendEntriesResponse?
      modifies this
      ensures r.Some? ==> Listed(old(Model()), Delivery(m, timeout, order))
      ensures Ends(old(Model()).Receive(m, timeout, order), Model(), r)
    {
      order := [];
      var actions := CheckMsgTerm(m.term, timeout);
      if m.success {
        NoteSuccess(m);
      } else {
        if m.id in nextIndex { nextIndex := nextIndex[m.id := m.conflictIndex.GetOr(0)]; }
        return Some(actions + [Model().BuildAppendEntries(m.id)]), [];
      }
      r, order := AdvanceCommit();
      if r.Some? { r := Some(actions + r.value); }
    }

    method AdvanceCommit() returns (r: Option<seq<Action>>, ghost order: seq<nat>)
      modifies this
      ensures r.Some? ==> Lists(order, old(readBarriers).Keys)
      ensures Ends(old(Model()).AdvanceCommit(order), Model(), r)
    {
      hide Node.CommitScan, Node.ReplicatedIndex, Node.ReadyBarriers, Node.CommitTo;
      var replicated := MajorityIndex();
      var newCommit := FindCommit(replicated);
      if newCommit.None? { return None, []; }
      r, order := CommitAndRelease(newCommit.value);
    }

    method CommitAndRelease(newCommit: nat) returns (r: Option<seq<Action>>, ghost order: seq<nat>)
      modifies this
      ensures r.Some? ==> Lists(order, old(readBarriers).Keys)
      ensures Ends(old(Model()).CommitTo(newCommit, old(Model()).ReadyBarriers(order)), Model(), r)
    {
      hide Node.Slice, Node.ReadyBarriers;
      order := [];
      r := CommitUpTo(newCommit);
      if r.None? { return; }
      var ready, left;
      ready, left, order := ExtractReady(Model());
      ReadySame(old(Model()), Model(), order);
      readBarriers := left;
      r := Some(r.value + Node.Releases(ready));
    }

    /** Move the commit index and apply what it newly covers. */
    method CommitUpTo(newCommit: nat) returns (r: Option<seq<Action>>)
      modifies this`commitIndex, this`lastApplied
      ensures match old(Model()).Slice(old(lastApplied) + 1, newCommit + 1)
              case None => r.None?
              case Some(es) => && r == Some(Node.Applies(old(lastApplied) + 1, es))
                               && Model() == old(Model()).(commitIndex := newCommit, lastApplied := newCommit)
    {
      commitIndex := newCommit;
      var entries := Model().Slice(lastApplied + 1, commitIndex + 1);
      if entries.None? { return None; }
      var actions := ApplyAll(lastApplied + 1, entries.value);
      lastApplied := commitIndex;
      return Some(actions);
    }

    // ----- Snapshots -----

    method CompleteSnapshot(index: nat, term: nat) returns (ok: bool)
      modifies this
      ensures ok == old(Model()).CompleteSnapshot(index, term).Some?
      ensures ok ==> Model() == old(Model()).CompleteSnapshot(index, term).value
    {
      if index <= snapIndex { return true; }
      if index - snapIndex > |log| { return false; }
      log := log[index - snapIndex..];
      snapIndex, snapTerm := index, term;
      return true;
    }

    method ReplaceLog(index: nat, term: nat)
      modifies this
      ensures Model() == old(Model()).(log := [], snapIndex := index, snapTerm := term, commitIndex := index,
                                       lastApplied := index)
    {
      log := [];
      ResumeAt(index, term);
    }

    method HandleInstallSnapshot(m: Message, timeout: nat) returns (actions: seq<Action>)
      requires m.InstallSnapshot?
      modifies this
      ensures Done(Model(), actions) == old(Model()).Receive(m, timeout, [])
    {
      actions := CheckMsgTerm(m.term, timeout);
      var bail := SendMessage(m.leader, InstallSnapshotResponse(id, currentTerm, snapIndex));
      if m.term < currentTerm { return actions + [bail]; }
      if m.term == currentTerm && role == Candidate { role := Follower; }
      ResetElectionTimeout(timeout);
      currentLeader := Some(m.leader);
      if m.snapIndex <= snapIndex { return actions + [bail]; }
      if Model().TermAt(m.snapIndex) == Some(m.snapTerm) {
        return actions + [SendMessage(m.leader, InstallSnapshotResponse(id, currentTerm, m.snapIndex))];
      }
      ReplaceLog(m.snapIndex, m.snapTerm);
      return actions + [LoadSnapshot(m.snapIndex, m.snapTerm, m.data),
                        SendMessage(m.leader, InstallSnapshotResponse(id, currentTerm, snapIndex))];
    }

    method HandleInstallSnapshotResponse(m: Message, timeout: nat) returns (actions: seq<Action>)
      requires m.InstallSnapshotResponse?
      modifies this
      ensures Done(Model(), actions) == old(Model()).Receive(m, timeout, [])
    {
      actions := CheckMsgTerm(m.term, timeout);
      if role != Leader { return actions + []; }
      nextIndex := nextIndex[m.id := m.snapIndex + 1];
      matchIndex := matchIndex[m.id := m.snapIndex];
      return actions + [];
    }
  }
}
