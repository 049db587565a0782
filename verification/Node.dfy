/** The Raft node as a value: its fields, the log index functions, and one pure step function per
    entry point. Rust panics (failed unwraps, subtractions below zero, bad slices) are the outcome
    `Panicked`. The random election timeout is a parameter, and so is the order in which a hash map
    yields its keys. */
module RaftNode {
  import opened RaftTypes
  import OrderStatistics

  /** The map m with `value` inserted under every key. */
  function SetAll(m: map<NodeId, nat>, keys: seq<NodeId>, value: nat): (r: map<NodeId, nat>)
    ensures forall k :: k in r <==> k in keys || k in m
    ensures forall k :: k in r ==> r[k] == if k in keys then value else m[k]
  {
    if keys == [] then m
    else SetAll(m, keys[..|keys| - 1], value)[keys[|keys| - 1] := value]
  }

  datatype Step = Panicked | Done(node: Node, actions: seq<Action>)

  datatype Node = Node(
    id: NodeId,
    peers: seq<NodeId>,
    role: Role,
    currentTerm: nat,
    votedFor: Option<NodeId>,
    log: seq<LogEntry>,
    commitIndex: nat,
    lastApplied: nat,
    currentLeader: Option<NodeId>,
    nextIndex: map<NodeId, nat>,
    matchIndex: map<NodeId, nat>,
    votesReceived: set<NodeId>,
    snapIndex: nat,
    snapTerm: nat,
    ticks: nat,
    electionTimeout: nat,
    heartbeatInterval: nat,
    successCount: nat,
    nextBarrierId: nat,
    readBarriers: map<nat, nat>
  ) {

    // ----- Log index functions: logical indices start at snapIndex + 1 -----

    function LastLogIndex(): nat {
      snapIndex + |log|
    }

    function EntryAt(index: nat): Option<LogEntry> {
      if index <= snapIndex || index - snapIndex - 1 >= |log| then None
      else Some(log[index - snapIndex - 1])
    }

    function TermAt(index: nat): Option<nat> {
      if index < snapIndex then None
      else if index == snapIndex then Some(snapTerm)
      else match EntryAt(index)
           case Some(e) => Some(e.term)
           case None => None
    }

    function LastLogTerm(): nat {
      TermAt(LastLogIndex()).value
    }

    /** Entries from `from` up to but excluding `to`; None is a panic. */
    function Slice(from: nat, to: nat): Option<seq<LogEntry>> {
      if from <= snapIndex then Some([])
      else if to <= snapIndex then None
      else
        var f := from - snapIndex - 1;
        var t := if to - snapIndex - 1 <= |log| then to - snapIndex - 1 else |log|;
        if f > t then None else Some(log[f..t])
    }

    predicate IsLeader() { role == Leader }

    // ----- Messages a leader builds -----

    function NextFor(peer: NodeId): nat {
      if peer in nextIndex then nextIndex[peer] else LastLogIndex()
    }

    function PrevFor(peer: NodeId): nat {
      if NextFor(peer) > 0 then NextFor(peer) - 1 else 0
    }

    function BuildAppendEntries(peer: NodeId): Action {
      match TermAt(PrevFor(peer))
      case None => SendInstallSnapshot(peer, currentTerm, snapIndex, snapTerm)
      case Some(t) =>
        SendMessage(peer, AppendEntries(currentTerm, id, PrevFor(peer), t,
                                        Slice(NextFor(peer), LastLogIndex() + 1).value, commitIndex))
    }

    function AppendToAll(): seq<Action> {
      seq(|peers|, k requires 0 <= k < |peers| => BuildAppendEntries(peers[k]))
    }

    function ResetTimer(timeout: nat): Node {
      this.(ticks := 0, electionTimeout := timeout)
    }

    // ----- Client and timer inputs -----

    function Propose(command: Bytes): Step {
      if role != Leader then Done(this, [])
      else
        var n := this.(log := log + [LogEntry(currentTerm, command)], ticks := 0);
        Done(n, [PersistLogEntries(n.LastLogIndex(), [LogEntry(currentTerm, command)])] + n.AppendToAll())
    }

    function Tick(timeout: nat): Step {
      var n := this.(ticks := ticks + 1);
      if role == Leader then n.Heartbeat() else n.ElectionTimeout(timeout)
    }

    function Heartbeat(): Step {
      if ticks >= heartbeatInterval then Done(this.(ticks := 0), AppendToAll()) else Done(this, [])
    }

    function StandForElection(timeout: nat): Node {
      this.(currentTerm := currentTerm + 1, role := Candidate, currentLeader := None,
            votesReceived := {id}, votedFor := Some(id)).ResetTimer(timeout)
    }

    function RequestVotes(): seq<Action> {
      seq(|peers|, k requires 0 <= k < |peers| =>
        SendMessage(peers[k], RequestVote(currentTerm, id, LastLogIndex(), LastLogTerm())))
    }

    function ElectionTimeout(timeout: nat): Step {
      if ticks < electionTimeout then Done(this, [])
      else
        var n := StandForElection(timeout);
        Done(n, [PersistMetadata(n.currentTerm, n.votedFor)] + n.RequestVotes())
    }

    /** The new barrier's id, or None when this node is not the leader. */
    function RequestReadBarrier(): (Node, Option<nat>) {
      if role != Leader then (this, None)
      else
        var k := nextBarrierId + 1;
        (this.(nextBarrierId := k, readBarriers := readBarriers[k := successCount]), Some(k))
    }

    // ----- Messages: every handler first adopts a higher term -----

    function AdoptTerm(t: nat, timeout: nat): Node {
      if t > currentTerm then
        this.(currentTerm := t, role := Follower, votedFor := None, readBarriers := map[],
              currentLeader := None).ResetTimer(timeout)
      else this
    }

    function AdoptActions(t: nat): seq<Action> {
      if t > currentTerm then [PersistMetadata(t, None)] else []
    }

    function Receive(m: Message, timeout: nat, order: seq<nat>): Step {
      match AdoptTerm(m.term, timeout).React(m, timeout, order)
      case Panicked => Panicked
      case Done(n, actions) => Done(n, AdoptActions(m.term) + actions)
    }

    /** The part of each handler after its term check. */
    function React(m: Message, timeout: nat, order: seq<nat>): Step {
      match m
      case RequestVote(_, _, _, _) => OnRequestVote(m, timeout)
      case RequestVoteResponse(_, _, _) => OnRequestVoteResponse(m, timeout)
      case AppendEntries(_, _, _, _, _, _) => OnAppendEntries(m, timeout)
      case AppendEntriesResponse(_, _, _, _, _, _) => OnAppendEntriesResponse(m, order)
      case InstallSnapshot(_, _, _, _, _) => OnInstallSnapshot(m, timeout)
      case InstallSnapshotResponse(_, _, _) => OnInstallSnapshotResponse(m)
    }

    // ----- Elections -----

    predicate CandidateUpToDate(m: Message)
      requires m.RequestVote?
    {
      m.lastLogTerm > LastLogTerm()
      || (m.lastLogTerm == LastLogTerm() && m.lastLogIndex >= LastLogIndex())
    }

    predicate Grants(m: Message)
      requires m.RequestVote?
    {
      m.term >= currentTerm
      && (votedFor == None || votedFor == Some(m.candidate))
      && CandidateUpToDate(m)
    }

    function OnRequestVote(m: Message, timeout: nat): Step
      requires m.RequestVote?
    {
      if Grants(m) then
        Done(ResetTimer(timeout).(votedFor := Some(m.candidate)),
             [PersistMetadata(currentTerm, Some(m.candidate)),
              SendMessage(m.candidate, RequestVoteResponse(id, currentTerm, true))])
      else
        Done(this, [SendMessage(m.candidate, RequestVoteResponse(id, currentTerm, false))])
    }

    function WinElection(timeout: nat): Node {
      var last := LastLogIndex() + 1;
      this.(role := Leader, currentLeader := Some(id), log := log + [LogEntry(currentTerm, [])],
            nextIndex := SetAll(nextIndex, peers, last + 1),
            matchIndex := SetAll(matchIndex, peers, 0)).ResetTimer(timeout)
    }

    function OnRequestVoteResponse(m: Message, timeout: nat): Step
      requires m.RequestVoteResponse?
    {
      if role != Candidate || !m.granted then Done(this, [])
      else
        var n := this.(votesReceived := votesReceived + {m.id});
        if |n.votesReceived| > (|peers| + 1) / 2 then
          var w := n.WinElection(timeout);
          Done(w, [PersistLogEntries(w.LastLogIndex(), [LogEntry(currentTerm, [])])] + w.AppendToAll())
        else Done(n, [])
    }

    // ----- Replication: the follower -----

    /** The scan for the first index of the run of `term` that ends just below `index`. */
    function FirstOfRun(term: nat, index: nat): Option<nat> {
      if index == 0 then None
      else if TermAt(index - 1).GetOr(0) != term then Some(index)
      else FirstOfRun(term, index - 1)
    }

    /** The append loop: overwrite from the first conflicting term on; None is a panic. */
    function Merge(index: nat, entries: seq<LogEntry>): Option<Node>
      decreases |entries|
    {
      if entries == [] then Some(this)
      else
        var e := entries[0];
        if index <= LastLogIndex() then
          match TermAt(index)
          case None => None
          case Some(t) =>
            if t == e.term then Merge(index + 1, entries[1..])
            else if index <= snapIndex then None
            else this.(log := log[..index - snapIndex - 1] + [e]).Merge(index + 1, entries[1..])
        else this.(log := log + [e]).Merge(index + 1, entries[1..])
    }

    predicate Follows(m: Message)
      requires m.AppendEntries?
    {
      role == Follower && m.term >= currentTerm
    }

    predicate Matches(m: Message)
      requires m.AppendEntries?
    {
      m.prevIndex == 0
      || (m.prevIndex <= LastLogIndex() && TermAt(m.prevIndex) == Some(m.prevTerm))
    }

    function Reject(m: Message, conflictIndex: Option<nat>, conflictTerm: Option<nat>): Action
      requires m.AppendEntries?
    {
      SendMessage(m.leader, AppendEntriesResponse(id, currentTerm, LastLogIndex(), false,
                                                  conflictIndex, conflictTerm))
    }

    function Mismatch(m: Message): Action
      requires m.AppendEntries?
    {
      if m.prevIndex > LastLogIndex() then Reject(m, Some(LastLogIndex() + 1), None)
      else
        var t := TermAt(m.prevIndex).GetOr(0);
        Reject(m, FirstOfRun(t, m.prevIndex), Some(t))
    }

    function OnAppendEntries(m: Message, timeout: nat): Step
      requires m.AppendEntries?
    {
      var n := if m.term == currentTerm && role == Candidate then this.(role := Follower) else this;
      if !n.Follows(m) then Done(n, [n.Reject(m, None, None)])
      else n.ResetTimer(timeout).(currentLeader := Some(m.leader)).AppendFrom(m)
    }

    /** A follower checks the entry before the new ones and appends. */
    function AppendFrom(m: Message): Step
      requires m.AppendEntries?
    {
      if !Matches(m) then Done(this, [Mismatch(m)])
      else
        match Merge(m.prevIndex + 1, m.entries)
        case None => Panicked
        case Some(g) => g.FinishAppend(m)
    }

    /** What the follower writes: everything it holds after the matched prefix; None is a panic. */
    function PersistSuffix(m: Message): Option<seq<Action>>
      requires m.AppendEntries?
    {
      if m.entries == [] then Some([])
      else match Slice(m.prevIndex + 1, LastLogIndex() + 1)
           case None => None
           case Some(suffix) => Some([PersistLogEntries(m.prevIndex + 1, suffix)])
    }

    /** Persist, advance the commit index, answer. */
    function FinishAppend(m: Message): Step
      requires m.AppendEntries?
    {
      match PersistSuffix(m)
      case None => Panicked
      case Some(persist) =>
        match FollowCommit(m.leaderCommit)
        case Panicked => Panicked
        case Done(n, applies) =>
          Done(n, persist + applies
                  + [SendMessage(m.leader, AppendEntriesResponse(id, currentTerm, LastLogIndex(), true,
                                                                 None, None))])
    }

    function FollowCommit(leaderCommit: nat): Step {
      if leaderCommit <= commitIndex then Done(this, [])
      else
        var c := if leaderCommit <= LastLogIndex() then leaderCommit else LastLogIndex();
        match Slice(commitIndex + 1, c + 1)
        case None => Panicked
        case Some(es) =>
          Done(this.(commitIndex := c, lastApplied := c), Applies(commitIndex + 1, es))
    }

    static function Applies(start: nat, entries: seq<LogEntry>): seq<Action> {
      seq(|entries|, k requires 0 <= k < |entries| =>
        ApplyToStateMachine(start + k, entries[k].command))
    }

    // ----- Replication: the leader -----

    function ReplicatedIndex(): nat {
      var indices := OrderStatistics.Sort(OrderStatistics.ValuesOf(matchIndex) + [LastLogIndex()]);
      indices[|indices| / 2]
    }

    /** The commit loop from `index` to `last`, keeping the latest current-term index found so far. */
    function CommitScan(index: nat, last: nat, found: nat): Option<nat>
      decreases last + 1 - index
    {
      if index > last then Some(found)
      else match TermAt(index)
           case None => None
           case Some(t) => CommitScan(index + 1, last, if t == currentTerm then index else found)
    }

    function ReadyBarriers(order: seq<nat>): seq<nat> {
      if order == [] then []
      else
        (if order[0] in readBarriers && successCount >= readBarriers[order[0]] + (|peers| + 1) / 2
         then [order[0]] else [])
        + ReadyBarriers(order[1..])
    }

    function NoteReplicated(m: Message): Node
      requires m.AppendEntriesResponse?
    {
      this.(matchIndex := matchIndex[m.id := m.matchIndex],
            nextIndex := nextIndex[m.id := m.matchIndex + 1],
            successCount := successCount + 1)
    }

    function NoteRejected(m: Message): Node
      requires m.AppendEntriesResponse?
    {
      if m.id in nextIndex then this.(nextIndex := nextIndex[m.id := m.conflictIndex.GetOr(0)]) else this
    }

    function OnAppendEntriesResponse(m: Message, order: seq<nat>): Step
      requires m.AppendEntriesResponse?
    {
      if !m.success then
        var n := NoteRejected(m);
        Done(n, [n.BuildAppendEntries(m.id)])
      else NoteReplicated(m).AdvanceCommit(order)
    }

    function AdvanceCommit(order: seq<nat>): Step {
      match CommitScan(commitIndex + 1, ReplicatedIndex(), commitIndex)
      case None => Panicked
      case Some(c) => CommitTo(c, ReadyBarriers(order))
    }

    /** Move the commit index, apply what it newly covers, release the ready barriers. */
    function CommitTo(c: nat, ready: seq<nat>): Step {
      match Slice(lastApplied + 1, c + 1)
      case None => Panicked
      case Some(es) =>
        Done(this.(commitIndex := c, lastApplied := c, readBarriers := readBarriers - (set k | k in ready)),
             Applies(lastApplied + 1, es) + Releases(ready))
    }

    static function Releases(ready: seq<nat>): seq<Action> {
      seq(|ready|, k requires 0 <= k < |ready| => ReadBarrierReady(ready[k]))
    }

    // ----- Snapshots -----

    /** The index and term a snapshot taken now would cover; None is a panic. */
    function PrepareSnapshot(): Option<(nat, nat)> {
      match TermAt(lastApplied)
      case None => None
      case Some(t) => Some((lastApplied, t))
    }

    /** Drop the log up to and including `index`; None is a panic. */
    function CompleteSnapshot(index: nat, term: nat): Option<Node> {
      if index <= snapIndex then Some(this)
      else if index - snapIndex > |log| then None
      else Some(this.(log := log[index - snapIndex..], snapIndex := index, snapTerm := term))
    }

    function OnInstallSnapshot(m: Message, timeout: nat): Step
      requires m.InstallSnapshot?
    {
      if m.term < currentTerm then
        Done(this, [SendMessage(m.leader, InstallSnapshotResponse(id, currentTerm, snapIndex))])
      else
        var n := this.(role := if role == Candidate then Follower else role,
                       currentLeader := Some(m.leader)).ResetTimer(timeout);
        if m.snapIndex <= snapIndex then
          Done(n, [SendMessage(m.leader, InstallSnapshotResponse(id, currentTerm, snapIndex))])
        else if TermAt(m.snapIndex) == Some(m.snapTerm) then
          Done(n, [SendMessage(m.leader, InstallSnapshotResponse(id, currentTerm, m.snapIndex))])
        else
          Done(n.(log := [], snapIndex := m.snapIndex, snapTerm := m.snapTerm,
                  lastApplied := m.snapIndex, commitIndex := m.snapIndex),
               [LoadSnapshot(m.snapIndex, m.snapTerm, m.data),
                SendMessage(m.leader, InstallSnapshotResponse(id, currentTerm, m.snapIndex))])
    }

    function OnInstallSnapshotResponse(m: Message): Step
      requires m.InstallSnapshotResponse?
    {
      if role != Leader then Done(this, [])
      else Done(this.(nextIndex := nextIndex[m.id := m.snapIndex + 1],
                      matchIndex := matchIndex[m.id := m.snapIndex]), [])
    }
  }

  // ----- Everything the event loop can feed a node -----

  datatype Input =
    | Timer(timeout: nat)
    | Proposal(command: Bytes)
    | ReadRequest
    | Delivery(message: Message, timeout: nat, order: seq<nat>)

  function Handle(n: Node, input: Input): Step {
    match input
    case Timer(timeout) => n.Tick(timeout)
    case Proposal(command) => n.Propose(command)
    case ReadRequest => Done(n.RequestReadBarrier().0, [])
    case Delivery(m, timeout, order) => n.Receive(m, timeout, order)
  }

  // ----- Construction -----

  const DEFAULT_HEARTBEAT: nat := 5

  function Others(id: NodeId, nodes: seq<NodeId>): seq<NodeId> {
    if nodes == [] then []
    else (if nodes[0] != id then [nodes[0]] else []) + Others(id, nodes[1..])
  }

  function New(id: NodeId, nodes: seq<NodeId>, heartbeat: Option<nat>, timeout: nat): Node {
    Node(id, Others(id, nodes), Follower, 0, None, [], 0, 0, None, map[], map[], {}, 0, 0,
         0, timeout, heartbeat.GetOr(DEFAULT_HEARTBEAT), 0, 0, map[])
  }

  function Restore(id: NodeId, nodes: seq<NodeId>, heartbeat: Option<nat>, timeout: nat,
                   term: nat, votedFor: Option<NodeId>, log: seq<LogEntry>): Node {
    New(id, nodes, heartbeat, timeout).(currentTerm := term, votedFor := votedFor, log := log)
  }

  function RestoreWithSnapshot(id: NodeId, nodes: seq<NodeId>, heartbeat: Option<nat>, timeout: nat,
                               term: nat, votedFor: Option<NodeId>, log: seq<LogEntry>,
                               snapIndex: nat, snapTerm: nat): Node {
    Restore(id, nodes, heartbeat, timeout, term, votedFor, log)
      .(snapIndex := snapIndex, snapTerm := snapTerm, commitIndex := snapIndex, lastApplied := snapIndex)
  }
}
