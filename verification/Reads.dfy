/** Read barriers stay in step: for every sequence of messages the driver's pending reads are exactly the core's
    barriers, ids are never reused, and a read is released once, after enough further counted successes, or
    dropped at step-down. Barriers count successes, not distinct peers, so only the counting is claimed. */
module Reads {
  import opened RaftTypes
  import opened RaftNode
  import opened OrderStatistics
  import opened Process
  import opened Frames
  import opened Core
  import opened Driver

  predicate IsSuccess(input: Input) {
    input.Delivery? && input.message.AppendEntriesResponse? && input.message.success
  }

  predicate Raises(n: Node, input: Input) {
    input.Delivery? && input.message.term > n.currentTerm
  }

  function Majority(n: Node): nat {
    (|n.peers| + 1) / 2
  }

  // ----- The core's side -----

  lemma {:induction false} ReadyIs(n: Node, order: seq<nat>, k: nat)
    ensures k in n.ReadyBarriers(order)
            <==> k in order && k in n.readBarriers && n.successCount >= n.readBarriers[k] + Majority(n)
  {
    if order != [] {
      ReadyIs(n, order[1..], k);
    }
  }

  lemma ReleasesAre(start: nat, es: seq<LogEntry>, ready: seq<nat>, k: nat)
    ensures ReleasesId(Node.Applies(start, es) + Node.Releases(ready), k) <==> k in ready
  {
    var a, b := Node.Applies(start, es), Node.Releases(ready);
    if k in ready {
      var j :| 0 <= j < |ready| && ready[j] == k;
      assert (a + b)[|a| + j] == ReadBarrierReady(k);
    }
  }

  ghost predicate NoReleases(actions: seq<Action>) {
    forall j :: 0 <= j < |actions| ==> !actions[j].ReadBarrierReady?
  }

  /** A handler that leaves the barriers and the counters alone. */
  ghost predicate BarriersAlone(n: Node, r: Step) {
    && r.Done? && r.node.peers == n.peers && r.node.readBarriers == n.readBarriers
    && r.node.successCount == n.successCount && r.node.nextBarrierId == n.nextBarrierId
    && NoReleases(r.actions) && (n.role == Leader ==> r.node.role == Leader)
  }

  lemma AppendAlone(n: Node, m: Message, timeout: nat)
    requires m.AppendEntries? && n.OnAppendEntries(m, timeout).Done?
    ensures BarriersAlone(n, n.OnAppendEntries(m, timeout))
  {
    AppendFrame(n, m, timeout);
    var f := (if m.term == n.currentTerm && n.role == Candidate then n.(role := Follower) else n);
    if f.Follows(m) {
      FromAlone(f.ResetTimer(timeout).(currentLeader := Some(m.leader)), m);
    }
  }

  lemma FromAlone(n: Node, m: Message)
    requires m.AppendEntries? && n.AppendFrom(m).Done?
    ensures NoReleases(n.AppendFrom(m).actions)
  {
    if n.Matches(m) {
      FinishAlone(n.Merge(m.prevIndex + 1, m.entries).value, m);
    }
  }

  lemma FinishAlone(n: Node, m: Message)
    requires m.AppendEntries? && n.FinishAppend(m).Done?
    ensures NoReleases(n.FinishAppend(m).actions)
  {
  }

  /** What a counted success does: it releases exactly the barriers that have now seen enough. */
  ghost predicate Counted(n: Node, r: Step) {
    && r.Done? && r.node.peers == n.peers && r.node.role == n.role
    && r.node.successCount == n.successCount + 1 && r.node.nextBarrierId == n.nextBarrierId
    && (forall k :: ReleasesId(r.actions, k)
                    <==> k in n.readBarriers && r.node.successCount >= n.readBarriers[k] + Majority(n))
    && (forall k :: k in r.node.readBarriers <==> k in n.readBarriers && !ReleasesId(r.actions, k))
    && (forall k :: k in r.node.readBarriers ==> r.node.readBarriers[k] == n.readBarriers[k])
  }

  lemma SuccessCounted(n: Node, m: Message, order: seq<nat>)
    requires m.AppendEntriesResponse? && m.success && n.OnAppendEntriesResponse(m, order).Done?
    requires Lists(order, n.readBarriers.Keys)
    ensures Counted(n, n.OnAppendEntriesResponse(m, order))
  {
    hide Node.CommitScan, Node.ReplicatedIndex, Node.CommitTo, Node.ReadyBarriers, ReleasesId;
    var n1 := n.NoteReplicated(m);
    var c := n1.CommitScan(n1.commitIndex + 1, n1.ReplicatedIndex(), n1.commitIndex);
    var ready := n1.ReadyBarriers(order);
    CommitReleases(n1, c.value, ready);
    forall k ensures k in ready <==> k in n.readBarriers && n1.successCount >= n.readBarriers[k] + Majority(n) {
      ReadyIs(n1, order, k);
    }
  }

  lemma CommitReleases(n: Node, c: nat, ready: seq<nat>)
    requires n.CommitTo(c, ready).Done?
    ensures var r := n.CommitTo(c, ready);
            && r.node == n.(commitIndex := c, lastApplied := c, readBarriers := r.node.readBarriers)
            && (forall k :: ReleasesId(r.actions, k) <==> k in ready)
            && (forall k :: k in r.node.readBarriers <==> k in n.readBarriers && k !in ready)
            && (forall k :: k in r.node.readBarriers ==> r.node.readBarriers[k] == n.readBarriers[k])
  {
    var es := n.Slice(n.lastApplied + 1, c + 1).value;
    forall k ensures ReleasesId(n.CommitTo(c, ready).actions, k) <==> k in ready {
      ReleasesAre(n.lastApplied + 1, es, ready, k);
    }
  }

  lemma ReactBarriers(n: Node, m: Message, timeout: nat, order: seq<nat>)
    requires m.term <= n.currentTerm && n.React(m, timeout, order).Done?
    requires m.AppendEntriesResponse? && m.success ==> Lists(order, n.readBarriers.Keys)
    ensures var r := n.React(m, timeout, order);
            if m.AppendEntriesResponse? && m.success then Counted(n, r) else BarriersAlone(n, r)
  {
    hide BarriersAlone, Counted;
    match m {
      case RequestVote(_, _, _, _) => VoteAlone(n, m, timeout);
      case RequestVoteResponse(_, _, _) => VoteAlone(n, m, timeout);
      case AppendEntries(_, _, _, _, _, _) => AppendAlone(n, m, timeout);
      case AppendEntriesResponse(_, _, _, success, _, _) =>
        if success {
          SuccessCounted(n, m, order);
        } else {
          RejectedAlone(n, m, order);
        }
      case InstallSnapshot(_, _, _, _, _) => SnapshotAlone(n, m, timeout);
      case InstallSnapshotResponse(_, _, _) => SnapshotAlone(n, m, timeout);
    }
  }

  lemma VoteAlone(n: Node, m: Message, timeout: nat)
    ensures m.RequestVote? ==> BarriersAlone(n, n.OnRequestVote(m, timeout))
    ensures m.RequestVoteResponse? ==> BarriersAlone(n, n.OnRequestVoteResponse(m, timeout))
  {
    hide Node.Grants, SetAll;
  }

  lemma RejectedAlone(n: Node, m: Message, order: seq<nat>)
    requires m.AppendEntriesResponse? && !m.success
    ensures BarriersAlone(n, n.OnAppendEntriesResponse(m, order))
  {
  }

  lemma SnapshotAlone(n: Node, m: Message, timeout: nat)
    ensures m.InstallSnapshot? ==> BarriersAlone(n, n.OnInstallSnapshot(m, timeout))
    ensures m.InstallSnapshotResponse? ==> BarriersAlone(n, n.OnInstallSnapshotResponse(m))
  {
    hide Node.TermAt;
  }

  ghost predicate Keeps(b: map<nat, nat>, actions: seq<Action>, b': map<nat, nat>) {
    && (forall k :: k in b' <==> k in b && !ReleasesId(actions, k))
    && (forall k :: k in b' ==> b'[k] == b[k])
  }

  predicate Opens(n: Node, input: Input) {
    input.ReadRequest? && n.IsLeader()
  }

  /** One call of the core, as far as barriers go. */
  ghost predicate BarrierStep(n: Node, input: Input, n': Node, actions: seq<Action>) {
    && n'.peers == n.peers
    && n'.successCount == n.successCount + (if IsSuccess(input) then 1 else 0)
    && n'.nextBarrierId == n.nextBarrierId + (if Opens(n, input) then 1 else 0)
    && (n.IsLeader() && !Raises(n, input) ==> n'.IsLeader())
    && (Raises(n, input) ==> !n'.IsLeader() && n'.readBarriers == map[])
    && (!Raises(n, input) && !Opens(n, input) ==> Keeps(n.readBarriers, actions, n'.readBarriers))
    && (Opens(n, input) ==> n'.readBarriers == n.readBarriers[n.nextBarrierId + 1 := n.successCount])
    && forall k :: ReleasesId(actions, k)
                   <==> !Raises(n, input) && IsSuccess(input) && k in n.readBarriers
                        && n'.successCount >= n.readBarriers[k] + Majority(n)
  }

  lemma AloneReleases(n: Node, r: Step)
    requires BarriersAlone(n, r)
    ensures forall k :: !ReleasesId(r.actions, k)
    ensures Keeps(n.readBarriers, r.actions, r.node.readBarriers)
  {
  }

  lemma PrefixReleases(n: Node, term: nat, actions: seq<Action>, k: nat)
    ensures ReleasesId(n.AdoptActions(term) + actions, k) <==> ReleasesId(actions, k)
  {
    var a := n.AdoptActions(term);
    assert forall j :: 0 <= j < |actions| ==> (a + actions)[|a| + j] == actions[j];
  }

  /** Handling a message whose term is not higher. */
  lemma SameTermStep(n: Node, m: Message, timeout: nat, order: seq<nat>)
    requires m.term <= n.currentTerm && n.React(m, timeout, order).Done?
    requires m.AppendEntriesResponse? && m.success ==> Lists(order, n.readBarriers.Keys)
    ensures var r := n.React(m, timeout, order); BarrierStep(n, Delivery(m, timeout, order), r.node, r.actions)
  {
    ReactBarriers(n, m, timeout, order);
    hide Node.React, BarrierStep, Counted, BarriersAlone;
    var r := n.React(m, timeout, order);
    if m.AppendEntriesResponse? && m.success {
      CountedStep(n, Delivery(m, timeout, order), r);
    } else {
      AloneStep(n, Delivery(m, timeout, order), r);
    }
  }

  lemma CountedStep(n: Node, input: Input, r: Step)
    requires Counted(n, r) && IsSuccess(input) && !Raises(n, input)
    ensures BarrierStep(n, input, r.node, r.actions)
  {
    hide ReleasesId;
  }

  lemma AloneStep(n: Node, input: Input, r: Step)
    requires BarriersAlone(n, r) && !IsSuccess(input) && !Raises(n, input) && !Opens(n, input)
    ensures BarrierStep(n, input, r.node, r.actions)
  {
    AloneReleases(n, r);
    hide ReleasesId, Keeps;
  }

  lemma PrefixStep(n: Node, input: Input, n': Node, actions: seq<Action>, term: nat)
    requires BarrierStep(n, input, n', actions)
    ensures BarrierStep(n, input, n', n.AdoptActions(term) + actions)
  {
    forall k ensures ReleasesId(n.AdoptActions(term) + actions, k) <==> ReleasesId(actions, k) {
      PrefixReleases(n, term, actions, k);
    }
    hide ReleasesId, Node.AdoptActions;
  }

  /** Handling a message whose term is higher: the barriers are gone before anything else happens. */
  lemma HigherTermStep(n: Node, m: Message, timeout: nat, order: seq<nat>)
    requires m.term > n.currentTerm && n.AdoptTerm(m.term, timeout).React(m, timeout, order).Done?
    requires m.AppendEntriesResponse? && m.success ==> Lists(order, n.AdoptTerm(m.term, timeout).readBarriers.Keys)
    ensures var r := n.AdoptTerm(m.term, timeout).React(m, timeout, order);
            BarrierStep(n, Delivery(m, timeout, order), r.node, r.actions)
  {
    var n1 := n.AdoptTerm(m.term, timeout);
    ReactRole(n1, m, timeout, order);
    SameTermStep(n1, m, timeout, order);
    hide Node.React, ReleasesId;
  }

  lemma CoreStep(n: Node, input: Input)
    requires Handle(n, input).Done? && Listed(n, input)
    ensures BarrierStep(n, input, Handle(n, input).node, Handle(n, input).actions)
  {
    hide Node.React, BarrierStep, Node.AdoptActions;
    match input {
      case Delivery(m, timeout, order) =>
        var n1 := n.AdoptTerm(m.term, timeout);
        var r := n1.React(m, timeout, order);
        if m.term > n.currentTerm {
          HigherTermStep(n, m, timeout, order);
        } else {
          SameTermStep(n, m, timeout, order);
        }
        PrefixStep(n, input, r.node, r.actions, m.term);
      case Timer(timeout) => AloneStep(n, input, n.Tick(timeout));
      case Proposal(command) => AloneStep(n, input, n.Propose(command));
      case ReadRequest => ReadStep(n);
    }
  }

  lemma ReadStep(n: Node)
    ensures BarrierStep(n, ReadRequest, n.RequestReadBarrier().0, [])
  {
  }

  // ----- One turn of the loop -----

  /** Only a leader has barriers, and their ids were all issued. */
  ghost predicate BarriersOk(n: Node) {
    && (!n.IsLeader() ==> n.readBarriers == map[])
    && forall k :: k in n.readBarriers ==> k <= n.nextBarrierId
  }

  ghost predicate ReadsOk(d: Driver) {
    d.pendingReads.Keys == d.core.readBarriers.Keys && BarriersOk(d.core)
  }

  function NewRead(e: LoopEvent): multiset<Token> {
    if e.ReadAsked? then multiset{e.token} else multiset{}
  }

  ghost predicate ReadFiled(d: Driver, e: LoopEvent, d1: Driver) {
    && d.readAnswers <= d1.readAnswers
    && d1.pendingReads == (if Opens(d.core, InputOf(e)) then d.pendingReads[d.core.nextBarrierId + 1 := e.token]
                           else d.pendingReads)
    && (forall j :: |d.readAnswers| <= j < |d1.readAnswers| ==> !d1.readAnswers[j].verdict.Released?)
    && ReadChannels(d1) == ReadChannels(d) + NewRead(e)
  }

  lemma FilesRead(d: Driver, e: LoopEvent, n: Node, actions: seq<Action>)
    requires ReadsOk(d) && e.ReadAsked? && d.core.IsLeader()
    ensures ReadFiled(d, e, Register(d, e, n, actions))
  {
    hide ValuesOf, Tokens;
    assert d.core.nextBarrierId + 1 !in d.pendingReads;
    ValuesWith(d.pendingReads, d.core.nextBarrierId + 1, e.token);
  }

  lemma RefusesRead(d: Driver, e: LoopEvent, n: Node, actions: seq<Action>)
    requires e.ReadAsked? && !d.core.IsLeader()
    ensures ReadFiled(d, e, Register(d, e, n, actions))
  {
    hide ValuesOf, Tokens;
    TokensAnd(d.readAnswers, Answer(e.token, FollowerNode(n.currentLeader)));
  }

  lemma FilesOther(d: Driver, e: LoopEvent, n: Node, actions: seq<Action>)
    requires !e.ReadAsked?
    ensures ReadFiled(d, e, Register(d, e, n, actions))
  {
    hide ValuesOf, Tokens, FirstPersist;
  }

  lemma RegisterRead(d: Driver, e: LoopEvent, n: Node, actions: seq<Action>)
    requires ReadsOk(d)
    ensures ReadFiled(d, e, Register(d, e, n, actions))
  {
    hide ReadFiled, Register, ReadsOk;
    if !e.ReadAsked? {
      FilesOther(d, e, n, actions);
    } else if d.core.IsLeader() {
      FilesRead(d, e, n, actions);
    } else {
      RefusesRead(d, e, n, actions);
    }
  }

  /** A release answers the channel that waited for its barrier, after enough further successes. */
  ghost predicate ReleasedRightly(d: Driver, d': Driver, a: Answer) {
    a.verdict.Released? ==>
      var id := a.verdict.id;
      && id in d.core.readBarriers && id in d.pendingReads && d.pendingReads[id] == a.token
      && d'.core.successCount >= d.core.readBarriers[id] + Majority(d.core)
  }

  /** What one turn does for barriers and read channels. */
  ghost predicate ReadTurn(d: Driver, e: LoopEvent, d': Driver) {
    && ReadChannels(d') == ReadChannels(d) + NewRead(e)
    && BarrierTurn(d.core, e, d'.core)
    && (forall k :: k in d'.pendingReads && k in d.pendingReads && k <= d.core.nextBarrierId ==>
                      d'.pendingReads[k] == d.pendingReads[k])
    && (Opens(d.core, InputOf(e)) ==> d.core.nextBarrierId + 1 in d'.pendingReads
                                      && d'.pendingReads[d.core.nextBarrierId + 1] == e.token)
    && d.readAnswers <= d'.readAnswers
    && forall j :: |d.readAnswers| <= j < |d'.readAnswers| ==> ReleasedRightly(d, d', d'.readAnswers[j])
  }

  /** A barrier outlives a turn exactly when the node still leads and no success has made it ready. */
  ghost predicate BarrierTurn(n: Node, e: LoopEvent, n': Node) {
    && n'.peers == n.peers
    && n'.successCount == n.successCount + (if IsSuccess(InputOf(e)) then 1 else 0)
    && n'.nextBarrierId == n.nextBarrierId + (if Opens(n, InputOf(e)) then 1 else 0)
    && (forall k :: k in n.readBarriers ==>
          (k in n'.readBarriers
           <==> n'.IsLeader() && !(IsSuccess(InputOf(e)) && n'.successCount >= n.readBarriers[k] + Majority(n))))
    && (forall k :: k in n'.readBarriers && k in n.readBarriers ==> n'.readBarriers[k] == n.readBarriers[k])
    && (forall k :: k in n'.readBarriers && k !in n.readBarriers ==>
          Opens(n, InputOf(e)) && k == n.nextBarrierId + 1 && n'.readBarriers[k] == n.successCount)
  }

  lemma StepTurn(n: Node, e: LoopEvent, actions: seq<Action>, n': Node)
    requires BarriersOk(n) && BarrierStep(n, InputOf(e), n', actions)
    ensures BarrierTurn(n, e, n') && BarriersOk(n')
  {
    hide ReleasesId;
  }

  lemma CoreTurn(n: Node, e: LoopEvent, actions: seq<Action>, n1: Node, n': Node)
    requires BarriersOk(n) && BarrierStep(n, InputOf(e), n1, actions) && Shortened(n1, n')
    ensures BarrierTurn(n, e, n') && BarriersOk(n')
    ensures n'.IsLeader() == n1.IsLeader() && n'.readBarriers == n1.readBarriers
  {
    StepTurn(n, e, actions, n1);
    hide Shortened, BarrierStep;
    ShortenedBarriers(n1, n');
  }

  lemma ShortenedBarriers(n: Node, n': Node)
    requires Shortened(n, n')
    ensures n'.peers == n.peers && n'.role == n.role && n'.successCount == n.successCount
    ensures n'.nextBarrierId == n.nextBarrierId && n'.readBarriers == n.readBarriers
  {
  }

  /** The actions leave pending exactly the channels of the barriers that are left. */
  lemma KeysMatch(d: Driver, e: LoopEvent, n: Node, actions: seq<Action>, d1: Driver, p: map<nat, Token>,
                  answers: seq<Answer>)
    requires ReadsOk(d) && BarrierStep(d.core, InputOf(e), n, actions) && ReadFiled(d, e, d1)
    requires ReadsRan(d1.pendingReads, d1.readAnswers, actions, p, answers)
    ensures !Raises(d.core, InputOf(e)) ==> p.Keys == n.readBarriers.Keys
    ensures !d.core.IsLeader() ==> p == map[]
    ensures forall k :: k in p && k in d.pendingReads && k <= d.core.nextBarrierId ==> p[k] == d.pendingReads[k]
    ensures var id := d.core.nextBarrierId + 1; Opens(d.core, InputOf(e)) ==> id in p && p[id] == e.token
  {
    hide ReleasesId, AnswersRelease, ValuesOf, Tokens, ReadChannels, NewRead, Majority;
    var b := d.core.readBarriers;
    forall k ensures !Raises(d.core, InputOf(e)) ==> (k in p <==> k in n.readBarriers) {
      assert k in d.pendingReads <==> k in b;
    }
    if !d.core.IsLeader() {
      forall k ensures k !in p {
        assert k !in d.pendingReads.Keys;
      }
    }
  }

  lemma NewReleases(d: Driver, e: LoopEvent, n: Node, actions: seq<Action>, d1: Driver, p: map<nat, Token>,
                    answers: seq<Answer>, d': Driver)
    requires ReadsOk(d) && BarrierStep(d.core, InputOf(e), n, actions) && ReadFiled(d, e, d1)
    requires ReadsRan(d1.pendingReads, d1.readAnswers, actions, p, answers) && d'.core.successCount == n.successCount
    ensures d.readAnswers <= answers
    ensures forall j :: |d.readAnswers| <= j < |answers| ==> ReleasedRightly(d, d', answers[j])
  {
    hide ReadChannels, ValuesOf, Tokens, Keeps;
    forall j | |d.readAnswers| <= j < |answers| ensures ReleasedRightly(d, d', answers[j]) {
      if j < |d1.readAnswers| {
        assert answers[j] == d1.readAnswers[j];
      } else {
        assert AnswersRelease(d1.pendingReads, actions, answers[j]);
        var id := answers[j].verdict.id;
        var x :| 0 <= x < |actions| && actions[x] == ReadBarrierReady(id);
        assert ReleasesId(actions, id);
        assert id in d.core.readBarriers.Keys;
      }
    }
  }

  /** The state before a possible drain. */
  lemma AfterReads(d: Driver, e: LoopEvent, n: Node, actions: seq<Action>, d2: Driver)
    requires ReadsOk(d) && BarrierStep(d.core, InputOf(e), n, actions) && Ran(Register(d, e, n, actions), actions, d2)
    requires Register(d, e, n, actions).core == n
    ensures ReadTurn(d, e, d2) && BarriersOk(d2.core) && d2.core.IsLeader() == n.IsLeader()
    ensures !Raises(d.core, InputOf(e)) || !d.core.IsLeader() ==> ReadsOk(d2)
    ensures Raises(d.core, InputOf(e)) ==> !d2.core.IsLeader() && d2.core.readBarriers == map[]
  {
    var d1 := Register(d, e, n, actions);
    hide Register, BarrierTurn, BarrierStep, ReadFiled, ReadsRan, ProposalsRan, Shortened, ReleasedRightly;
    hide Opens, BarriersOk, ReadChannels, Raises;
    RegisterRead(d, e, n, actions);
    LeaderLost(d, e, n, actions);
    CoreTurn(d.core, e, actions, n, d2.core);
    KeysMatch(d, e, n, actions, d1, d2.pendingReads, d2.readAnswers);
    NewReleases(d, e, n, actions, d1, d2.pendingReads, d2.readAnswers, d2) by { ShortenedBarriers(n, d2.core); }
    ChannelsKept(d, e, d1, actions, d2);
  }

  lemma ChannelsKept(d: Driver, e: LoopEvent, d1: Driver, actions: seq<Action>, d2: Driver)
    requires ReadFiled(d, e, d1) && ReadsRan(d1.pendingReads, d1.readAnswers, actions, d2.pendingReads, d2.readAnswers)
    ensures ReadChannels(d2) == ReadChannels(d1) == ReadChannels(d) + NewRead(e)
  {
    hide ReleasesId, AnswersRelease, ValuesOf, Tokens;
  }

  lemma DrainedTurn(d: Driver, e: LoopEvent, d2: Driver)
    requires ReadTurn(d, e, d2) && !d2.core.IsLeader() && BarriersOk(d2.core) && !Opens(d.core, InputOf(e))
    ensures ReadTurn(d, e, Drain(d2)) && ReadsOk(Drain(d2))
  {
    DrainConserves(d2);
    hide BarrierTurn, ReadChannels, ValuesOf;
    var d' := Drain(d2);
    forall j | |d.readAnswers| <= j < |d'.readAnswers| ensures ReleasedRightly(d, d', d'.readAnswers[j]) {
      if j < |d2.readAnswers| {
        assert d'.readAnswers[j] == d2.readAnswers[j];
      }
    }
  }

  /** One turn keeps driver and core in step, whatever the input. */
  lemma TurnReads(s: Setup, d: Driver, e: LoopEvent)
    requires ReadsOk(d) && Listed(d.core, InputOf(e)) && LoopStep(s, d, e).Some?
    ensures ReadsOk(LoopStep(s, d, e).value) && ReadTurn(d, e, LoopStep(s, d, e).value)
  {
    var r := Handle(d.core, InputOf(e));
    var d1 := Register(d, e, r.node, r.actions);
    var d2 := RunActions(s, d1, r.actions).value;
    hide Ran, Handle, RunActions, Listed, BarrierStep, ReadTurn, BarriersOk, BarrierTurn, ReadsOk;
    RunActionsRan(s, d1, r.actions);
    CoreStep(d.core, InputOf(e));
    AfterReads(d, e, r.node, r.actions, d2) by { RegisteredCore(d, e, r.node, r.actions); }
    LeaderLost(d, e, r.node, r.actions);
    if e.Received? && d.core.IsLeader() && !d2.core.IsLeader() {
      DrainedTurn(d, e, d2);
    }
  }

  lemma RegisteredCore(d: Driver, e: LoopEvent, n: Node, actions: seq<Action>)
    ensures Register(d, e, n, actions).core == n
  {
  }

  /** Leadership is lost only to a message of a higher term. */
  lemma LeaderLost(d: Driver, e: LoopEvent, n: Node, actions: seq<Action>)
    requires BarrierStep(d.core, InputOf(e), n, actions)
    ensures d.core.IsLeader() ==> (n.IsLeader() <==> !Raises(d.core, InputOf(e)))
    ensures Raises(d.core, InputOf(e)) ==> e.Received? && !n.IsLeader() && n.readBarriers == map[]
  {
    hide Keeps, ReleasesId;
  }

  // ----- Every run -----

  ghost predicate ListedRun(states: seq<Driver>, events: seq<LoopEvent>)
    requires |states| == |events| + 1
  {
    forall k :: 0 <= k < |events| ==> Listed(states[k].core, InputOf(events[k]))
  }

  /** The counted successes among the events. */
  function Successes(events: seq<LoopEvent>): nat {
    if events == [] then 0
    else Successes(events[..|events| - 1]) + (if IsSuccess(InputOf(events[|events| - 1])) then 1 else 0)
  }

  lemma ReadsStart(s: Setup, states: seq<Driver>, events: seq<LoopEvent>)
    requires DriverRun(s, states, events)
    ensures |states| == |events| + 1
    ensures ReadsOk(states[0]) && ReadChannels(states[0]) == Tally(events[..0], NewRead)
  {
    hide LoopStep;
    assert ValuesOf(states[0].pendingReads) == [];
    assert Tokens(states[0].readAnswers) == [];
  }

  lemma ReadsRunStep(s: Setup, states: seq<Driver>, events: seq<LoopEvent>, k: nat)
    requires DriverRun(s, states, events) && ListedRun(states, events) && k < |events|
    ensures |states| == |events| + 1 && Listed(states[k].core, InputOf(events[k]))
    ensures LoopStep(s, states[k], events[k]) == Some(states[k + 1])
  {
    hide Listed, LoopStep, Started;
  }

  lemma TurnChannels(d: Driver, e: LoopEvent, d': Driver)
    requires ReadTurn(d, e, d')
    ensures ReadChannels(d') == ReadChannels(d) + NewRead(e) && BarrierTurn(d.core, e, d'.core)
  {
    hide ReadChannels, NewRead, BarrierTurn, Opens, ReleasedRightly;
  }

  lemma {:induction false} ReadsUpTo(s: Setup, states: seq<Driver>, events: seq<LoopEvent>, k: nat)
    requires DriverRun(s, states, events) && ListedRun(states, events) && k <= |events|
    ensures |states| == |events| + 1
    ensures ReadsOk(states[k]) && ReadChannels(states[k]) == Tally(events[..k], NewRead)
  {
    hide *;
    if k == 0 {
      ReadsStart(s, states, events);
    } else {
      ReadsUpTo(s, states, events, k - 1);
      ReadsRunStep(s, states, events, k - 1);
      TurnReads(s, states[k - 1], events[k - 1]);
      TurnChannels(states[k - 1], events[k - 1], states[k]);
      TallyMore(events, NewRead, k - 1);
    }
  }

  lemma TurnAt(s: Setup, states: seq<Driver>, events: seq<LoopEvent>, k: nat)
    requires DriverRun(s, states, events) && ListedRun(states, events) && k < |events|
    ensures |states| == |events| + 1
    ensures ReadTurn(states[k], events[k], states[k + 1]) && BarrierTurn(states[k].core, events[k], states[k + 1].core)
  {
    hide *;
    ReadsUpTo(s, states, events, k);
    ReadsRunStep(s, states, events, k);
    TurnReads(s, states[k], events[k]);
    TurnChannels(states[k], events[k], states[k + 1]);
  }

  /** Read barriers stay in step. At every turn of every run the driver's pending read ids are the core's barrier
      ids, both empty unless the node leads, and the channels of the reads asked so far are exactly those pending
      together with those answered. */
  lemma ReadsInStep(s: Setup, states: seq<Driver>, events: seq<LoopEvent>, k: nat)
    requires DriverRun(s, states, events) && ListedRun(states, events) && k <= |events|
    ensures states[k].pendingReads.Keys == states[k].core.readBarriers.Keys
    ensures !states[k].core.IsLeader() ==> states[k].pendingReads == map[] && states[k].core.readBarriers == map[]
    ensures multiset(ValuesOf(states[k].pendingReads)) + multiset(Tokens(states[k].readAnswers))
            == Tally(events[..k], NewRead)
  {
    ReadsUpTo(s, states, events, k);
    hide DriverRun, ListedRun, Tally, ValuesOf, Tokens;
    if !states[k].core.IsLeader() {
      assert states[k].pendingReads.Keys == {};
    }
  }

  lemma NoSuccesses(events: seq<LoopEvent>, j: nat)
    requires j <= |events|
    ensures Successes(events[j..j]) == 0
  {
  }

  lemma SuccessesMore(events: seq<LoopEvent>, j: nat, k: nat)
    requires j <= k < |events|
    ensures Successes(events[j..k + 1]) == Successes(events[j..k]) + if IsSuccess(InputOf(events[k])) then 1 else 0
  {
    hide IsSuccess;
    SliceTake(events, j, k - j, k + 1);
  }

  /** Counters only grow, the success count by one per counted success. */
  lemma {:induction false} CountersGrow(s: Setup, states: seq<Driver>, events: seq<LoopEvent>, j: nat, k: nat)
    requires DriverRun(s, states, events) && ListedRun(states, events) && j <= k <= |events|
    ensures |states| == |events| + 1
    ensures states[j].core.nextBarrierId <= states[k].core.nextBarrierId
    ensures states[k].core.peers == states[j].core.peers
    ensures states[k].core.successCount == states[j].core.successCount + Successes(events[j..k])
    decreases k
  {
    hide DriverRun, ListedRun, ReadTurn, Successes, IsSuccess, Opens;
    if j == k {
      NoSuccesses(events, j);
      ReadsUpTo(s, states, events, k);
    } else {
      CountersGrow(s, states, events, j, k - 1);
      TurnAt(s, states, events, k - 1);
      SuccessesMore(events, j, k - 1);
    }
  }

  /** Ids are never reused: of two reads accepted in a run, the later gets the greater id. */
  lemma IdsFresh(s: Setup, states: seq<Driver>, events: seq<LoopEvent>, j: nat, k: nat)
    requires DriverRun(s, states, events) && ListedRun(states, events) && j < k < |events|
    requires Opens(states[j].core, InputOf(events[j])) && Opens(states[k].core, InputOf(events[k]))
    ensures states[j].core.RequestReadBarrier().1.value < states[k].core.RequestReadBarrier().1.value
  {
    hide DriverRun, ListedRun, ReadTurn;
    TurnAt(s, states, events, j);
    CountersGrow(s, states, events, j + 1, k);
  }

  /** Turn j opened barrier id for the read on this channel, when so many successes had been counted. */
  ghost predicate Opened(states: seq<Driver>, events: seq<LoopEvent>, j: nat, id: nat, token: Token, count: nat) {
    && j < |events| && j < |states| && events[j] == ReadAsked(token)
    && states[j].core.RequestReadBarrier().1 == Some(id) && states[j].core.successCount == count
  }

  /** Every barrier goes back to the turn that opened it. */
  lemma {:induction false} Origin(s: Setup, states: seq<Driver>, events: seq<LoopEvent>, k: nat, id: nat)
    returns (j: nat)
    requires DriverRun(s, states, events) && ListedRun(states, events) && k <= |events|
    requires id in states[k].core.readBarriers && id in states[k].pendingReads
    ensures j < k && Opened(states, events, j, id, states[k].pendingReads[id], states[k].core.readBarriers[id])
  {
    hide *;
    ReadsUpTo(s, states, events, k);
    OriginNotFirst(s, states, events, k, id);
    ReadsUpTo(s, states, events, k - 1);
    TurnAt(s, states, events, k - 1);
    j := OriginStep(states[k - 1], events[k - 1], states[k], states, events, k, id);
    if j == k {
      j := Origin(s, states, events, k - 1, id);
    }
  }

  lemma OriginNotFirst(s: Setup, states: seq<Driver>, events: seq<LoopEvent>, k: nat, id: nat)
    requires DriverRun(s, states, events) && k < |states| && id in states[k].pendingReads
    ensures k > 0
  {
    hide LoopStep;
  }

  lemma OriginStep(d: Driver, e: LoopEvent, d': Driver, states: seq<Driver>, events: seq<LoopEvent>, k: nat, id: nat)
    returns (j: nat)
    requires 0 < k <= |events| && |states| == |events| + 1 && d == states[k - 1] && e == events[k - 1]
             && d' == states[k]
    requires ReadsOk(d) && ReadTurn(d, e, d') && BarrierTurn(d.core, e, d'.core)
    requires id in d'.core.readBarriers && id in d'.pendingReads
    ensures j == k - 1 || j == k
    ensures j == k - 1 ==> Opened(states, events, j, id, d'.pendingReads[id], d'.core.readBarriers[id])
    ensures j == k ==> && id in d.core.readBarriers && id in d.pendingReads
                       && d.pendingReads[id] == d'.pendingReads[id]
                       && d.core.readBarriers[id] == d'.core.readBarriers[id]
  {
    hide ReadChannels, ReleasedRightly;
    j := k - 1;
    if id in d.core.readBarriers {
      j := k;
      assert id in d.pendingReads.Keys;
    }
  }

  /** A read is released only after a majority of further counted successes: whenever a turn answers a read with a
      release, an earlier turn opened that barrier for that very channel, and the events since then contain at
      least half the peers, rounded up, of counted successes. */
  lemma ReleaseNeedsSuccesses(s: Setup, states: seq<Driver>, events: seq<LoopEvent>, k: nat, i: nat) returns (j: nat)
    requires DriverRun(s, states, events) && ListedRun(states, events) && k < |events|
    requires |states[k].readAnswers| <= i < |states[k + 1].readAnswers|
    requires states[k + 1].readAnswers[i].verdict.Released?
    ensures j < k
    ensures events[j] == ReadAsked(states[k + 1].readAnswers[i].token)
    ensures states[j].core.RequestReadBarrier().1 == Some(states[k + 1].readAnswers[i].verdict.id)
    ensures Successes(events[j..k + 1]) >= Majority(states[k].core)
  {
    var a := states[k + 1].readAnswers[i];
    ReleasedAt(s, states, events, k, i);
    j := Origin(s, states, events, k, a.verdict.id);
    hide DriverRun, ListedRun;
    CountersGrow(s, states, events, j, k + 1);
  }

  lemma ReleasedAt(s: Setup, states: seq<Driver>, events: seq<LoopEvent>, k: nat, i: nat)
    requires DriverRun(s, states, events) && ListedRun(states, events) && k < |events|
    requires |states[k].readAnswers| <= i < |states[k + 1].readAnswers|
    ensures ReleasedRightly(states[k], states[k + 1], states[k + 1].readAnswers[i])
  {
    TurnAt(s, states, events, k);
    hide DriverRun, ListedRun, ReleasedRightly, BarrierTurn;
  }

  /** A barrier lives on exactly until the node stops leading or enough successes are counted. */
  lemma LivesUntilReady(s: Setup, states: seq<Driver>, events: seq<LoopEvent>, k: nat, id: nat)
    requires DriverRun(s, states, events) && ListedRun(states, events) && k < |events|
    requires id in states[k].pendingReads
    ensures id in states[k].core.readBarriers
    ensures var count := states[k].core.readBarriers[id];
            id in states[k + 1].pendingReads
            <==> && states[k + 1].core.IsLeader()
                 && !(IsSuccess(InputOf(events[k]))
                      && states[k + 1].core.successCount >= count + Majority(states[k].core))
  {
    ReadsUpTo(s, states, events, k);
    ReadsUpTo(s, states, events, k + 1);
    TurnAt(s, states, events, k);
    hide DriverRun, ListedRun, ReadTurn;
    assert id in states[k].pendingReads.Keys;
    assert id in states[k + 1].pendingReads <==> id in states[k + 1].core.readBarriers.Keys;
  }
}
