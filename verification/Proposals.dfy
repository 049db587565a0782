/** Proposal replies are conserved: over every run of the driver each proposal is pending or answered exactly
    once, and an Ok sent by a node that is still leader is for the very command proposed. */
module Proposals {
  import opened RaftTypes
  import opened RaftNode
  import opened OrderStatistics
  import opened Process
  import opened Applied
  import opened Driver

  /** A leader's log is not replaced by a snapshot of its own term. */
  ghost predicate NoReplacement(n: Node, input: Input) {
    n.role == Leader && input.Delivery? && input.message.InstallSnapshot? ==> input.message.term != n.currentTerm
  }

  /** A channel belongs to one proposal: `commands` says which command was proposed on it. */
  ghost predicate Allowed(d: Driver, e: LoopEvent, commands: Token -> Bytes) {
    && Orderly(d.core, InputOf(e)) && NoReplacement(d.core, InputOf(e))
    && (e.Proposed? ==> e.command == commands(e.token))
  }

  /** Every pending index lies above what is applied and holds, in the current term, the command proposed. */
  ghost predicate Awaited(n: Node, pending: map<nat, Token>, commands: Token -> Bytes) {
    forall i :: i in pending ==>
      n.lastApplied < i <= n.LastLogIndex()
      && n.EntryAt(i) == Some(LogEntry(n.currentTerm, commands(pending[i])))
  }

  ghost predicate ProposalsOk(d: Driver, commands: Token -> Bytes) {
    && IndicesOk(d.core)
    && (!d.core.IsLeader() ==> d.pendingProposals == map[])
    && Awaited(d.core, d.pendingProposals, commands)
  }

  // ----- The core's side -----

  ghost predicate Extends(n: Node, n': Node) {
    n'.currentTerm == n.currentTerm && n'.snapIndex == n.snapIndex && n.log <= n'.log
  }

  ghost predicate NoLoads(actions: seq<Action>) {
    forall k :: 0 <= k < |actions| ==> !actions[k].LoadSnapshot?
  }

  lemma LeaderReacts(n: Node, m: Message, timeout: nat, order: seq<nat>)
    requires n.role == Leader && n.React(m, timeout, order).Done?
    requires m.InstallSnapshot? ==> m.term != n.currentTerm
    requires m.term <= n.currentTerm
    ensures var r := n.React(m, timeout, order);
            r.node.role == Leader && Extends(n, r.node) && NoLoads(r.actions)
  {
    hide Node.TermAt, Node.Grants, Node.CommitScan, Node.ReplicatedIndex, Node.ReadyBarriers;
    hide Node.AppendFrom, Node.Slice;
  }

  /** A leader that handles an input is still leader, of the same term, with a log that only grew, unless the
      message carries a higher term. */
  lemma LeaderStays(n: Node, input: Input)
    requires n.role == Leader && NoReplacement(n, input) && Handle(n, input).Done?
    ensures var r := Handle(n, input);
            if input.Delivery? && input.message.term > n.currentTerm then r.node.role != Leader
            else r.node.role == Leader && Extends(n, r.node) && NoLoads(r.actions)
  {
    match input {
      case Delivery(m, timeout, order) =>
        if m.term > n.currentTerm {
          ReactRole(n.AdoptTerm(m.term, timeout), m, timeout, order);
        } else {
          LeaderReacts(n, m, timeout, order);
        }
      case _ =>
    }
  }

  /** Without snapshots, applying in order covers exactly the indices passed over. */
  lemma {:induction false} FollowCovers(applied: nat, actions: seq<Action>, i: nat)
    requires NoLoads(actions) && Follow(applied, actions).Some?
    ensures applied <= Follow(applied, actions).value
    ensures AppliesIndex(actions, i) <==> applied < i <= Follow(applied, actions).value
    decreases |actions|
  {
    if actions != [] {
      var a, rest := actions[0], actions[1..];
      assert [a] + rest == actions;
      AppliesSplit(a, rest, i);
      assert [a][0] == a;
      FollowCovers(if a.ApplyToStateMachine? then a.index else applied, rest, i);
    }
  }

  lemma ProposeFiles(n: Node, command: Bytes)
    requires n.role == Leader
    ensures FirstPersist(n.Propose(command).actions) == Some(n.LastLogIndex() + 1)
  {
  }

  // ----- One turn of the loop -----

  /** Filing a new proposal takes an index nobody waits for. */
  lemma Files(d: Driver, e: LoopEvent, commands: Token -> Bytes)
    requires ProposalsOk(d, commands) && Allowed(d, e, commands) && d.core.IsLeader() && e.Proposed?
    ensures var n := d.core.Propose(e.command).node;
            && d.core.LastLogIndex() + 1 !in d.pendingProposals
            && Awaited(n, d.pendingProposals[d.core.LastLogIndex() + 1 := e.token], commands)
  {
  }

  lemma AwaitedKept(n: Node, n': Node, pending: map<nat, Token>, pending': map<nat, Token>, actions: seq<Action>,
                    commands: Token -> Bytes)
    requires IndicesOk(n) && Awaited(n, pending, commands) && Extends(n, n')
    requires forall i :: i in pending' ==> i in pending && pending'[i] == pending[i] && !AppliesIndex(actions, i)
    requires NoLoads(actions) && Follow(n.lastApplied, actions) == Some(n'.lastApplied)
    ensures Awaited(n', pending', commands)
  {
    forall i | i in pending'
      ensures n'.lastApplied < i <= n'.LastLogIndex()
              && n'.EntryAt(i) == Some(LogEntry(n'.currentTerm, commands(pending'[i])))
    {
      FollowCovers(n.lastApplied, actions, i);
    }
  }

  lemma AwaitedShortened(n: Node, n': Node, pending: map<nat, Token>, commands: Token -> Bytes)
    requires Awaited(n, pending, commands) && Shortened(n, n')
    ensures Awaited(n', pending, commands)
  {
    forall i | i in pending
      ensures n'.lastApplied < i <= n'.LastLogIndex()
              && n'.EntryAt(i) == Some(LogEntry(n'.currentTerm, commands(pending[i])))
    {
      ShortenedEntry(n, n', i);
    }
  }

  /** Every pending index holds the command proposed on its channel. */
  ghost predicate Held(n: Node, pending: map<nat, Token>, commands: Token -> Bytes) {
    forall i :: i in pending ==> n.EntryAt(i) == Some(LogEntry(n.currentTerm, commands(pending[i])))
  }

  /** The core's step of a leader that stays leader, with the channels as filed before the actions run. */
  lemma LeaderTurn(d: Driver, e: LoopEvent, n: Node, actions: seq<Action>, pending': map<nat, Token>,
                   commands: Token -> Bytes)
    requires ProposalsOk(d, commands) && Allowed(d, e, commands) && d.core.IsLeader()
    requires Handle(d.core, InputOf(e)) == Done(n, actions) && n.role == Leader
    requires var filed := Register(d, e, n, actions).pendingProposals;
             forall i :: i in pending' ==> i in filed && pending'[i] == filed[i] && !AppliesIndex(actions, i)
    ensures Held(n, Register(d, e, n, actions).pendingProposals, commands)
    ensures Awaited(n, pending', commands)
  {
    HandleInOrder(d.core, InputOf(e));
    LeaderStays(d.core, InputOf(e));
    if e.Proposed? {
      ProposeFiles(d.core, e.command);
      Files(d, e, commands);
      var filed := Register(d, e, n, actions).pendingProposals;
      AwaitedKept(n, n, filed, pending', actions, commands);
    } else {
      AwaitedKept(d.core, n, d.pendingProposals, pending', actions, commands);
      HeldKept(d.core, n, d.pendingProposals, commands);
    }
  }

  lemma HeldKept(n: Node, n': Node, pending: map<nat, Token>, commands: Token -> Bytes)
    requires Awaited(n, pending, commands) && Extends(n, n')
    ensures Held(n', pending, commands)
  {
  }

  /** Whatever answer a running action sends to a held channel is for the command held. */
  lemma HeldAnswers(n: Node, actions: seq<Action>, pending: map<nat, Token>, a: Answer, commands: Token -> Bytes)
    requires Held(n, pending, commands) && FromLog(n, actions) && AnswersApplication(pending, actions, a)
    ensures a.verdict.command == commands(a.token)
  {
    var k :| 0 <= k < |actions| && actions[k] == ApplyToStateMachine(a.verdict.index, a.verdict.command);
    assert actions[k].ApplyToStateMachine?;
  }

  lemma ShortenedIndices(n: Node, n': Node)
    requires IndicesOk(n) && Shortened(n, n')
    ensures IndicesOk(n') && n'.role == n.role
  {
  }

  function NewToken(e: LoopEvent): multiset<Token> {
    if e.Proposed? then multiset{e.token} else multiset{}
  }

  lemma Filing(d: Driver, e: LoopEvent, n: Node, actions: seq<Action>, index: nat)
    requires e.Proposed? && d.core.IsLeader() && FirstPersist(actions) == Some(index) && index !in d.pendingProposals
    ensures Channels(Register(d, e, n, actions)) == Channels(d) + NewToken(e)
  {
    hide ValuesOf, Tokens, FirstPersist;
    ValuesWith(d.pendingProposals, index, e.token);
  }

  lemma Refusing(d: Driver, e: LoopEvent, n: Node, actions: seq<Action>)
    requires e.Proposed? && !d.core.IsLeader()
    ensures Channels(Register(d, e, n, actions)) == Channels(d) + NewToken(e)
  {
    hide ValuesOf, Tokens;
    TokensAnd(d.answers, Answer(e.token, FollowerNode(n.currentLeader)));
  }

  lemma OtherEvents(d: Driver, e: LoopEvent, n: Node, actions: seq<Action>)
    requires !e.Proposed?
    ensures Channels(Register(d, e, n, actions)) == Channels(d) + NewToken(e)
  {
    hide ValuesOf, Tokens;
  }

  lemma RegisterConserves(d: Driver, e: LoopEvent, n: Node, actions: seq<Action>, commands: Token -> Bytes)
    requires ProposalsOk(d, commands) && Allowed(d, e, commands)
    requires Handle(d.core, InputOf(e)) == Done(n, actions)
    ensures Channels(Register(d, e, n, actions)) == Channels(d) + NewToken(e)
  {
    hide Register, Channels, NewToken, FirstPersist, Orderly, Awaited, ProposalsOk;
    if !e.Proposed? {
      OtherEvents(d, e, n, actions);
    } else if !d.core.IsLeader() {
      Refusing(d, e, n, actions);
    } else {
      ProposeFiles(d.core, e.command);
      Files(d, e, commands);
      Filing(d, e, n, actions, d.core.LastLogIndex() + 1);
    }
  }

  /** What one turn does for the answers sent in it. */
  ghost predicate TurnAnswers(d: Driver, d': Driver, commands: Token -> Bytes) {
    && d.answers <= d'.answers
    && (d'.core.IsLeader() ==>
          forall j :: |d.answers| <= j < |d'.answers| && d'.answers[j].verdict.Applied? ==>
            d'.answers[j].verdict.command == commands(d'.answers[j].token))
  }

  lemma Registered(d: Driver, e: LoopEvent, n: Node, actions: seq<Action>)
    ensures var d1 := Register(d, e, n, actions);
            && d1.core == n && d.answers <= d1.answers
            && (d.core.IsLeader() ==> d1.answers == d.answers)
            && (!d.core.IsLeader() ==> d1.pendingProposals == d.pendingProposals)
            && (forall j :: |d.answers| <= j < |d1.answers| ==> !d1.answers[j].verdict.Applied?)
  {
  }

  /** The answers of a leader's turn. */
  lemma LeaderAnswers(d: Driver, e: LoopEvent, n: Node, actions: seq<Action>, d2: Driver, commands: Token -> Bytes)
    requires d.core.IsLeader() && FromLog(n, actions)
    requires Held(n, Register(d, e, n, actions).pendingProposals, commands)
             && Ran(Register(d, e, n, actions), actions, d2)
    ensures TurnAnswers(d, d2, commands)
  {
    hide Register, FromLog, Held, AnswersApplication, Shortened;
    var d1 := Register(d, e, n, actions);
    Registered(d, e, n, actions);
    forall j | |d.answers| <= j < |d2.answers| && d2.answers[j].verdict.Applied?
      ensures d2.answers[j].verdict.command == commands(d2.answers[j].token)
    {
      HeldAnswers(n, actions, d1.pendingProposals, d2.answers[j], commands);
    }
  }

  lemma AfterLeader(d: Driver, e: LoopEvent, n: Node, actions: seq<Action>, d2: Driver, commands: Token -> Bytes)
    requires ProposalsOk(d, commands) && Allowed(d, e, commands) && d.core.IsLeader() && n.role == Leader
    requires Handle(d.core, InputOf(e)) == Done(n, actions) && Ran(Register(d, e, n, actions), actions, d2)
    ensures Awaited(d2.core, d2.pendingProposals, commands) && TurnAnswers(d, d2, commands)
  {
    hide Register, FromLog, Held, AnswersApplication, Shortened, Allowed, Handle, Awaited, Follow, Orderly;
    HandleInOrder(d.core, InputOf(e)) by { AllowedOrderly(d, e, commands); }
    Registered(d, e, n, actions);
    LeaderTurn(d, e, n, actions, d2.pendingProposals, commands);
    LeaderAnswers(d, e, n, actions, d2, commands);
    AwaitedShortened(n, d2.core, d2.pendingProposals, commands);
  }

  lemma AllowedOrderly(d: Driver, e: LoopEvent, commands: Token -> Bytes)
    requires ProposalsOk(d, commands) && Allowed(d, e, commands)
    ensures IndicesOk(d.core) && Orderly(d.core, InputOf(e))
  {
  }

  /** Nobody waits at a node that does not lead, and so no application is answered. */
  lemma AfterOther(d: Driver, e: LoopEvent, n: Node, actions: seq<Action>, d2: Driver, commands: Token -> Bytes)
    requires d.core.IsLeader() || d.pendingProposals == map[]
    requires Ran(Register(d, e, n, actions), actions, d2)
    ensures d.answers <= d2.answers
    ensures !d.core.IsLeader() ==> d2.pendingProposals == map[] && TurnAnswers(d, d2, commands)
  {
    hide Register, Shortened, AppliesIndex;
    Registered(d, e, n, actions);
  }

  lemma AfterRun(d: Driver, e: LoopEvent, n: Node, actions: seq<Action>, d2: Driver, commands: Token -> Bytes)
    requires ProposalsOk(d, commands) && Allowed(d, e, commands)
    requires Handle(d.core, InputOf(e)) == Done(n, actions) && Ran(Register(d, e, n, actions), actions, d2)
    ensures IndicesOk(d2.core) && d2.core.role == n.role
    ensures d2.core.IsLeader() || !d.core.IsLeader() ==> ProposalsOk(d2, commands)
    ensures TurnAnswers(d, d2, commands)
  {
    hide Register, FromLog, Held, ProposalsRan, ReadsRan, Shortened, Allowed, Handle, Awaited, Follow, Orderly;
    HandleInOrder(d.core, InputOf(e)) by { AllowedOrderly(d, e, commands); }
    Registered(d, e, n, actions);
    ShortenedIndices(n, d2.core);
    AfterOther(d, e, n, actions, d2, commands);
    if d.core.IsLeader() && n.role == Leader {
      AfterLeader(d, e, n, actions, d2, commands);
    } else {
      NobodyWaits(d2, commands);
    }
  }

  lemma NobodyWaits(d: Driver, commands: Token -> Bytes)
    ensures d.pendingProposals == map[] ==> Awaited(d.core, d.pendingProposals, commands)
  {
  }

  /** One turn keeps the invariant, loses and duplicates no channel, and answers Ok only for the command
      proposed as long as the node is still leader at its end. */
  lemma TurnKeeps(s: Setup, d: Driver, e: LoopEvent, commands: Token -> Bytes)
    requires ProposalsOk(d, commands) && Allowed(d, e, commands) && LoopStep(s, d, e).Some?
    ensures var d' := LoopStep(s, d, e).value;
            && ProposalsOk(d', commands)
            && Channels(d') == Channels(d) + NewToken(e)
            && TurnAnswers(d, d', commands)
  {
    var r := Handle(d.core, InputOf(e));
    var d1 := Register(d, e, r.node, r.actions);
    var d2 := RunActions(s, d1, r.actions).value;
    RunActionsRan(s, d1, r.actions);
    RegisterConserves(d, e, r.node, r.actions, commands);
    AfterRun(d, e, r.node, r.actions, d2, commands);
    DrainConserves(d2);
    if d.core.IsLeader() && !d2.core.IsLeader() {
      LeaderStays(d.core, InputOf(e));
      ShortenedIndices(r.node, d2.core);
    }
  }

  // ----- Every run -----

  ghost predicate AllowedRun(states: seq<Driver>, events: seq<LoopEvent>, commands: Token -> Bytes)
    requires |states| == |events| + 1
  {
    forall k :: 0 <= k < |events| ==> Allowed(states[k], events[k], commands)
  }

  lemma StartedOk(d: Driver, commands: Token -> Bytes)
    requires Started(d)
    ensures ProposalsOk(d, commands) && Channels(d) == multiset{}
  {
    assert ValuesOf(d.pendingProposals) == [];
    assert Tokens(d.answers) == [];
  }

  lemma RunStarts(s: Setup, states: seq<Driver>, events: seq<LoopEvent>, commands: Token -> Bytes)
    requires DriverRun(s, states, events)
    ensures |states| == |events| + 1
    ensures ProposalsOk(states[0], commands) && Channels(states[0]) == Tally(events[..0], NewToken)
  {
    hide ProposalsOk, Channels, LoopStep, Started;
    StartedOk(states[0], commands);
  }

  lemma RunStep(s: Setup, states: seq<Driver>, events: seq<LoopEvent>, k: nat, commands: Token -> Bytes)
    requires DriverRun(s, states, events) && AllowedRun(states, events, commands) && k < |events|
    ensures |states| == |events| + 1 && Allowed(states[k], events[k], commands)
    ensures LoopStep(s, states[k], events[k]) == Some(states[k + 1])
  {
    hide Allowed, LoopStep, Started;
  }

  lemma {:induction false} ConservedUpTo(s: Setup, states: seq<Driver>, events: seq<LoopEvent>, k: nat,
                                         commands: Token -> Bytes)
    requires DriverRun(s, states, events) && AllowedRun(states, events, commands) && k <= |events|
    ensures ProposalsOk(states[k], commands) && Channels(states[k]) == Tally(events[..k], NewToken)
  {
    hide *;
    if k == 0 {
      RunStarts(s, states, events, commands);
    } else {
      ConservedUpTo(s, states, events, k - 1, commands);
      RunStep(s, states, events, k - 1, commands);
      TurnKeeps(s, states[k - 1], events[k - 1], commands);
      TallyMore(events, NewToken, k - 1);
    }
  }

  /** Proposal replies are conserved. At every turn of every allowed run: the channels of the proposals received
      so far are exactly those pending together with those answered, each as often as it was received; nothing is
      pending unless the node leads; a new proposal takes an index nobody waits for; and an Ok sent in a turn that
      ends as leader is for the very command proposed. */
  lemma ProposalsConserved(s: Setup, states: seq<Driver>, events: seq<LoopEvent>, k: nat, commands: Token -> Bytes)
    requires DriverRun(s, states, events) && AllowedRun(states, events, commands) && k <= |events|
    ensures multiset(ValuesOf(states[k].pendingProposals)) + multiset(Tokens(states[k].answers))
            == Tally(events[..k], NewToken)
    ensures !states[k].core.IsLeader() ==> states[k].pendingProposals == map[]
    ensures k < |events| && events[k].Proposed? && states[k].core.IsLeader() ==>
              FirstPersist(states[k].core.Propose(events[k].command).actions).Some?
              && FirstPersist(states[k].core.Propose(events[k].command).actions).value !in states[k].pendingProposals
    ensures k < |events| ==> TurnAnswers(states[k], states[k + 1], commands)
  {
    ConservedUpTo(s, states, events, k, commands);
    hide LoopStep, Awaited, TurnAnswers, DriverRun, Tally, AllowedRun, Node.Propose, FirstPersist, Allowed;
    if k < |events| {
      RunStep(s, states, events, k, commands);
      TurnKeeps(s, states[k], events[k], commands);
      if events[k].Proposed? && states[k].core.IsLeader() {
        ProposeFiles(states[k].core, events[k].command);
        Files(states[k], events[k], commands);
      }
    }
  }
}
