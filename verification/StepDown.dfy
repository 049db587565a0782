/** The turn in which a leader learns of its successor: when the proposals answered in it are answered rightly. */
module StepDown {
  import opened RaftTypes
  import opened RaftNode
  import opened Logs
  import opened Durability
  import opened Applied
  import opened Driver
  import opened Proposals
  import Deposed

  /** The log after an AppendEntries that matches. */
  function Merged(n: Node, m: Message): seq<LogEntry>
    requires m.AppendEntries? && n.snapIndex <= m.prevIndex <= n.LastLogIndex()
  {
    MergeLog(n.log, m.prevIndex - n.snapIndex, m.entries)
  }

  ghost predicate Fitting(n: Node, m: Message)
    requires m.AppendEntries?
  {
    n.snapIndex <= m.prevIndex <= n.LastLogIndex() && n.Matches(m)
  }

  /** Index i, not yet applied, is applied on receiving m. */
  ghost predicate AppliedBy(n: Node, m: Message, i: nat)
    requires m.AppendEntries?
  {
    Fitting(n, m) && i <= m.leaderCommit && i <= n.snapIndex + |Merged(n, m)|
  }

  /** The merged log keeps the entry at i, or the message brings the same command there. */
  ghost predicate KeepsCommand(n: Node, m: Message, i: nat)
    requires m.AppendEntries? && AppliedBy(n, m, i) && n.snapIndex < i <= n.LastLogIndex()
  {
    var k := i - n.snapIndex - 1;
    || Merged(n, m)[k] == n.log[k]
    || (m.prevIndex < i <= m.prevIndex + |m.entries|
        && m.entries[i - m.prevIndex - 1].command == n.log[k].command)
  }

  /** Every entry of a merged log is an old one or comes from the message. */
  lemma MergedEntry(n: Node, m: Message, k: nat)
    requires m.AppendEntries? && n.snapIndex <= m.prevIndex <= n.LastLogIndex() && k < |Merged(n, m)|
    ensures || (k < |n.log| && Merged(n, m)[k] == n.log[k])
            || (m.prevIndex - n.snapIndex <= k < m.prevIndex - n.snapIndex + |m.entries|
                && Merged(n, m)[k] == m.entries[k - (m.prevIndex - n.snapIndex)])
  {
    var p := m.prevIndex - n.snapIndex;
    var j := Agree(n.log, p, m.entries);
    if j < |m.entries| && k >= p + j {
      assert Merged(n, m)[k] == m.entries[j..][k - (p + j)];
    }
  }

  lemma SameCommand(n: Node, m: Message, i: nat)
    requires m.AppendEntries? && AppliedBy(n, m, i) && n.snapIndex < i <= n.LastLogIndex()
    ensures KeepsCommand(n, m, i)
            <==> Merged(n, m)[i - n.snapIndex - 1].command == n.log[i - n.snapIndex - 1].command
  {
    hide MergeLog;
    MergedEntry(n, m, i - n.snapIndex - 1);
  }

  // ----- The core's step -----

  /** What a message of a higher term does to the log and the applied index. */
  lemma Succession(n: Node, m: Message, timeout: nat, order: seq<nat>)
    requires IndicesOk(n) && m.AppendEntries? && m.term > n.currentTerm && KeepsCommitted(n, m)
    requires n.Receive(m, timeout, order).Done?
    ensures var r := n.Receive(m, timeout, order);
            && r.node.snapIndex == n.snapIndex && r.node.role != Leader && NoLoads(r.actions)
            && (forall i: nat :: n.lastApplied < i ==> (i <= r.node.lastApplied <==> AppliedBy(n, m, i)))
            && (Fitting(n, m) ==> r.node.log == Merged(n, m))
  {
    hide Node.OnAppendEntries, AppliedBy, MergeLog, NoLoads;
    var n1 := n.AdoptTerm(m.term, timeout);
    SameMatch(n, n1, m);
    if Fitting(n, m) {
      Succeeds(n1, m, timeout);
    } else {
      Refuses(n1, m, timeout);
    }
    forall i: nat ensures AppliedBy(n1, m, i) == AppliedBy(n, m, i) {
      SameApplied(n, n1, m, i);
    }
    Prepends(n.AdoptActions(m.term), n1.OnAppendEntries(m, timeout).actions);
  }

  lemma Prepends(a: seq<Action>, b: seq<Action>)
    requires NoLoads(b) && (a == [] || (|a| == 1 && a[0].PersistMetadata?))
    ensures NoLoads(a + b)
  {
  }

  lemma SameApplied(n: Node, n1: Node, m: Message, i: nat)
    requires m.AppendEntries? && n1.log == n.log && n1.snapIndex == n.snapIndex && n1.snapTerm == n.snapTerm
    ensures AppliedBy(n1, m, i) == AppliedBy(n, m, i)
  {
    hide MergeLog;
    SameMatch(n, n1, m);
  }

  lemma SameMatch(n: Node, n1: Node, m: Message)
    requires m.AppendEntries? && n1.log == n.log && n1.snapIndex == n.snapIndex && n1.snapTerm == n.snapTerm
    ensures n1.Matches(m) == n.Matches(m)
  {
    if m.prevIndex > 0 {
      assert n1.TermAt(m.prevIndex) == n.TermAt(m.prevIndex);
    }
  }

  lemma Succeeds(n: Node, m: Message, timeout: nat)
    requires IndicesOk(n) && n.role == Follower && m.AppendEntries? && m.term == n.currentTerm && Fitting(n, m)
    requires KeepsCommitted(n, m) && n.OnAppendEntries(m, timeout).Done?
    ensures var r := n.OnAppendEntries(m, timeout);
            && r.node.snapIndex == n.snapIndex && r.node.role == Follower && NoLoads(r.actions)
            && (forall i: nat :: n.lastApplied < i ==> (i <= r.node.lastApplied <==> AppliedBy(n, m, i)))
            && r.node.log == Merged(n, m)
  {
    hide Node.OnAppendEntries, Node.FinishAppend, Node.PersistSuffix, MergeLog, Node.FollowCommit, KeepsCommitted;
    hide NoLoads;
    AcceptsFitting(n, m);
    AcceptShape(n, m, timeout);
    SuffixShape(n, m, timeout);
    AcceptedKeeps(n, m, timeout);
    var g := Accepted(n, m, timeout);
    var persist := g.PersistSuffix(m).value;
    FinishShape(g, m, persist);
    CommitMoves(g, m.leaderCommit);
    var r := n.OnAppendEntries(m, timeout);
    var answer := r.actions[|r.actions| - 1];
    Loadless(persist, g.FollowCommit(m.leaderCommit).actions, answer);
  }

  lemma Loadless(persist: seq<Action>, applies: seq<Action>, answer: Action)
    requires NoLoads(applies) && !answer.LoadSnapshot?
    requires persist == [] || (|persist| == 1 && persist[0].PersistLogEntries?)
    ensures NoLoads(persist + (applies + [answer]))
  {
  }

  lemma AcceptsFitting(n: Node, m: Message)
    requires n.role == Follower && m.AppendEntries? && m.term == n.currentTerm && Fitting(n, m)
    ensures Accepts(n, m)
  {
  }

  lemma CommitMoves(g: Node, commit: nat)
    requires IndicesOk(g) && g.FollowCommit(commit).Done?
    ensures var r := g.FollowCommit(commit);
            && NoLoads(r.actions)
            && r.node.lastApplied == (if commit <= g.lastApplied then g.lastApplied
                                      else if commit <= g.LastLogIndex() then commit else g.LastLogIndex())
  {
    hide Node.Slice;
  }

  lemma Refuses(n: Node, m: Message, timeout: nat)
    requires n.role == Follower && m.AppendEntries? && m.term == n.currentTerm && n.snapIndex <= m.prevIndex
    requires !Fitting(n, m) && n.OnAppendEntries(m, timeout).Done?
    ensures var r := n.OnAppendEntries(m, timeout);
            && r.node.snapIndex == n.snapIndex && r.node.role == Follower && NoLoads(r.actions)
            && r.node.lastApplied == n.lastApplied && (forall i: nat :: !AppliedBy(n, m, i))
  {
    hide MergeLog, Node.Merge;
    var f := n.ResetTimer(timeout).(currentLeader := Some(m.leader));
    SameMatch(n, f, m);
    assert !n.Matches(m);
  }

  // ----- The answers -----

  ghost predicate AnsweredAt(answers: seq<Answer>, answers': seq<Answer>, i: nat, token: Token) {
    exists j :: |answers| <= j < |answers'| && answers'[j].token == token && answers'[j].verdict.Applied?
                && answers'[j].verdict.index == i
  }

  /** Every proposal that leaves the map is answered for its own index. */
  lemma {:induction false} LeavesAnswered(s: Setup, d: Driver, actions: seq<Action>, i: nat)
    requires RunActions(s, d, actions).Some? && i in d.pendingProposals
    requires i !in RunActions(s, d, actions).value.pendingProposals
    ensures AnsweredAt(d.answers, RunActions(s, d, actions).value.answers, i, d.pendingProposals[i])
    decreases |actions|
  {
    hide RunAction;
    if actions != [] {
      var d1 := RunAction(s, d, actions[0]).value;
      var d' := RunActions(s, d, actions).value;
      StepAnswers(s, d, actions[0], i);
      RunActionsRan(s, d1, actions[1..]);
      assert d1.answers <= d'.answers;
      if i in d1.pendingProposals {
        LeavesAnswered(s, d1, actions[1..], i);
        var j :| |d1.answers| <= j < |d'.answers| && d'.answers[j].token == d.pendingProposals[i]
                 && d'.answers[j].verdict.Applied? && d'.answers[j].verdict.index == i;
      } else {
        var j := |d.answers|;
        assert d'.answers[j] == d1.answers[j];
      }
    }
  }

  lemma StepAnswers(s: Setup, d: Driver, a: Action, i: nat)
    requires RunAction(s, d, a).Some? && i in d.pendingProposals
    ensures var d1 := RunAction(s, d, a).value;
            && d.answers <= d1.answers
            && (if i in d1.pendingProposals then d1.pendingProposals[i] == d.pendingProposals[i]
                else |d1.answers| > |d.answers| && d1.answers[|d.answers|].token == d.pendingProposals[i]
                     && d1.answers[|d.answers|].verdict.Applied? && d1.answers[|d.answers|].verdict.index == i)
  {
    hide TakeSnapshot;
    if a.ApplyToStateMachine? {
      DeliverKeeps(s, AnswerProposal(d, a.index, a.command), a.command);
    }
  }

  /** Every Ok sent between two states is for the command proposed on its channel. */
  ghost predicate Right(d: Driver, d': Driver, commands: Token -> Bytes) {
    forall j :: |d.answers| <= j < |d'.answers| && d'.answers[j].verdict.Applied? ==>
      d'.answers[j].verdict.command == commands(d'.answers[j].token)
  }

  lemma DrainRight(d: Driver, d': Driver, commands: Token -> Bytes)
    requires |d.answers| <= |d'.answers|
    ensures Right(d, Drain(d'), commands) <==> Right(d, d', commands)
  {
    var x := Drain(d');
    assert forall j :: 0 <= j < |d'.answers| ==> x.answers[j] == d'.answers[j];
    assert forall j :: |d'.answers| <= j < |x.answers| ==> !x.answers[j].verdict.Applied?;
  }

  /** An answer sent for index i carries the command the new log holds there. */
  lemma AnswerCarries(n': Node, actions: seq<Action>, pending: map<nat, Token>, a: Answer)
    requires FromLog(n', actions) && AnswersApplication(pending, actions, a)
    ensures n'.EntryAt(a.verdict.index).Some? && n'.EntryAt(a.verdict.index).value.command == a.verdict.command
    ensures AppliesIndex(actions, a.verdict.index)
    ensures a.verdict.index in pending && pending[a.verdict.index] == a.token
  {
    var k :| 0 <= k < |actions| && actions[k] == ApplyToStateMachine(a.verdict.index, a.verdict.command);
    assert actions[k].ApplyToStateMachine?;
  }

  /** The condition a caller can check before the turn. */
  ghost predicate Harmless(d: Driver, m: Message)
    requires m.AppendEntries?
  {
    forall i :: i in d.pendingProposals && d.core.snapIndex < i <= d.core.LastLogIndex() && AppliedBy(d.core, m, i) ==>
      KeepsCommand(d.core, m, i)
  }

  /** How the core's step relates to the message. */
  ghost predicate Turned(n: Node, m: Message, n': Node, actions: seq<Action>)
    requires m.AppendEntries?
  {
    && FromLog(n', actions) && NoLoads(actions) && Follow(n.lastApplied, actions) == Some(n'.lastApplied)
    && n'.snapIndex == n.snapIndex && (Fitting(n, m) ==> n'.log == Merged(n, m))
    && forall i: nat :: n.lastApplied < i ==> (i <= n'.lastApplied <==> AppliedBy(n, m, i))
  }

  /** One pending index: whether it is applied, and whether the command applied is the one proposed. */
  lemma AtIndex(d: Driver, m: Message, n': Node, actions: seq<Action>, i: nat, commands: Token -> Bytes)
    requires ProposalsOk(d, commands) && m.AppendEntries? && Turned(d.core, m, n', actions) && i in d.pendingProposals
    ensures d.core.snapIndex < i <= d.core.LastLogIndex()
    ensures AppliesIndex(actions, i) <==> AppliedBy(d.core, m, i)
    ensures AppliedBy(d.core, m, i) ==>
              n'.EntryAt(i).Some?
              && (KeepsCommand(d.core, m, i) <==> n'.EntryAt(i).value.command == commands(d.pendingProposals[i]))
  {
    hide FromLog, Follow, MergeLog, KeepsCommand, AppliesIndex, Node.Matches, NoLoads;
    var n := d.core;
    FollowCovers(n.lastApplied, actions, i);
    if AppliedBy(n, m, i) {
      SameCommand(n, m, i);
    }
  }

  lemma RightIfHarmless(d: Driver, m: Message, n': Node, actions: seq<Action>, d2: Driver, commands: Token -> Bytes)
    requires ProposalsOk(d, commands) && m.AppendEntries? && Harmless(d, m) && Turned(d.core, m, n', actions)
    requires ProposalsRan(d.pendingProposals, d.answers, actions, d2.pendingProposals, d2.answers)
    ensures Right(d, d2, commands)
  {
    hide ProposalsOk, FromLog, AppliesIndex, KeepsCommand, AppliedBy, AnswersApplication, Node.EntryAt, Follow, NoLoads;
    forall j | |d.answers| <= j < |d2.answers| && d2.answers[j].verdict.Applied?
      ensures d2.answers[j].verdict.command == commands(d2.answers[j].token)
    {
      var a := d2.answers[j];
      AnswerCarries(n', actions, d.pendingProposals, a);
      AtIndex(d, m, n', actions, a.verdict.index, commands);
    }
  }

  lemma HarmlessIfRight(s: Setup, d: Driver, m: Message, n': Node, actions: seq<Action>, commands: Token -> Bytes)
    requires ProposalsOk(d, commands) && m.AppendEntries? && RunActions(s, d.(core := n'), actions).Some?
    requires Right(d, RunActions(s, d.(core := n'), actions).value, commands) && Turned(d.core, m, n', actions)
    ensures Harmless(d, m)
  {
    hide ProposalsOk, FromLog, AppliesIndex, KeepsCommand, AppliedBy, AnswersApplication, Node.EntryAt, Follow, NoLoads;
    hide RunActions, Shortened, ReadsRan;
    var d1 := d.(core := n');
    var d2 := RunActions(s, d1, actions).value;
    RunActionsRan(s, d1, actions);
    forall i | i in d.pendingProposals && d.core.snapIndex < i <= d.core.LastLogIndex() && AppliedBy(d.core, m, i)
      ensures KeepsCommand(d.core, m, i)
    {
      AtIndex(d, m, n', actions, i, commands);
      LeavesAnswered(s, d1, actions, i);
      var j :| |d.answers| <= j < |d2.answers| && d2.answers[j].token == d.pendingProposals[i]
               && d2.answers[j].verdict.Applied? && d2.answers[j].verdict.index == i;
      AnswerCarries(n', actions, d.pendingProposals, d2.answers[j]);
    }
  }

  /** In the turn in which a leader receives an AppendEntries of a higher term, every Ok is for the command proposed on
      its channel if and only if, for each pending index the turn applies, the merged log keeps the old entry or the
      message brings the same command. */
  lemma RightExactlyWhen(s: Setup, d: Driver, e: LoopEvent, commands: Token -> Bytes)
    requires ProposalsOk(d, commands) && Allowed(d, e, commands) && d.core.IsLeader() && LoopStep(s, d, e).Some?
    requires e.Received? && e.message.AppendEntries? && e.message.term > d.core.currentTerm
    ensures Right(d, LoopStep(s, d, e).value, commands) <==> Harmless(d, e.message)
  {
    hide Handle, RunActions, Harmless, Orderly, Right, Follow, FromLog, AppliedBy, Fitting, Awaited, Register;
    hide ProposalsRan, Turned, Drain;
    var m := e.message;
    var r := Handle(d.core, InputOf(e));
    var d1 := d.(core := r.node);
    RegistersNothing(d, e, r.node, r.actions);
    var d2 := RunActions(s, d1, r.actions).value;
    RunActionsRan(s, d1, r.actions);
    Turns(d, e, commands);
    RanAnswers(d1, r.actions, d2);
    DrainRight(d, d2, commands);
    if Harmless(d, m) {
      RightIfHarmless(d, m, r.node, r.actions, d2, commands);
    }
    if Right(d, d2, commands) {
      HarmlessIfRight(s, d, m, r.node, r.actions, commands);
    }
  }

  lemma RegistersNothing(d: Driver, e: LoopEvent, n: Node, actions: seq<Action>)
    requires e.Received?
    ensures Register(d, e, n, actions) == d.(core := n)
  {
  }

  lemma Turns(d: Driver, e: LoopEvent, commands: Token -> Bytes)
    requires ProposalsOk(d, commands) && Allowed(d, e, commands) && e.Received? && e.message.AppendEntries?
    requires e.message.term > d.core.currentTerm
    ensures var r := Handle(d.core, InputOf(e));
            r.Done? && r.node.role != Leader && Turned(d.core, e.message, r.node, r.actions)
  {
    hide Handle, Orderly, Follow, FromLog, AppliedBy, Fitting, Awaited;
    HandleInOrder(d.core, InputOf(e));
    AllowedKeeps(d, e, commands);
    HandleIs(d.core, e);
    Succession(d.core, e.message, e.timeout, e.order);
  }

  lemma HandleIs(n: Node, e: LoopEvent)
    requires e.Received?
    ensures Handle(n, InputOf(e)) == n.Receive(e.message, e.timeout, e.order)
  {
    hide Node.Receive;
  }

  lemma AllowedKeeps(d: Driver, e: LoopEvent, commands: Token -> Bytes)
    requires Allowed(d, e, commands) && e.Received? && e.message.AppendEntries? && e.message.term > d.core.currentTerm
    ensures KeepsCommitted(d.core, e.message)
  {
    hide KeepsCommitted;
  }

  lemma RanAnswers(d: Driver, actions: seq<Action>, d': Driver)
    requires Ran(d, actions, d')
    ensures d.answers <= d'.answers && d'.core.role == d.core.role
  {
    hide ReadsRan;
  }

  // ----- Runs in which no successor's entries match at a leader -----

  /** A message of a higher term brings a leader no entries that match, and is no append response. Every delivery in a
      guarded run of the cluster is so: `Deposed.HigherTermNeverMatches` and AppendGuard. */
  ghost predicate Unmatched(n: Node, input: Input) {
    n.role == Leader && input.Delivery? && input.message.term > n.currentTerm ==>
      !input.message.AppendEntriesResponse? && (input.message.AppendEntries? ==> !n.Matches(input.message))
  }

  /** Where nothing is applied, or nobody waits, no Ok is sent. */
  lemma NoOk(d: Driver, e: LoopEvent, n: Node, actions: seq<Action>, d2: Driver, commands: Token -> Bytes)
    requires Ran(Register(d, e, n, actions), actions, d2)
    requires (forall j :: 0 <= j < |actions| ==> !actions[j].ApplyToStateMachine?)
             || Register(d, e, n, actions).pendingProposals == map[]
    ensures Right(d, d2, commands) && |d.answers| <= |d2.answers|
  {
    hide Register, Shortened, ReadsRan, AppliesIndex;
    var d1 := Register(d, e, n, actions);
    Registered(d, e, n, actions);
    forall j | |d.answers| <= j < |d2.answers| ensures !d2.answers[j].verdict.Applied? {
      if j < |d1.answers| {
        assert d2.answers[j] == d1.answers[j];
      }
    }
  }

  lemma DeposedQuiet(n: Node, input: Input)
    requires n.role == Leader && Unmatched(n, input) && NoReplacement(n, input) && Handle(n, input).Done?
    requires Handle(n, input).node.role != Leader
    ensures forall j :: 0 <= j < |Handle(n, input).actions| ==> !Handle(n, input).actions[j].ApplyToStateMachine?
  {
    hide Node.Receive;
    LeaderStays(n, input);
    if input.Delivery? {
      Deposed.QuietAdoption(n, input.message, input.timeout, input.order);
    }
  }

  lemma TurnRight(s: Setup, d: Driver, e: LoopEvent, commands: Token -> Bytes)
    requires ProposalsOk(d, commands) && Allowed(d, e, commands) && Unmatched(d.core, InputOf(e))
    requires LoopStep(s, d, e).Some?
    ensures Right(d, LoopStep(s, d, e).value, commands)
  {
    hide Handle, RunActions, Orderly, Register, Awaited, ProposalsRan, Drain, Unmatched, NoReplacement;
    var d' := LoopStep(s, d, e).value;
    TurnKeeps(s, d, e, commands);
    if !d'.core.IsLeader() || !d.core.IsLeader() {
      var r := Handle(d.core, InputOf(e));
      var d1 := Register(d, e, r.node, r.actions);
      var d2 := RunActions(s, d1, r.actions).value;
      RunActionsRan(s, d1, r.actions);
      Registered(d, e, r.node, r.actions);
      RanAnswers(d1, r.actions, d2);
      DrainRole(d2);
      if d.core.IsLeader() {
        DeposedQuiet(d.core, InputOf(e));
      }
      NoOk(d, e, r.node, r.actions, d2, commands);
      DrainRight(d, d2, commands);
    }
  }

  lemma DrainRole(d: Driver)
    ensures Drain(d).core == d.core
  {
  }

  /** In every such run every Ok, whatever the role at the end of its turn, is for the very command proposed. */
  lemma EveryOkRight(s: Setup, states: seq<Driver>, events: seq<LoopEvent>, k: nat, commands: Token -> Bytes)
    requires DriverRun(s, states, events) && AllowedRun(states, events, commands) && k < |events|
    requires Unmatched(states[k].core, InputOf(events[k]))
    ensures Right(states[k], states[k + 1], commands)
  {
    hide LoopStep, Right, Unmatched, ProposalsOk, Allowed;
    ConservedUpTo(s, states, events, k, commands);
    RunStep(s, states, events, k, commands);
    TurnRight(s, states[k], events[k], commands);
  }
}
