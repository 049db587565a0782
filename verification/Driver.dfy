/** The event loop around one node: it runs the core's actions in order and matches the core's progress to the
    reply channels of pending proposals and reads. One step is one turn of the loop on whichever input is ready. */
module Driver {
  import opened RaftTypes
  import opened RaftNode
  import opened Frames
  import opened Storage
  import opened Compaction
  import opened OrderStatistics

  /** A reply channel. */
  type Token = nat

  /** What is sent on a channel. The two forms of Ok also record what the loop knew when it sent them. */
  datatype Verdict =
    | Applied(index: nat, command: Bytes)
    | Released(id: nat)
    | LostLeadership
    | FollowerNode(leader: Option<NodeId>)

  datatype Answer = Answer(token: Token, verdict: Verdict)

  /** What the application receives. */
  datatype Output = Command(command: Bytes) | LoadState(data: Bytes) | SnapshotRequest

  /** What changes the application's state: everything but requests for a snapshot. */
  function Handed(outputs: seq<Output>): seq<Output> {
    if outputs == [] then []
    else
      var last := outputs[|outputs| - 1];
      Handed(outputs[..|outputs| - 1]) + if last.SnapshotRequest? then [] else [last]
  }

  /** The snapshot threshold, and the state the application returns after what it has been handed. */
  datatype Setup = Setup(threshold: nat, stateAfter: seq<Output> -> Bytes)

  datatype Driver = Driver(
    core: Node,
    pendingProposals: map<nat, Token>,
    pendingReads: map<nat, Token>,
    numEntries: nat,
    disk: Disk,
    answers: seq<Answer>,
    readAnswers: seq<Answer>,
    outputs: seq<Output>,
    sent: seq<Action>
  )

  // ----- handle_action; None means the loop stops -----

  function RunAction(s: Setup, d: Driver, a: Action): Option<Driver> {
    match a
    case ApplyToStateMachine(index, command) => Deliver(s, AnswerProposal(d, index, command), command)
    case ReadBarrierReady(id) => Some(AnswerRead(d, id))
    case _ =>
      var x := Execute(d.disk, a);
      if x.alive then Some(Perform(d.(disk := x.disk), a)) else None
  }

  function AnswerProposal(d: Driver, index: nat, command: Bytes): Driver {
    if index !in d.pendingProposals then d
    else d.(pendingProposals := d.pendingProposals - {index},
            answers := d.answers + [Answer(d.pendingProposals[index], Applied(index, command))])
  }

  function AnswerRead(d: Driver, id: nat): Driver {
    if id !in d.pendingReads then d
    else d.(pendingReads := d.pendingReads - {id},
            readAnswers := d.readAnswers + [Answer(d.pendingReads[id], Released(id))])
  }

  /** Blank commands are not handed to the application. */
  function Deliver(s: Setup, d: Driver, command: Bytes): Option<Driver> {
    if command == [] then Some(d)
    else
      var d1 := d.(outputs := d.outputs + [Command(command)], numEntries := d.numEntries + 1);
      if d1.numEntries >= s.threshold then TakeSnapshot(s, d1) else Some(d1)
  }

  /** Ask for the state, store it, compact the core, empty the log file. */
  function TakeSnapshot(s: Setup, d: Driver): Option<Driver> {
    var d1 := d.(outputs := d.outputs + [SnapshotRequest]);
    match d1.core.PrepareSnapshot()
    case None => None
    case Some((index, term)) =>
      match d1.core.CompleteSnapshot(index, term)
      case None => None
      case Some(n) =>
        if d1.disk.log.None? then None
        else Some(d1.(core := n, numEntries := 0,
                      disk := d1.disk.(snapshot := Some(Snapshot(index, term, s.stateAfter(Handed(d1.outputs)))),
                                       log := Some([]))))
  }

  function Perform(d: Driver, a: Action): Driver {
    match a
    case SendMessage(_, _) => d.(sent := d.sent + [a])
    case SendInstallSnapshot(target, t, index, term) =>
      if d.disk.snapshot.None? then d
      else d.(sent := d.sent
                      + [SendMessage(target, InstallSnapshot(t, d.core.id, index, term, d.disk.snapshot.value.data))])
    case LoadSnapshot(_, _, data) => d.(outputs := d.outputs + [LoadState(data)])
    case _ => d
  }

  function RunActions(s: Setup, d: Driver, actions: seq<Action>): Option<Driver>
    decreases |actions|
  {
    if actions == [] then Some(d)
    else match RunAction(s, d, actions[0])
         case None => None
         case Some(d1) => RunActions(s, d1, actions[1..])
  }

  lemma {:induction false} RunConcat(s: Setup, d: Driver, a: seq<Action>, b: seq<Action>)
    ensures RunActions(s, d, a + b)
         == match RunActions(s, d, a)
            case None => None
            case Some(d1) => RunActions(s, d1, b)
    decreases |a|
  {
    hide RunAction;
    if a == [] {
      assert a + b == b;
    } else if RunAction(s, d, a[0]).Some? {
      assert (a + b)[1..] == a[1..] + b;
      RunConcat(s, RunAction(s, d, a[0]).value, a[1..], b);
    }
  }

  lemma RunOne(s: Setup, d: Driver, a: Action)
    ensures RunActions(s, d, [a]) == RunAction(s, d, a)
  {
    hide RunAction;
    assert [a][1..] == [];
  }

  // ----- One turn of the loop -----

  datatype LoopEvent =
    | TimerFired(timeout: nat)
    | Proposed(token: Token, command: Bytes)
    | ReadAsked(token: Token)
    | Received(message: Message, timeout: nat, order: seq<nat>)

  function InputOf(e: LoopEvent): Input {
    match e
    case TimerFired(timeout) => Timer(timeout)
    case Proposed(_, command) => Proposal(command)
    case ReadAsked(_) => ReadRequest
    case Received(m, timeout, order) => Delivery(m, timeout, order)
  }

  /** The start index of the first PersistLogEntries. */
  function FirstPersist(actions: seq<Action>): Option<nat> {
    if actions == [] then None
    else if actions[0].PersistLogEntries? then Some(actions[0].startIndex)
    else FirstPersist(actions[1..])
  }

  /** Take the core's new state and file the channel of a request, or refuse it. */
  function Register(d: Driver, e: LoopEvent, n: Node, actions: seq<Action>): Driver {
    match e
    case Proposed(token, _) =>
      if !d.core.IsLeader() then
        d.(core := n, answers := d.answers + [Answer(token, FollowerNode(n.currentLeader))])
      else (match FirstPersist(actions)
            case None => d.(core := n)
            case Some(index) => d.(core := n, pendingProposals := d.pendingProposals[index := token]))
    case ReadAsked(token) =>
      (match d.core.RequestReadBarrier().1
       case None => d.(core := n, readAnswers := d.readAnswers + [Answer(token, FollowerNode(n.currentLeader))])
       case Some(id) => d.(core := n, pendingReads := d.pendingReads[id := token]))
    case _ => d.(core := n)
  }

  function Losses(tokens: seq<Token>): (r: seq<Answer>)
    ensures |r| == |tokens|
  {
    seq(|tokens|, k requires 0 <= k < |tokens| => Answer(tokens[k], LostLeadership))
  }

  function Drain(d: Driver): Driver {
    d.(pendingProposals := map[], answers := d.answers + Losses(ValuesOf(d.pendingProposals)),
       pendingReads := map[], readAnswers := d.readAnswers + Losses(ValuesOf(d.pendingReads)))
  }

  function LoopStep(s: Setup, d: Driver, e: LoopEvent): Option<Driver> {
    match Handle(d.core, InputOf(e))
    case Panicked => None
    case Done(n, actions) =>
      match RunActions(s, Register(d, e, n, actions), actions)
      case None => None
      case Some(d') =>
        Some(if e.Received? && d.core.IsLeader() && !d'.core.IsLeader() then Drain(d') else d')
  }

  // ----- Runs: one process lifetime -----

  ghost predicate Started(d: Driver) {
    && d.pendingProposals == map[] && d.pendingReads == map[] && d.numEntries == 0
    && d.answers == [] && d.readAnswers == [] && d.outputs == [] && d.sent == []
    && exists id, nodes, heartbeat, timeout :: Recover(id, nodes, heartbeat, timeout, d.disk) == Some(d.core)
  }

  ghost predicate DriverRun(s: Setup, states: seq<Driver>, events: seq<LoopEvent>) {
    && |states| == |events| + 1
    && Started(states[0])
    && forall k :: 0 <= k < |events| ==> LoopStep(s, states[k], events[k]) == Some(states[k + 1])
  }

  // ----- Bookkeeping of channels -----

  function Tokens(answers: seq<Answer>): (r: seq<Token>)
    ensures |r| == |answers|
  {
    seq(|answers|, k requires 0 <= k < |answers| => answers[k].token)
  }

  /** Every channel the driver holds or has used, for proposals. */
  function Channels(d: Driver): multiset<Token> {
    multiset(ValuesOf(d.pendingProposals)) + multiset(Tokens(d.answers))
  }

  function ReadChannels(d: Driver): multiset<Token> {
    multiset(ValuesOf(d.pendingReads)) + multiset(Tokens(d.readAnswers))
  }

  /** The channels that `pick` finds in the events. */
  function Tally(events: seq<LoopEvent>, pick: LoopEvent -> multiset<Token>): multiset<Token> {
    if events == [] then multiset{} else Tally(events[..|events| - 1], pick) + pick(events[|events| - 1])
  }

  lemma TallyMore(events: seq<LoopEvent>, pick: LoopEvent -> multiset<Token>, k: nat)
    requires k < |events|
    ensures Tally(events[..k + 1], pick) == Tally(events[..k], pick) + pick(events[k])
  {
    assert events[..k + 1][..k] == events[..k];
  }

  lemma {:induction false} ValuesSame(m: map<nat, nat>, m': map<nat, nat>, keys: set<nat>)
    requires keys <= m.Keys && keys <= m'.Keys && forall k :: k in keys ==> m[k] == m'[k]
    ensures ValuesOver(m, keys) == ValuesOver(m', keys)
    decreases |keys|
  {
    if keys != {} {
      ValuesSame(m, m', keys - {Least(keys)});
    }
  }

  lemma ValuesWithout(m: map<nat, nat>, k: nat)
    requires k in m
    ensures multiset(ValuesOf(m)) == multiset(ValuesOf(m - {k})) + multiset{m[k]}
  {
    ValuesRemove(m, m.Keys, k);
    assert (m - {k}).Keys == m.Keys - {k};
    ValuesSame(m, m - {k}, m.Keys - {k});
  }

  lemma ValuesWith(m: map<nat, nat>, k: nat, v: nat)
    requires k !in m
    ensures multiset(ValuesOf(m[k := v])) == multiset(ValuesOf(m)) + multiset{v}
  {
    ValuesWithout(m[k := v], k);
    assert m[k := v] - {k} == m;
  }

  lemma TokensMore(answers: seq<Answer>, more: seq<Answer>)
    ensures multiset(Tokens(answers + more)) == multiset(Tokens(answers)) + multiset(Tokens(more))
  {
    assert Tokens(answers + more) == Tokens(answers) + Tokens(more);
  }

  lemma TokensAnd(answers: seq<Answer>, a: Answer)
    ensures multiset(Tokens(answers + [a])) == multiset(Tokens(answers)) + multiset{a.token}
  {
    TokensMore(answers, [a]);
    assert Tokens([a]) == [a.token];
  }

  lemma DrainTokens(answers: seq<Answer>, m: map<nat, nat>)
    ensures multiset(ValuesOf(map[])) + multiset(Tokens(answers + Losses(ValuesOf(m))))
         == multiset(ValuesOf(m)) + multiset(Tokens(answers))
  {
    TokensMore(answers, Losses(ValuesOf(m)));
    assert Tokens(Losses(ValuesOf(m))) == ValuesOf(m);
    assert ValuesOf(map[]) == [];
  }

  lemma DrainConserves(d: Driver)
    ensures Channels(Drain(d)) == Channels(d) && ReadChannels(Drain(d)) == ReadChannels(d)
  {
    DrainTokens(d.answers, d.pendingProposals);
    DrainTokens(d.readAnswers, d.pendingReads);
  }

  // ----- What running actions does to the driver -----

  /** The node after locally taken snapshots: compacted up to an applied index, or untouched. */
  ghost predicate Shortened(n: Node, n': Node) {
    || n' == n
    || (&& n.snapIndex <= n'.snapIndex <= n.lastApplied && n'.snapIndex <= n.LastLogIndex()
        && n' == Compacted(n, n'.snapIndex))
  }

  lemma ShortenedTwice(a: Node, b: Node, c: Node)
    requires Shortened(a, b) && Shortened(b, c)
    ensures Shortened(a, c)
  {
    if b != a && c != b {
      ReadsPreserved(a, b.snapIndex, c.snapIndex, 0);
      DropDrop(a.log, b.snapIndex - a.snapIndex, c.snapIndex - b.snapIndex);
    }
  }

  lemma ShortenedEntry(n: Node, n': Node, i: nat)
    requires Shortened(n, n') && i > n.lastApplied
    ensures n'.EntryAt(i) == n.EntryAt(i)
  {
    if n' != n {
      ReadsPreserved(n, n'.snapIndex, i, 0);
    }
  }

  /** A snapshot taken when the applied index lies in the log shortens the node. */
  lemma SnapshotShortens(n: Node, index: nat, term: nat)
    requires n.PrepareSnapshot() == Some((index, term)) && n.CompleteSnapshot(index, term).Some?
    ensures Shortened(n, n.CompleteSnapshot(index, term).value)
  {
    CompletePanics(n, index, term);
    if index > n.snapIndex {
      CompleteIsCompacted(n);
    }
  }

  ghost predicate AppliesIndex(actions: seq<Action>, index: nat) {
    exists k :: 0 <= k < |actions| && actions[k].ApplyToStateMachine? && actions[k].index == index
  }

  ghost predicate ReleasesId(actions: seq<Action>, id: nat) {
    exists k :: 0 <= k < |actions| && actions[k].ReadBarrierReady? && actions[k].id == id
  }

  /** What running actions does to the pending proposals: exactly the applied indices leave, each with the answer
      for that application, and no channel is lost or used twice. */
  ghost predicate ProposalsRan(p: map<nat, Token>, answers: seq<Answer>, actions: seq<Action>,
                               p': map<nat, Token>, answers': seq<Answer>) {
    && (forall i :: i in p' <==> i in p && !AppliesIndex(actions, i))
    && (forall i :: i in p' ==> p'[i] == p[i])
    && multiset(ValuesOf(p')) + multiset(Tokens(answers')) == multiset(ValuesOf(p)) + multiset(Tokens(answers))
    && answers <= answers'
    && forall j :: |answers| <= j < |answers'| ==> AnswersApplication(p, actions, answers'[j])
  }

  ghost predicate AnswersApplication(p: map<nat, Token>, actions: seq<Action>, a: Answer) {
    && a.verdict.Applied?
    && ApplyToStateMachine(a.verdict.index, a.verdict.command) in actions
    && a.verdict.index in p && p[a.verdict.index] == a.token
  }

  /** Likewise for the pending reads and the released barriers. */
  ghost predicate ReadsRan(p: map<nat, Token>, answers: seq<Answer>, actions: seq<Action>,
                           p': map<nat, Token>, answers': seq<Answer>) {
    && (forall i :: i in p' <==> i in p && !ReleasesId(actions, i))
    && (forall i :: i in p' ==> p'[i] == p[i])
    && multiset(ValuesOf(p')) + multiset(Tokens(answers')) == multiset(ValuesOf(p)) + multiset(Tokens(answers))
    && answers <= answers'
    && forall j :: |answers| <= j < |answers'| ==> AnswersRelease(p, actions, answers'[j])
  }

  ghost predicate AnswersRelease(p: map<nat, Token>, actions: seq<Action>, a: Answer) {
    && a.verdict.Released?
    && ReadBarrierReady(a.verdict.id) in actions
    && a.verdict.id in p && p[a.verdict.id] == a.token
  }

  ghost predicate Ran(d: Driver, actions: seq<Action>, d': Driver) {
    && Shortened(d.core, d'.core)
    && ProposalsRan(d.pendingProposals, d.answers, actions, d'.pendingProposals, d'.answers)
    && ReadsRan(d.pendingReads, d.readAnswers, actions, d'.pendingReads, d'.readAnswers)
  }

  lemma QuietTables(p: map<nat, Token>, answers: seq<Answer>, a: Action)
    ensures !a.ApplyToStateMachine? ==> ProposalsRan(p, answers, [a], p, answers)
    ensures !a.ReadBarrierReady? ==> ReadsRan(p, answers, [a], p, answers)
  {
  }

  lemma ApplyTable(p: map<nat, Token>, answers: seq<Answer>, index: nat, command: Bytes)
    ensures var a := ApplyToStateMachine(index, command);
            if index in p
            then ProposalsRan(p, answers, [a], p - {index}, answers + [Answer(p[index], Applied(index, command))])
            else ProposalsRan(p, answers, [a], p, answers)
  {
    hide ValuesOf, Tokens;
    var a := ApplyToStateMachine(index, command);
    assert [a][0] == a;
    if index in p {
      ValuesWithout(p, index);
      TokensAnd(answers, Answer(p[index], Applied(index, command)));
    }
  }

  lemma ReleaseTable(p: map<nat, Token>, answers: seq<Answer>, id: nat)
    ensures if id in p
            then ReadsRan(p, answers, [ReadBarrierReady(id)], p - {id}, answers + [Answer(p[id], Released(id))])
            else ReadsRan(p, answers, [ReadBarrierReady(id)], p, answers)
  {
    hide ValuesOf, Tokens;
    var a := ReadBarrierReady(id);
    assert [a][0] == a;
    if id in p {
      ValuesWithout(p, id);
      TokensAnd(answers, Answer(p[id], Released(id)));
    }
  }

  lemma DeliverKeeps(s: Setup, d: Driver, command: Bytes)
    requires Deliver(s, d, command).Some?
    ensures var d' := Deliver(s, d, command).value;
            && Shortened(d.core, d'.core)
            && d'.pendingProposals == d.pendingProposals && d'.pendingReads == d.pendingReads
            && d'.answers == d.answers && d'.readAnswers == d.readAnswers
  {
    hide Shortened, Node.CompleteSnapshot, Node.PrepareSnapshot;
    var metadata := d.core.PrepareSnapshot();
    if metadata.Some? && d.core.CompleteSnapshot(metadata.value.0, metadata.value.1).Some? {
      SnapshotShortens(d.core, metadata.value.0, metadata.value.1);
    }
    ShortenedNot(d.core);
  }

  lemma ShortenedNot(n: Node)
    ensures Shortened(n, n)
  {
  }

  lemma RunActionRan(s: Setup, d: Driver, a: Action)
    requires RunAction(s, d, a).Some?
    ensures Ran(d, [a], RunAction(s, d, a).value)
  {
    hide ProposalsRan, ReadsRan;
    QuietTables(d.pendingProposals, d.answers, a);
    QuietTables(d.pendingReads, d.readAnswers, a);
    match a {
      case ApplyToStateMachine(index, command) =>
        ApplyTable(d.pendingProposals, d.answers, index, command);
        DeliverKeeps(s, AnswerProposal(d, index, command), command);
      case ReadBarrierReady(id) => ReleaseTable(d.pendingReads, d.readAnswers, id);
      case _ =>
    }
  }

  lemma AppliesSplit(a: Action, rest: seq<Action>, i: nat)
    ensures AppliesIndex([a] + rest, i) <==> AppliesIndex([a], i) || AppliesIndex(rest, i)
    ensures ReleasesId([a] + rest, i) <==> ReleasesId([a], i) || ReleasesId(rest, i)
  {
    var all := [a] + rest;
    assert all[0] == a == [a][0];
    assert forall k :: 0 <= k < |rest| ==> all[k + 1] == rest[k];
    assert forall k :: 0 < k < |all| ==> all[k] == rest[k - 1];
  }

  lemma ProposalsTwice(p: map<nat, Token>, answers: seq<Answer>, a: Action, p1: map<nat, Token>, answers1: seq<Answer>,
                       rest: seq<Action>, p': map<nat, Token>, answers': seq<Answer>)
    requires ProposalsRan(p, answers, [a], p1, answers1) && ProposalsRan(p1, answers1, rest, p', answers')
    ensures ProposalsRan(p, answers, [a] + rest, p', answers')
  {
    hide AppliesIndex, AnswersApplication, ValuesOf, Tokens;
    forall i ensures AppliesIndex([a] + rest, i) <==> AppliesIndex([a], i) || AppliesIndex(rest, i) {
      AppliesSplit(a, rest, i);
    }
    forall j | |answers| <= j < |answers'| ensures AnswersApplication(p, [a] + rest, answers'[j]) {
      if j < |answers1| {
        assert answers'[j] == answers1[j];
        MoreActions(p, p, [a], [a] + rest, answers'[j]);
      } else {
        MoreActions(p, p1, rest, [a] + rest, answers'[j]);
      }
    }
  }

  lemma MoreActions(p: map<nat, Token>, p1: map<nat, Token>, some: seq<Action>, all: seq<Action>, x: Answer)
    requires forall i :: i in p1 ==> i in p && p1[i] == p[i]
    requires forall b :: b in some ==> b in all
    ensures AnswersApplication(p1, some, x) ==> AnswersApplication(p, all, x)
    ensures AnswersRelease(p1, some, x) ==> AnswersRelease(p, all, x)
  {
  }

  lemma ReadsTwice(p: map<nat, Token>, answers: seq<Answer>, a: Action, p1: map<nat, Token>, answers1: seq<Answer>,
                   rest: seq<Action>, p': map<nat, Token>, answers': seq<Answer>)
    requires ReadsRan(p, answers, [a], p1, answers1) && ReadsRan(p1, answers1, rest, p', answers')
    ensures ReadsRan(p, answers, [a] + rest, p', answers')
  {
    hide ReleasesId, AnswersRelease, ValuesOf, Tokens;
    forall i ensures ReleasesId([a] + rest, i) <==> ReleasesId([a], i) || ReleasesId(rest, i) {
      AppliesSplit(a, rest, i);
    }
    forall j | |answers| <= j < |answers'| ensures AnswersRelease(p, [a] + rest, answers'[j]) {
      if j < |answers1| {
        assert answers'[j] == answers1[j];
        MoreActions(p, p, [a], [a] + rest, answers'[j]);
      } else {
        MoreActions(p, p1, rest, [a] + rest, answers'[j]);
      }
    }
  }

  lemma RanTwice(d: Driver, a: Action, d1: Driver, rest: seq<Action>, d': Driver)
    requires Ran(d, [a], d1) && Ran(d1, rest, d')
    ensures Ran(d, [a] + rest, d')
  {
    hide ProposalsRan, ReadsRan;
    ShortenedTwice(d.core, d1.core, d'.core);
    ProposalsTwice(d.pendingProposals, d.answers, a, d1.pendingProposals, d1.answers, rest,
                   d'.pendingProposals, d'.answers);
    ReadsTwice(d.pendingReads, d.readAnswers, a, d1.pendingReads, d1.readAnswers, rest,
               d'.pendingReads, d'.readAnswers);
  }

  lemma NothingRan(d: Driver)
    ensures Ran(d, [], d)
  {
  }

  /** What running a list of actions amounts to: exactly the applied indices and released ids leave the maps,
      each with its answer, no channel is lost or used twice, and the core is at most compacted. */
  lemma {:induction false} RunActionsRan(s: Setup, d: Driver, actions: seq<Action>)
    requires RunActions(s, d, actions).Some?
    ensures Ran(d, actions, RunActions(s, d, actions).value)
    decreases |actions|
  {
    hide Ran, RunAction;
    if actions == [] {
      NothingRan(d);
    } else {
      var d1 := RunAction(s, d, actions[0]).value;
      RunActionRan(s, d, actions[0]);
      RunActionsRan(s, d1, actions[1..]);
      RanTwice(d, actions[0], d1, actions[1..], RunActions(s, d, actions).value);
      assert [actions[0]] + actions[1..] == actions;
    }
  }
}
