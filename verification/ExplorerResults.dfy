/** What follows from the invariant, for every interleaving of tests_special/random:
    one command per node, no deadlock, a bound on the length of every run, and the
    fate of a command that raises. */
module ExplorerResults {
  import opened Wrappers
  import opened WeightedDraw
  import opened RandomExplorer
  import opened ExplorerSafety

  // ---- one command per node ----

  /** A command is submitted only to a node whose future slot is empty. */
  lemma SubmitsToIdle(n: nat, es: seq<Event>, i: nat, c: Command, next: Next)
    requires Run(Initial(n), es).Some? && Run(Initial(n), es).value.place == Submit(i, c, next)
    ensures var nodes := Run(Initial(n), es).value.nodes;
            i < |nodes| == n && nodes[i].future.None? && Marked(nodes[i], Some(c))
  {
    RunInv(n, es);
    var s := Run(Initial(n), es).value;
    assert Owner(s, i) == Some(c);
  }

  /** A role marker is set exactly while a role command of that node is submitted
      and unfinished, raised, or next to be submitted; likewise for connections. */
  lemma MarkersMatchCommands(n: nat, es: seq<Event>, i: nat)
    requires Run(Initial(n), es).Some? && i < n
    ensures var s := Run(Initial(n), es).value;
            |s.nodes| == n &&
            var command := Owner(s, i);
            (s.nodes[i].marker.Some? <==> command == Some(Promote) || command == Some(Demote))
            && (forall j :: 0 <= j < |s.nodes[i].connections| ==>
                  (s.nodes[i].connections[j].marker.Some?
                   <==> command == Some(Connect(j)) || command == Some(Disconnect(j))))
  {
    RunInv(n, es);
    var s := Run(Initial(n), es).value;
    assert Marked(s.nodes[i], Owner(s, i));
  }

  /** A node never carries two markers. */
  lemma OneMarker(n: nat, es: seq<Event>, i: nat, j: nat, k: nat)
    requires Run(Initial(n), es).Some? && i < n && j < n && k < n
    ensures var s := Run(Initial(n), es).value;
            Square(s.nodes) && |s.nodes| == n
            && !(s.nodes[i].marker.Some? && s.nodes[i].connections[j].marker.Some?)
            && (s.nodes[i].connections[j].marker.Some? && s.nodes[i].connections[k].marker.Some? ==> j == k)
  {
    RunInv(n, es);
    var s := Run(Initial(n), es).value;
    assert Marked(s.nodes[i], Owner(s, i));
  }

  /** The main thread runs commands of its own, polls and writes, only on nodes
      that run no other; for a write no node runs any. */
  lemma MainThreadCommandsAlone(n: nat, es: seq<Event>, e: Event)
    requires Run(Initial(n), es).Some?
    ensures var s := Run(Initial(n), es).value;
            |s.nodes| == n && Square(s.nodes)
            && (MainStep(s, e).Some? && e.Write? ==> NoFutures(s.nodes))
            && (MainStep(s, e).Some? && e.Poll? ==>
                  s.place.Collect? && s.place.i < n && s.nodes[s.place.i].future.None?)
  {
    RunInv(n, es);
  }

  // ---- the pool is never short of threads ----

  lemma {:induction false} BusyBound(nodes: seq<Node>)
    ensures BusyCount(nodes) <= |nodes|
    ensures BusyCount(nodes) == |nodes| ==> forall i :: 0 <= i < |nodes| ==> Busy(nodes[i])
  {
    if nodes != [] {
      BusyBound(nodes[..|nodes| - 1]);
      assert forall i :: 0 <= i < |nodes| - 1 ==> nodes[..|nodes| - 1][i] == nodes[i];
    }
  }

  /** A queued command can be started at once: with a pool of as many threads as
      nodes, no command waits for a thread. */
  lemma PoolSuffices(s: State, i: nat)
    requires i < |s.nodes| && s.nodes[i].future.Some? && s.nodes[i].future.value.status == Queued
    ensures BusyCount(s.nodes) < |s.nodes| && WorkerStep(s, Start(i)).Some?
  {
    BusyBound(s.nodes);
    assert !Busy(s.nodes[i]);
  }

  /** An unsettled command can always move. */
  lemma WorkerCanMove(s: State, i: nat) returns (e: Event)
    requires i < |s.nodes| && s.nodes[i].future.Some? && !Settled(s.nodes[i].future.value)
    ensures IsWorkerEvent(e) && WorkerStep(s, e).Some?
  {
    match s.nodes[i].future.value.status
    case Queued =>
      PoolSuffices(s, i);
      e := Start(i);
    case Executing => e := Return(i);
    case Cleared => e := Complete(i);
  }

  // ---- no deadlock ----

  lemma ListedEnabled(nodes: seq<Node>, k: nat)
    requires Square(nodes) && k < |ListSteps(nodes)|
    ensures Enabled(nodes, ListSteps(nodes)[k].kind)
  {
    StepsEnabled(nodes, ClusterConnected(nodes), |nodes|, k);
  }

  lemma ChooseCanMove(s: State) returns (e: Event)
    requires Inv(s) && s.place.Choose?
    ensures !IsWorkerEvent(e) && MainStep(s, e).Some?
  {
    hide Enabled, ListSteps, BeginStep;
    var steps := ListSteps(s.nodes);
    if steps == [] || Sum(Weights(steps)) == 0 {
      e := Main;
    } else {
      e := DrawNumber(0);
      var k := Selected(Weights(steps), 0);
      ListedEnabled(s.nodes, k);
      BeginStepKeeps(s, steps[k].kind);
    }
  }

  /** The waits are the only places where the main thread depends on the workers. */
  lemma WaitCanMove(s: State) returns (e: Event)
    requires Inv(s) && (s.place.WaitFirst? || s.place.WaitAll?)
    ensures Step(s, e).Some?
  {
    if i: nat :| i < |s.nodes| && s.nodes[i].future.Some? && !Settled(s.nodes[i].future.value) {
      e := WorkerCanMove(s, i);
    } else {
      e := Main;
      if s.place.WaitFirst? {
        var i: nat :| i < |s.nodes| && s.nodes[i].future.Some?;
        assert Settled(s.nodes[i].future.value);
      }
    }
  }

  lemma NextEvent(s: State) returns (e: Event)
    requires Inv(s) && !s.place.Ended?
    ensures Step(s, e).Some?
  {
    match s.place
    case Choose => e := ChooseCanMove(s);
    case WaitFirst => e := WaitCanMove(s);
    case WaitAll(_) => e := WaitCanMove(s);
    case Collect(i, _) =>
      e := if i < |s.nodes| && s.nodes[i].future.None? then Poll(None) else Main;
    case CountPrimaries(i, _) =>
      e := if i < |s.nodes| && s.nodes[i].role == Primary then Write(true) else Main;
    case _ => e := Main;
  }

  /** No reachable state is stuck: until the main thread has ended some step is
      enabled, and after that the pool still brings every command to its end. */
  lemma NoDeadlock(n: nat, es: seq<Event>)
    requires Run(Initial(n), es).Some?
    ensures var s := Run(Initial(n), es).value;
            Square(s.nodes) && ((exists e :: Step(s, e).Some?) || (s.place.Ended? && AllSettled(s.nodes)))
  {
    RunInv(n, es);
    var s := Run(Initial(n), es).value;
    if !s.place.Ended? {
      var e := NextEvent(s);
    } else if i: nat :| i < |s.nodes| && s.nodes[i].future.Some? && !Settled(s.nodes[i].future.value) {
      var e := WorkerCanMove(s, i);
      assert Step(s, e).Some?;
    }
  }

  // ---- every run ends ----

  /** Statements that are left of a command. */
  function CommandLeft(n: Node): nat {
    if n.future.None? then 0
    else match n.future.value.status
      case Queued => 3
      case Executing => 2
      case Cleared => 1
      case Done => 0
      case Raised => 0
  }

  function WorkLeft(nodes: seq<Node>): nat {
    if nodes == [] then 0 else WorkLeft(nodes[..|nodes| - 1]) + CommandLeft(nodes[|nodes| - 1])
  }

  lemma {:induction false} WorkLeftUpdate(nodes: seq<Node>, i: nat, node: Node)
    requires i < |nodes|
    ensures WorkLeft(nodes[i := node]) == WorkLeft(nodes) - CommandLeft(nodes[i]) + CommandLeft(node)
  {
    var k := |nodes| - 1;
    if i == k {
      assert nodes[i := node][..k] == nodes[..k];
    } else {
      assert nodes[i := node][..k] == nodes[..k][i := node];
      WorkLeftUpdate(nodes[..k], i, node);
    }
  }

  /** Statements the main thread needs at most to get from `AfterCollect(c)` to its
      sleep. */
  function AfterCollectLeft(c: Caller, n: nat): nat {
    match c
    case MainLoop => 13 * n + 21
    case WaitConnect(round, _, _) =>
      if round < CONNECT_ROUNDS then 1 + (CONNECT_ROUNDS - 1 - round) * (n + 2) else 1
    case BeforeDemote => 11 * n + 10
    case BeforePromote => 7 * n + 6
    case BeforeCount => 3 * n + 2
  }

  function Rest(n: nat, i: nat): nat {
    if i < n then n - i else 0
  }

  /** The same from any place. */
  function MainLeft(p: Place, n: nat): nat {
    match p
    case Check(i, c) => AfterCollectLeft(c, n) + n + 2 + Rest(n, i)
    case Collect(i, c) => AfterCollectLeft(c, n) + 1 + Rest(n, i)
    case Choose => 13 * n + 21
    case Submit(_, _, next) => 1 + SubmitLeft(next, n)
    case WaitFirst => 1
    case WaitAll(c) => AfterCollectLeft(c, n) + 2 * n + 3
    case TestConnect(round, f, t) => AfterCollectLeft(WaitConnect(round, f, t), n)
    case DemoteAll(i) => 9 * n + 10 + 2 * Rest(n, i)
    case PromoteAll(i) => 5 * n + 6 + 2 * Rest(n, i)
    case CountPrimaries(i, _) => 2 * n + 2 + Rest(n, i)
    case FinalDemote(i) => 1 + 2 * Rest(n, i)
    case Sleep => 0
    case Ended(_) => 0
  }

  function SubmitLeft(next: Next, n: nat): nat {
    match next
    case ToSleep => 0
    case ToDemote(i) => 9 * n + 10 + 2 * Rest(n, i)
    case ToPromote(i) => 5 * n + 6 + 2 * Rest(n, i)
    case ToFinalDemote(i) => 1 + 2 * Rest(n, i)
  }

  function RoundsLeft(s: State): nat {
    if s.place.Ended? || s.round >= ROUNDS then 0 else ROUNDS - s.round
  }

  /** Statements of that many rounds and a part of one. */
  function Statements(rounds: nat, left: nat, n: nat): nat {
    rounds * (15 * n + 24) + left
  }

  function TotalLeft(s: State): nat {
    4 * Statements(RoundsLeft(s), MainLeft(s.place, |s.nodes|), |s.nodes|) + WorkLeft(s.nodes)
  }

  lemma MainWork(s: State, e: Event)
    requires Square(s.nodes) && MainStep(s, e).Some?
    ensures WorkLeft(MainStep(s, e).value.nodes) <= WorkLeft(s.nodes) + 3
  {
    hide WorkLeft, BeginStep, ListSteps;
    var t := MainStep(s, e).value;
    match s.place
    case Choose => ChooseWork(s, e);
    case Check(i, _) => if i < |s.nodes| { WorkLeftUpdate(s.nodes, i, t.nodes[i]); }
    case Collect(i, _) => if i < |s.nodes| { WorkLeftUpdate(s.nodes, i, t.nodes[i]); }
    case Submit(i, _, _) => WorkLeftUpdate(s.nodes, i, t.nodes[i]);
    case DemoteAll(i) => if i < |s.nodes| { WorkLeftUpdate(s.nodes, i, t.nodes[i]); }
    case PromoteAll(i) => if i < |s.nodes| { WorkLeftUpdate(s.nodes, i, t.nodes[i]); }
    case FinalDemote(i) => if i < |s.nodes| { WorkLeftUpdate(s.nodes, i, t.nodes[i]); }
    case _ =>
  }

  lemma BeginStepWork(s: State, kind: StepKind)
    requires BeginStep(s, kind).Some?
    ensures WorkLeft(BeginStep(s, kind).value.nodes) == WorkLeft(s.nodes)
  {
    hide WorkLeft;
    var t := BeginStep(s, kind).value;
    match kind
    case DoPrimary(i) => WorkLeftUpdate(s.nodes, i, t.nodes[i]);
    case DoSecondary(i) => WorkLeftUpdate(s.nodes, i, t.nodes[i]);
    case DoDisconnect(f, _) => WorkLeftUpdate(s.nodes, f, t.nodes[f]);
    case DoConnect(f, _) => WorkLeftUpdate(s.nodes, f, t.nodes[f]);
    case _ =>
  }

  lemma ChooseWork(s: State, e: Event)
    requires Square(s.nodes) && s.place.Choose? && MainStep(s, e).Some?
    ensures WorkLeft(MainStep(s, e).value.nodes) == WorkLeft(s.nodes)
    ensures |MainStep(s, e).value.nodes| == |s.nodes|
  {
    hide BeginStep, ListSteps, WorkLeft;
    var steps := ListSteps(s.nodes);
    if e.DrawNumber? {
      var kind := steps[Selected(Weights(steps), e.drawn)].kind;
      BeginStepWork(s, kind);
      BeginStepNodes(s, kind);
    }
  }

  lemma BeginStepNodes(s: State, kind: StepKind)
    requires BeginStep(s, kind).Some?
    ensures var t := BeginStep(s, kind).value;
            |t.nodes| == |s.nodes| && t.round == s.round && !t.place.Ended?
            && MainLeft(t.place, |s.nodes|) < MainLeft(Choose, |s.nodes|)
  {
  }

  /** Within a round the place only moves forward. */
  ghost predicate Forward(s: State, t: State) {
    t.round == s.round && |t.nodes| == |s.nodes|
    && (t.place.Ended? || MainLeft(t.place, |s.nodes|) < MainLeft(s.place, |s.nodes|))
    && (t.place.Ended? ==> MainLeft(t.place, |s.nodes|) == 0)
  }

  lemma CheckForward(s: State, e: Event)
    requires Square(s.nodes) && MainStep(s, e).Some? && (s.place.Check? || s.place.Submit?)
    ensures Forward(s, MainStep(s, e).value)
  {
  }

  lemma CollectForward(s: State, e: Event)
    requires Square(s.nodes) && MainStep(s, e).Some? && s.place.Collect?
    ensures Forward(s, MainStep(s, e).value)
  {
  }

  lemma LoopsForward(s: State, e: Event)
    requires Square(s.nodes) && MainStep(s, e).Some?
    requires s.place.DemoteAll? || s.place.PromoteAll? || s.place.FinalDemote?
    ensures Forward(s, MainStep(s, e).value)
  {
  }

  lemma WaitsForward(s: State, e: Event)
    requires Square(s.nodes) && MainStep(s, e).Some?
    requires s.place.WaitFirst? || s.place.WaitAll? || s.place.CountPrimaries?
    ensures Forward(s, MainStep(s, e).value)
  {
  }

  lemma TestForward(s: State, e: Event)
    requires Square(s.nodes) && MainStep(s, e).Some? && s.place.TestConnect?
    ensures Forward(s, MainStep(s, e).value)
  {
  }

  lemma ChooseForward(s: State, e: Event)
    requires Square(s.nodes) && s.place.Choose? && MainStep(s, e).Some?
    ensures Forward(s, MainStep(s, e).value)
  {
    hide BeginStep, ListSteps;
    var steps := ListSteps(s.nodes);
    if e.DrawNumber? {
      BeginStepNodes(s, steps[Selected(Weights(steps), e.drawn)].kind);
    }
  }

  lemma MainMoves(s: State, e: Event)
    requires Square(s.nodes) && MainStep(s, e).Some? && !s.place.Sleep?
    ensures Forward(s, MainStep(s, e).value)
  {
    hide Forward;
    match s.place
    case Choose => ChooseForward(s, e);
    case Check(_, _) => CheckForward(s, e);
    case Submit(_, _, _) => CheckForward(s, e);
    case Collect(_, _) => CollectForward(s, e);
    case DemoteAll(_) => LoopsForward(s, e);
    case PromoteAll(_) => LoopsForward(s, e);
    case FinalDemote(_) => LoopsForward(s, e);
    case TestConnect(_, _, _) => TestForward(s, e);
    case Ended(_) =>
    case _ => WaitsForward(s, e);
  }

  lemma Weigh(rounds: nat, rounds': nat, left: nat, left': nat, n: nat)
    requires (rounds' == rounds && left' < left) || (rounds' < rounds && left' < left + 15 * n + 24)
    ensures Statements(rounds', left', n) < Statements(rounds, left, n)
  {
    if rounds' < rounds {
      FewerRounds(rounds', rounds, 15 * n + 24);
    }
  }

  lemma {:induction false} FewerRounds(a: nat, b: nat, cost: nat)
    requires a < b
    ensures a * cost + cost <= b * cost
    decreases b
  {
    if a + 1 < b {
      FewerRounds(a, b - 1, cost);
      assert b * cost == (b - 1) * cost + cost;
    } else {
      assert b == a + 1;
    }
  }

  /** A statement of the main thread uses up one of its own and adds at most one
      command, of three. */
  lemma MainDecreases(s: State, e: Event)
    requires Square(s.nodes) && MainStep(s, e).Some? && s.round < ROUNDS
    ensures TotalLeft(MainStep(s, e).value) < TotalLeft(s)
    ensures MainStep(s, e).value.place.Ended? || MainStep(s, e).value.round < ROUNDS
  {
    hide WorkLeft, MainLeft, ListSteps, BeginStep, Statements;
    var t := MainStep(s, e).value;
    MainWork(s, e);
    if s.place.Sleep? {
      SleepLeft(s, e);
    } else {
      MainMoves(s, e);
    }
    Weigh(RoundsLeft(s), RoundsLeft(t), MainLeft(s.place, |s.nodes|), MainLeft(t.place, |s.nodes|), |s.nodes|);
  }

  lemma SleepLeft(s: State, e: Event)
    requires Square(s.nodes) && MainStep(s, e).Some? && s.round < ROUNDS && s.place.Sleep?
    ensures var t := MainStep(s, e).value;
            t.nodes == s.nodes && RoundsLeft(t) < RoundsLeft(s)
            && MainLeft(t.place, |s.nodes|) < MainLeft(s.place, |s.nodes|) + 15 * |s.nodes| + 24
  {
  }

  lemma WorkerDecreases(s: State, e: Event)
    requires WorkerStep(s, e).Some?
    ensures TotalLeft(WorkerStep(s, e).value) < TotalLeft(s)
  {
    hide WorkLeft, MainLeft, Statements;
    WorkLeftUpdate(s.nodes, e.i, WorkerStep(s, e).value.nodes[e.i]);
  }

  lemma {:induction false} RunUsesUp(n: nat, es: seq<Event>)
    requires Run(Initial(n), es).Some?
    ensures var s := Run(Initial(n), es).value;
            |es| + TotalLeft(s) <= TotalLeft(Initial(n)) && (s.place.Ended? || s.round < ROUNDS)
  {
    hide WorkLeft, MainLeft, MainStep, WorkerStep, TotalLeft;
    if es != [] {
      var before := Run(Initial(n), es[..|es| - 1]).value;
      var e := es[|es| - 1];
      RunUsesUp(n, es[..|es| - 1]);
      if IsWorkerEvent(e) {
        WorkerDecreases(before, e);
        WorkerLeavesPlace(before, e);
      } else {
        StillGoing(before, e);
        MainDecreases(before, e);
      }
    }
  }

  lemma WorkerLeavesPlace(s: State, e: Event)
    requires WorkerStep(s, e).Some?
    ensures WorkerStep(s, e).value.place == s.place && WorkerStep(s, e).value.round == s.round
  {
  }

  lemma StillGoing(s: State, e: Event)
    requires Square(s.nodes) && MainStep(s, e).Some?
    ensures !s.place.Ended?
  {
  }

  lemma {:induction false} NoWorkAtFirst(n: nat, k: nat)
    requires k <= n
    ensures WorkLeft(Initial(n).nodes[..k]) == 0
  {
    if k > 0 {
      NoWorkAtFirst(n, k - 1);
      assert Initial(n).nodes[..k][..k - 1] == Initial(n).nodes[..k - 1];
    }
  }

  /** The explorer always terminates: with no deadlock, every run that goes on as
      long as it can ends, within this many statements. */
  lemma EveryRunEnds(n: nat, es: seq<Event>)
    requires Run(Initial(n), es).Some?
    ensures |es| <= 4 * (101 * (15 * n + 24))
  {
    hide Run, WorkLeft, Initial, InitialNode;
    RunUsesUp(n, es);
    InitialLeft(n);
  }

  lemma InitialLeft(n: nat)
    ensures TotalLeft(Initial(n)) <= 4 * (101 * (15 * n + 24))
  {
    hide WorkLeft;
    NoWorkAtFirst(n, n);
    assert Initial(n).nodes[..n] == Initial(n).nodes;
    assert RoundsLeft(Initial(n)) == 100;
  }

  // ---- roles and the draw ----

  predicate KnownRole(r: Role) {
    r == Primary || r == Secondary
  }

  /** The answer to a poll, if any, is one of the two ordinary roles. */
  predicate OrdinaryAnswer(e: Event) {
    e.Poll? && e.answer.Some? ==> KnownRole(e.answer.value.0)
  }

  /** Every idle node below k has been polled. */
  ghost predicate RolesKnown(nodes: seq<Node>, k: nat) {
    forall i :: 0 <= i < |nodes| && i < k && nodes[i].future.None? ==> KnownRole(nodes[i].role)
  }

  ghost predicate RolesInv(s: State) {
    match s.place
    case Collect(i, _) => RolesKnown(s.nodes, i)
    case Choose => RolesKnown(s.nodes, |s.nodes|)
    case Ended(outcome) => outcome == Stopped ==> s.nodes == []
    case _ => true
  }

  lemma RoleStepFirst(nodes: seq<Node>, total: nat, i: nat)
    requires Square(nodes) && i < |nodes| && nodes[i].future.None? && KnownRole(nodes[i].role)
    ensures NodeSteps(nodes, total, i) != [] && NodeSteps(nodes, total, i)[0].weight > 0
  {
    hide LinksUpTo;
  }

  /** An idle node with an ordinary role has a step of positive weight. */
  lemma {:induction false} RoleGivesStep(nodes: seq<Node>, total: nat, i: nat, k: nat)
    requires Square(nodes) && i < k <= |nodes| && nodes[i].future.None? && KnownRole(nodes[i].role)
    ensures exists j :: 0 <= j < |StepsUpTo(nodes, total, k)| && StepsUpTo(nodes, total, k)[j].weight > 0
    decreases k
  {
    hide NodeSteps;
    var before := StepsUpTo(nodes, total, k - 1);
    if i == k - 1 {
      RoleStepFirst(nodes, total, i);
      assert StepsUpTo(nodes, total, k)[|before|].weight > 0;
    } else {
      RoleGivesStep(nodes, total, i, k - 1);
      var j :| 0 <= j < |before| && before[j].weight > 0;
      assert StepsUpTo(nodes, total, k)[j] == before[j];
    }
  }

  /** Where a listed step comes from. */
  lemma {:induction false} StepFromIdle(nodes: seq<Node>, total: nat, k: nat) returns (i: nat)
    requires Square(nodes) && k <= |nodes| && StepsUpTo(nodes, total, k) != [] && total == 0
    ensures i < k && nodes[i].future.None?
    decreases k
  {
    hide RoleSteps, LinksUpTo;
    if nodes[k - 1].future.None? {
      i := k - 1;
    } else {
      i := StepFromIdle(nodes, total, k - 1);
    }
  }

  /** With the roles of the idle nodes known, a non-empty list of steps has a
      positive total weight, and the list is empty only when every node is busy. */
  lemma KnownRolesGivePositiveTotal(nodes: seq<Node>)
    requires Square(nodes) && RolesKnown(nodes, |nodes|)
    ensures ListSteps(nodes) != [] ==> Sum(Weights(ListSteps(nodes))) > 0
    ensures ListSteps(nodes) == [] ==> forall i :: 0 <= i < |nodes| ==> nodes[i].future.Some?
  {
    hide NodeSteps;
    var total := ClusterConnected(nodes);
    var steps := ListSteps(nodes);
    PositiveTotal(Weights(steps));
    if i: nat :| i < |nodes| && nodes[i].future.None? {
      RoleGivesStep(nodes, total, i, |nodes|);
      var j :| 0 <= j < |steps| && steps[j].weight > 0;
      assert Weights(steps)[j] > 0;
    } else if steps != [] {
      if total == 0 {
        var i := StepFromIdle(nodes, total, |nodes|);
      } else {
        ConcurrentFirst(nodes, total, |nodes|);
        assert Weights(steps)[0] > 0;
      }
    }
  }

  lemma {:induction false} ConcurrentFirst(nodes: seq<Node>, total: nat, k: nat)
    requires Square(nodes) && k <= |nodes| && total > 0
    ensures StepsUpTo(nodes, total, k) != [] && StepsUpTo(nodes, total, k)[0] == WeightedStep(500, DoConcurrentPrimary)
    decreases k
  {
    if k > 0 {
      ConcurrentFirst(nodes, total, k - 1);
    }
  }

  lemma RolesKept(s: State, e: Event)
    requires Square(s.nodes) && MainStep(s, e).Some? && RolesInv(s) && OrdinaryAnswer(e)
    ensures RolesInv(MainStep(s, e).value)
  {
    hide ListSteps, BeginStep;
    var t := MainStep(s, e).value;
    match s.place
    case Collect(i, c) =>
      assert i < |s.nodes| && e.Poll? && e.answer.Some? ==>
          forall k :: 0 <= k < |s.nodes| && k != i ==> t.nodes[k] == s.nodes[k];
    case Choose => ChooseRoles(s, e);
    case _ =>
  }

  lemma ChooseRoles(s: State, e: Event)
    requires Square(s.nodes) && MainStep(s, e).Some? && RolesInv(s) && s.place.Choose?
    ensures RolesInv(MainStep(s, e).value)
  {
    hide ListSteps;
    KnownRolesGivePositiveTotal(s.nodes);
    assert NoFutures(s.nodes) && (forall i :: 0 <= i < |s.nodes| ==> s.nodes[i].future.Some?) ==> s.nodes == [] by {
      if s.nodes != [] && NoFutures(s.nodes) {
        assert s.nodes[0].future.None?;
      }
    }
  }

  lemma WorkerRoles(s: State, e: Event)
    requires WorkerStep(s, e).Some? && RolesInv(s)
    ensures RolesInv(WorkerStep(s, e).value)
  {
    var t := WorkerStep(s, e).value;
    assert forall k :: 0 <= k < |s.nodes| && k != e.i ==> t.nodes[k] == s.nodes[k];
  }

  lemma {:induction false} RunRoles(n: nat, es: seq<Event>)
    requires Run(Initial(n), es).Some? && forall k :: 0 <= k < |es| ==> OrdinaryAnswer(es[k])
    ensures RolesInv(Run(Initial(n), es).value)
  {
    hide MainStep, WorkerStep, RolesInv, OrdinaryAnswer;
    if es == [] {
      InitialRoles(n);
    } else {
      var e := es[|es| - 1];
      var init := es[..|es| - 1];
      assert forall k :: 0 <= k < |init| ==> init[k] == es[k];
      RunRoles(n, init);
      assert OrdinaryAnswer(es[|es| - 1]);
      if IsWorkerEvent(e) {
        WorkerRoles(Run(Initial(n), init).value, e);
      } else {
        RolesKept(Run(Initial(n), init).value, e);
      }
    }
  }

  lemma InitialRoles(n: nat)
    ensures RolesInv(Initial(n))
  {
  }

  /** When every poll answers Primary or Secondary, the explorer never finds nothing
      to do and nothing to wait for, and never draws from a total of zero. */
  lemma NeverStopsEarly(n: nat, es: seq<Event>)
    requires n > 0 && Run(Initial(n), es).Some? && forall k :: 0 <= k < |es| ==> OrdinaryAnswer(es[k])
    ensures var s := Run(Initial(n), es).value;
            Square(s.nodes) && s.place != Ended(Stopped)
            && (s.place.Choose? && ListSteps(s.nodes) != [] ==> Sum(Weights(ListSteps(s.nodes))) > 0)
  {
    hide ListSteps, Run;
    RunInv(n, es);
    RunRoles(n, es);
    var s := Run(Initial(n), es).value;
    if s.place.Choose? {
      KnownRolesGivePositiveTotal(s.nodes);
    }
  }

  // ---- commands that raise ----

  /** The main thread is about to look at node i, or has failed. */
  ghost predicate Doomed(s: State, i: nat) {
    i < |s.nodes| && Square(s.nodes)
    && s.nodes[i].future.Some? && s.nodes[i].future.value.status == Raised
    && ((s.place.Check? && s.place.i <= i) || s.place == Ended(Failed))
  }

  /** A command that has raised when check_for_completion begins ends the run:
      nothing more is chosen or submitted, whatever else happens. */
  lemma {:induction false} RaisedEndsRun(s: State, es: seq<Event>, i: nat)
    requires Doomed(s, i) && Run(s, es).Some?
    ensures Doomed(Run(s, es).value, i)
  {
    hide Doomed, Step;
    if es != [] {
      RaisedEndsRun(s, es[..|es| - 1], i);
      DoomedStays(Run(s, es[..|es| - 1]).value, es[|es| - 1], i);
    }
  }

  lemma DoomedStays(s: State, e: Event, i: nat)
    requires Doomed(s, i) && Square(s.nodes) && Step(s, e).Some?
    ensures Doomed(Step(s, e).value, i)
  {
  }

  // A command that raises after the last check_for_completion, on the other hand,
  // is never noticed.  The next lemmas build such a run with one node.

  function Single(future: Option<Future>, role: Role, marker: Option<RoleMarker>, place: Place, round: nat): State {
    State([Node(future, role, marker, [Connection(None, UnsetLink)])], place, round)
  }

  ghost predicate Reaches(es: seq<Event>, s: State) {
    Run(Initial(1), es) == Some(s) && Square(s.nodes)
  }

  lemma Then(es: seq<Event>, s: State, e: Event, t: State)
    requires Reaches(es, s) && Step(s, e) == Some(t) && Square(t.nodes)
    ensures Reaches(es + [e], t)
  {
    assert (es + [e])[..|es|] == es;
  }

  /** Two states whose only nodes are equal, by way of an update of that node. */
  lemma OneNode(s: State, t: State)
    requires |s.nodes| == |t.nodes| == 1
    ensures s.nodes[0 := t.nodes[0]] == t.nodes
  {
  }

  lemma OneIdleStep()
    ensures ListSteps(Single(None, Secondary, None, Choose, 0).nodes) == [WeightedStep(50, DoPrimary(0))]
    ensures Weights([WeightedStep(50, DoPrimary(0))]) == [50]
    ensures Sum([50]) == 50 && Selected([50], 0) == 0
  {
    var nodes := Single(None, Secondary, None, Choose, 0).nodes;
    assert ConnectedUpTo(nodes[0], 0, 1) == 0;
    assert nodes[..0] == [];
    assert ClusterConnected(nodes) == 0;
    assert LinksUpTo(nodes, 0, 0, 1) == [];
    assert NodeSteps(nodes, 0, 0) == [WeightedStep(50, DoPrimary(0))];
    var ws: seq<nat> := [50];
    assert ws[..0] == [];
  }

  lemma PollAndSubmit(es: seq<Event>, role: Role, r: nat) returns (es': seq<Event>)
    requires Reaches(es, Single(None, role, None, Check(1, MainLoop), r))
    ensures Reaches(es', Single(Some(Future(Promote, Queued)), Secondary, Some(PrimaryRunning), Sleep, r))
  {
    hide Run, ListSteps, Selected, Sum, Weights, Reaches;
    var s0 := Single(None, role, None, Check(1, MainLoop), r);
    var s1 := Single(None, role, None, Collect(0, MainLoop), r);
    var s2 := Single(None, Secondary, None, Collect(1, MainLoop), r);
    var s3 := Single(None, Secondary, None, Choose, r);
    var s4 := Single(None, Secondary, Some(PrimaryRunning), Submit(0, Promote, ToSleep), r);
    var s5 := Single(Some(Future(Promote, Queued)), Secondary, Some(PrimaryRunning), Sleep, r);
    OneNode(s0, s1);
    Then(es, s0, Main, s1);
    OneNode(s1, s2);
    assert Polled(s1.nodes[0], Secondary, []).connections == [Connection(None, UnsetLink)];
    Then(es + [Main], s1, Poll(Some((Secondary, []))), s2);
    es' := es + [Main] + [Poll(Some((Secondary, [])))];
    OneNode(s2, s3);
    Then(es', s2, Main, s3);
    OneIdleStep();
    OneNode(s3, s4);
    Then(es' + [Main], s3, DrawNumber(0), s4);
    OneNode(s4, s5);
    Then(es' + [Main] + [DrawNumber(0)], s4, Main, s5);
    es' := es' + [Main] + [DrawNumber(0)] + [Main];
  }

  lemma CommandReturns(es: seq<Event>, r: nat) returns (es': seq<Event>)
    requires Reaches(es, Single(Some(Future(Promote, Queued)), Secondary, Some(PrimaryRunning), Sleep, r))
    ensures Reaches(es', Single(Some(Future(Promote, Done)), Secondary, None, Sleep, r))
  {
    hide Run, Reaches;
    var s0 := Single(Some(Future(Promote, Queued)), Secondary, Some(PrimaryRunning), Sleep, r);
    var s1 := Single(Some(Future(Promote, Executing)), Secondary, Some(PrimaryRunning), Sleep, r);
    var s2 := Single(Some(Future(Promote, Cleared)), Secondary, None, Sleep, r);
    var s3 := Single(Some(Future(Promote, Done)), Secondary, None, Sleep, r);
    PoolSuffices(s0, 0);
    OneNode(s0, s1);
    Then(es, s0, Start(0), s1);
    OneNode(s1, s2);
    Then(es + [Start(0)], s1, Return(0), s2);
    OneNode(s2, s3);
    Then(es + [Start(0)] + [Return(0)], s2, Complete(0), s3);
    es' := es + [Start(0)] + [Return(0)] + [Complete(0)];
  }

  lemma NextRound(es: seq<Event>, r: nat) returns (es': seq<Event>)
    requires Reaches(es, Single(Some(Future(Promote, Done)), Secondary, None, Sleep, r))
    requires r + 1 < ROUNDS
    ensures Reaches(es', Single(None, Secondary, None, Check(1, MainLoop), r + 1))
  {
    hide Run, Reaches;
    var s3 := Single(Some(Future(Promote, Done)), Secondary, None, Sleep, r);
    var s4 := Single(Some(Future(Promote, Done)), Secondary, None, Check(0, MainLoop), r + 1);
    var s5 := Single(None, Secondary, None, Check(1, MainLoop), r + 1);
    OneNode(s3, s4);
    Then(es, s3, Main, s4);
    OneNode(s4, s5);
    Then(es + [Main], s4, Main, s5);
    es' := es + [Main] + [Main];
  }

  lemma {:induction false} Rounds(r: nat) returns (es: seq<Event>)
    requires r < ROUNDS
    ensures Reaches(es, Single(Some(Future(Promote, Queued)), Secondary, Some(PrimaryRunning), Sleep, r))
  {
    hide Reaches, Run;
    if r == 0 {
      es := FirstCheck();
      es := PollAndSubmit(es, Unset, 0);
    } else {
      es := Rounds(r - 1);
      es := CommandReturns(es, r - 1);
      es := NextRound(es, r - 1);
      es := PollAndSubmit(es, Secondary, r);
    }
  }

  lemma FirstCheck() returns (es: seq<Event>)
    ensures Reaches(es, Single(None, Unset, None, Check(1, MainLoop), 0))
  {
    var s := Single(None, Unset, None, Check(0, MainLoop), 0);
    assert InitialNode(1).connections == [Connection(None, UnsetLink)];
    assert Initial(1).nodes == s.nodes;
    Then([], s, Main, Single(None, Unset, None, Check(1, MainLoop), 0));
    es := [] + [Main];
  }

  /** The promise that a raising command ends the run fails in the last round: there
      is a run that finishes normally although its last command raised. */
  lemma LastFailureUnnoticed()
    ensures var raised := Some(Future(Promote, Raised));
            exists es :: Reaches(es, Single(raised, Secondary, Some(PrimaryRunning), Ended(Finished), ROUNDS))
  {
    hide Reaches, Run;
    var es := Rounds(ROUNDS - 1);
    var r: nat := ROUNDS - 1;
    var s0 := Single(Some(Future(Promote, Queued)), Secondary, Some(PrimaryRunning), Sleep, r);
    var s1 := Single(Some(Future(Promote, Executing)), Secondary, Some(PrimaryRunning), Sleep, r);
    var s2 := Single(Some(Future(Promote, Raised)), Secondary, Some(PrimaryRunning), Sleep, r);
    var s3 := Single(Some(Future(Promote, Raised)), Secondary, Some(PrimaryRunning), Ended(Finished), ROUNDS);
    PoolSuffices(s0, 0);
    OneNode(s0, s1);
    Then(es, s0, Start(0), s1);
    OneNode(s1, s2);
    Then(es + [Start(0)], s1, Fail(0), s2);
    OneNode(s2, s3);
    Then(es + [Start(0)] + [Fail(0)], s2, Main, s3);
  }
}
