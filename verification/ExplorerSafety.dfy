/** What every run of tests_special/random keeps, whatever the interleaving of the
    main thread and the workers. */
module ExplorerSafety {
  import opened Wrappers
  import opened WeightedDraw
  import opened RandomExplorer

  // ---- runs ----

  function Run(s: State, es: seq<Event>): Option<State> {
    if es == [] then (if Square(s.nodes) then Some(s) else None)
    else
      var before := Run(s, es[..|es| - 1]);
      if before.None? || !Square(before.value.nodes) then None else Step(before.value, es[|es| - 1])
  }

  // ---- the invariant ----

  /** The command that node i is responsible for: submitted and unfinished, or
      raised, or about to be submitted. */
  ghost function Owner(s: State, i: nat): Option<Command>
    requires i < |s.nodes|
  {
    var f := s.nodes[i].future;
    if f.Some? && (f.value.status == Queued || f.value.status == Executing || f.value.status == Raised)
    then Some(f.value.command)
    else if s.place.Submit? && s.place.i == i then Some(s.place.command)
    else None
  }

  function RoleMarkerOf(c: Option<Command>): Option<RoleMarker> {
    if c == Some(Promote) then Some(PrimaryRunning)
    else if c == Some(Demote) then Some(SecondaryRunning)
    else None
  }

  function LinkMarkerOf(c: Option<Command>, j: nat): Option<ConnectMarker> {
    if c == Some(Connect(j)) then Some(ConnectRunning)
    else if c == Some(Disconnect(j)) then Some(DisconnectRunning)
    else None
  }

  /** The node carries the marker of that command and no other. */
  ghost predicate Marked(n: Node, c: Option<Command>) {
    n.marker == RoleMarkerOf(c)
    && forall j :: 0 <= j < |n.connections| ==> n.connections[j].marker == LinkMarkerOf(c, j)
  }

  ghost predicate NodesInv(s: State) {
    Square(s.nodes) && forall i :: 0 <= i < |s.nodes| ==> Marked(s.nodes[i], Owner(s, i))
  }

  ghost predicate IdleFrom(nodes: seq<Node>, k: nat) {
    forall i :: k <= i < |nodes| ==> nodes[i].future.None?
  }

  ghost predicate IdleBelow(nodes: seq<Node>, k: nat) {
    forall i :: 0 <= i < k && i < |nodes| ==> nodes[i].future.None?
  }

  /** Called from within step_concurrent_primary. */
  predicate Concurrent(c: Caller) {
    c.BeforeDemote? || c.BeforePromote? || c.BeforeCount?
  }

  ghost predicate PlaceInv(nodes: seq<Node>, p: Place) {
    match p
    case Check(i, caller) =>
      caller == MainLoop || (Concurrent(caller) && IdleBelow(nodes, i) && AllSettled(nodes))
    case Collect(i, caller) => Concurrent(caller) ==> IdleFrom(nodes, 0)
    case Submit(i, _, next) =>
      i < |nodes| && nodes[i].future.None?
      && (next.ToSleep? || (next.i == i + 1 && IdleFrom(nodes, i)))
    case WaitFirst => !NoFutures(nodes)
    case WaitAll(caller) => Concurrent(caller)
    case DemoteAll(i) => IdleFrom(nodes, i)
    case PromoteAll(i) => IdleFrom(nodes, i)
    case CountPrimaries(_, _) => IdleFrom(nodes, 0)
    case FinalDemote(i) => IdleFrom(nodes, i)
    case _ => true
  }

  ghost predicate Inv(s: State) {
    NodesInv(s) && PlaceInv(s.nodes, s.place)
  }

  // ---- the main thread keeps it ----

  lemma GoToKeeps(s: State, p: Place)
    requires NodesInv(s) && !s.place.Submit? && !p.Submit?
    ensures NodesInv(GoTo(s, p))
  {
    assert forall i :: 0 <= i < |s.nodes| ==> Owner(GoTo(s, p), i) == Owner(s, i);
  }

  lemma BeginKeeps(s: State, i: nat, c: Command, next: Next)
    requires NodesInv(s) && !s.place.Submit? && i < |s.nodes| && s.nodes[i].future.None?
    ensures NodesInv(Begin(s, i, c, next))
  {
    var t := Begin(s, i, c, next);
    assert Marked(s.nodes[i], None);
    forall k | 0 <= k < |s.nodes|
      ensures Marked(t.nodes[k], Owner(t, k))
    {
      if k != i {
        assert t.nodes[k] == s.nodes[k] && Owner(t, k) == Owner(s, k);
      }
    }
  }

  lemma SubmitKeeps(s: State, e: Event)
    requires Inv(s) && s.place.Submit? && MainStep(s, e).Some?
    ensures Inv(MainStep(s, e).value)
  {
    var t := MainStep(s, e).value;
    var i := s.place.i;
    assert forall k :: 0 <= k < |s.nodes| && k != i ==> t.nodes[k] == s.nodes[k];
    assert forall k :: 0 <= k < |s.nodes| ==> Owner(t, k) == Owner(s, k);
  }

  lemma CheckKeeps(s: State, e: Event)
    requires Inv(s) && s.place.Check? && MainStep(s, e).Some?
    ensures Inv(MainStep(s, e).value)
  {
    var i, caller := s.place.i, s.place.caller;
    var t := MainStep(s, e).value;
    if i < |s.nodes| && s.nodes[i].future.Some? && s.nodes[i].future.value.status == Done {
      assert forall k :: 0 <= k < |s.nodes| && k != i ==> t.nodes[k] == s.nodes[k];
      assert forall k :: 0 <= k < |s.nodes| ==> Owner(t, k) == Owner(s, k);
    } else {
      GoToKeeps(s, t.place);
    }
  }

  lemma CollectKeeps(s: State, e: Event)
    requires Inv(s) && s.place.Collect? && MainStep(s, e).Some?
    ensures Inv(MainStep(s, e).value)
  {
    var i := s.place.i;
    var t := MainStep(s, e).value;
    if i < |s.nodes| && s.nodes[i].future.None? && e.Poll? && e.answer.Some? {
      assert forall k :: 0 <= k < |s.nodes| && k != i ==> t.nodes[k] == s.nodes[k];
      assert forall k :: 0 <= k < |s.nodes| ==> Owner(t, k) == Owner(s, k);
    } else {
      GoToKeeps(s, t.place);
    }
  }

  /** A listed command step is for a node that is not busy. */
  ghost predicate Enabled(nodes: seq<Node>, kind: StepKind) {
    match kind
    case DoConcurrentPrimary => true
    case DoPrimary(i) => i < |nodes| && nodes[i].future.None?
    case DoSecondary(i) => i < |nodes| && nodes[i].future.None?
    case DoDisconnect(f, t) => f < |nodes| && t < |nodes| && f != t && nodes[f].future.None?
    case DoConnect(f, t) => f < |nodes| && t < |nodes| && f != t && nodes[f].future.None?
    case DoWaitConnect(f, t) =>
      f < |nodes| && t < |nodes| && f != t && nodes[f].future.None? && nodes[t].future.None?
  }

  lemma {:induction false} LinksEnabled(nodes: seq<Node>, total: nat, i: nat, j: nat, k: nat)
    requires Square(nodes) && i < |nodes| && j <= |nodes| && nodes[i].future.None?
    requires k < |LinksUpTo(nodes, total, i, j)|
    ensures Enabled(nodes, LinksUpTo(nodes, total, i, j)[k].kind)
    decreases j
  {
    hide LinkSteps, Enabled;
    var before := LinksUpTo(nodes, total, i, j - 1);
    if k < |before| {
      LinksEnabled(nodes, total, i, j - 1, k);
    } else {
      LinkEnabled(nodes, total, i, j - 1, k - |before|);
    }
  }

  lemma LinkEnabled(nodes: seq<Node>, total: nat, i: nat, j: nat, k: nat)
    requires Square(nodes) && i < |nodes| && j < |nodes| && nodes[i].future.None?
    requires k < |LinkSteps(nodes, total, i, j)|
    ensures Enabled(nodes, LinkSteps(nodes, total, i, j)[k].kind)
  {
  }

  lemma NodeStepsEnabled(nodes: seq<Node>, total: nat, i: nat, k: nat)
    requires Square(nodes) && i < |nodes| && k < |NodeSteps(nodes, total, i)|
    ensures Enabled(nodes, NodeSteps(nodes, total, i)[k].kind)
  {
    var roles := RoleSteps(nodes[i], i);
    if k >= |roles| {
      LinksEnabled(nodes, total, i, |nodes|, k - |roles|);
    }
  }

  lemma {:induction false} StepsEnabled(nodes: seq<Node>, total: nat, i: nat, k: nat)
    requires Square(nodes) && i <= |nodes| && k < |StepsUpTo(nodes, total, i)|
    ensures Enabled(nodes, StepsUpTo(nodes, total, i)[k].kind)
    decreases i
  {
    hide Enabled, NodeSteps;
    if i == 0 {
      ConcurrentEnabled(nodes);
    } else {
      var before := StepsUpTo(nodes, total, i - 1);
      if k < |before| {
        StepsEnabled(nodes, total, i - 1, k);
      } else {
        NodeStepsEnabled(nodes, total, i - 1, k - |before|);
      }
    }
  }

  lemma ConcurrentEnabled(nodes: seq<Node>)
    ensures Enabled(nodes, DoConcurrentPrimary)
  {
  }

  lemma ChooseKeeps(s: State, e: Event)
    requires Inv(s) && s.place.Choose? && MainStep(s, e).Some?
    ensures Inv(MainStep(s, e).value)
  {
    var steps := ListSteps(s.nodes);
    var total := Sum(Weights(steps));
    var t := MainStep(s, e).value;
    if steps == [] || total == 0 {
      GoToKeeps(s, t.place);
    } else {
      var k := Selected(Weights(steps), e.drawn);
      StepsEnabled(s.nodes, ClusterConnected(s.nodes), |s.nodes|, k);
      BeginStepKeeps(s, steps[k].kind);
    }
  }

  lemma BeginStepKeeps(s: State, kind: StepKind)
    requires Inv(s) && s.place.Choose? && Enabled(s.nodes, kind)
    ensures BeginStep(s, kind).Some? && Inv(BeginStep(s, kind).value)
  {
    match kind
    case DoConcurrentPrimary => GoToKeeps(s, WaitAll(BeforeDemote));
    case DoPrimary(i) => BeginKeeps(s, i, Promote, ToSleep);
    case DoSecondary(i) => BeginKeeps(s, i, Demote, ToSleep);
    case DoDisconnect(f, t) => BeginKeeps(s, f, Disconnect(t), ToSleep);
    case DoConnect(f, t) => BeginKeeps(s, f, Connect(t), ToSleep);
    case DoWaitConnect(f, t) => GoToKeeps(s, Collect(0, WaitConnect(0, f, t)));
  }

  lemma LoopsKeep(s: State, e: Event)
    requires Inv(s) && (s.place.DemoteAll? || s.place.PromoteAll? || s.place.FinalDemote?)
    requires MainStep(s, e).Some?
    ensures Inv(MainStep(s, e).value)
  {
    var i := s.place.i;
    var t := MainStep(s, e).value;
    if t.place.Submit? {
      BeginKeeps(s, i, t.place.command, t.place.next);
    } else {
      GoToKeeps(s, t.place);
    }
  }

  lemma OthersKeep(s: State, e: Event)
    requires Inv(s) && MainStep(s, e).Some?
    requires s.place.WaitFirst? || s.place.WaitAll? || s.place.TestConnect? || s.place.CountPrimaries? || s.place.Sleep?
    ensures Inv(MainStep(s, e).value)
  {
    var t := MainStep(s, e).value;
    GoToKeeps(s, t.place);
    assert forall i :: 0 <= i < |s.nodes| ==> Owner(t, i) == Owner(s, i);
  }

  lemma MainKeeps(s: State, e: Event)
    requires Inv(s) && MainStep(s, e).Some?
    ensures Inv(MainStep(s, e).value)
  {
    hide Inv, BeginStep, DemoteLoop;
    match s.place
    case Check(_, _) => CheckKeeps(s, e);
    case Collect(_, _) => CollectKeeps(s, e);
    case Choose => ChooseKeeps(s, e);
    case Submit(_, _, _) => SubmitKeeps(s, e);
    case DemoteAll(_) => LoopsKeep(s, e);
    case PromoteAll(_) => LoopsKeep(s, e);
    case FinalDemote(_) => LoopsKeep(s, e);
    case _ => OthersKeep(s, e);
  }

  // ---- the workers keep it ----

  lemma WorkerKeepsNodes(s: State, e: Event)
    requires Inv(s) && WorkerStep(s, e).Some?
    ensures NodesInv(WorkerStep(s, e).value)
  {
    var i := e.i;
    var t := WorkerStep(s, e).value;
    forall k | 0 <= k < |s.nodes|
      ensures Marked(t.nodes[k], Owner(t, k))
    {
      if k != i {
        assert t.nodes[k] == s.nodes[k] && Owner(t, k) == Owner(s, k);
      } else {
        assert Marked(s.nodes[i], Owner(s, i));
      }
    }
  }

  lemma WorkerKeepsPlace(s: State, e: Event)
    requires PlaceInv(s.nodes, s.place) && WorkerStep(s, e).Some?
    ensures PlaceInv(WorkerStep(s, e).value.nodes, s.place)
  {
    var t := WorkerStep(s, e).value;
    assert forall k :: 0 <= k < |s.nodes| && k != e.i ==> t.nodes[k] == s.nodes[k];
    assert s.nodes[e.i].future.Some? && t.nodes[e.i].future.Some? && !Settled(s.nodes[e.i].future.value);
    assert !NoFutures(t.nodes);
  }

  lemma WorkerKeeps(s: State, e: Event)
    requires Inv(s) && WorkerStep(s, e).Some?
    ensures Inv(WorkerStep(s, e).value)
  {
    WorkerKeepsNodes(s, e);
    WorkerKeepsPlace(s, e);
  }

  lemma InitialInv(n: nat)
    ensures Inv(Initial(n))
  {
  }

  /** Every state of every run satisfies the invariant. */
  lemma {:induction false} RunInv(n: nat, es: seq<Event>)
    ensures Run(Initial(n), es).Some? ==>
              Inv(Run(Initial(n), es).value) && |Run(Initial(n), es).value.nodes| == n
  {
    if es == [] {
      InitialInv(n);
    } else {
      var before := Run(Initial(n), es[..|es| - 1]);
      var e := es[|es| - 1];
      RunInv(n, es[..|es| - 1]);
      if before.Some? && Step(before.value, e).Some? {
        if IsWorkerEvent(e) {
          WorkerKeeps(before.value, e);
        } else {
          MainKeeps(before.value, e);
          SameNodes(before.value, e);
        }
      }
    }
  }

  lemma SameNodes(s: State, e: Event)
    requires Square(s.nodes) && MainStep(s, e).Some?
    ensures |MainStep(s, e).value.nodes| == |s.nodes|
  {
  }
}
