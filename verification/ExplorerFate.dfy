/** What becomes of a command of tests_special/random that raises: exactly when the run
    can still finish as if nothing had happened. */
module ExplorerFate {
  import opened Wrappers
  import opened WeightedDraw
  import opened RandomExplorer
  import opened ExplorerSafety
  import opened ExplorerResults
  import opened ExplorerTotals

  ghost predicate HasRaised(nodes: seq<Node>, i: nat) {
    i < |nodes| && nodes[i].future.Some? && nodes[i].future.value.status == Raised
  }

  ghost predicate NoneRaisedFrom(nodes: seq<Node>, k: nat) {
    forall j: nat :: k <= j < |nodes| ==> !HasRaised(nodes, j)
  }

  ghost predicate IdleAt(nodes: seq<Node>, j: nat) {
    j < |nodes| && nodes[j].future.None?
  }

  ghost predicate SomeIdleFrom(nodes: seq<Node>, k: nat) {
    exists j: nat :: k <= j && IdleAt(nodes, j)
  }

  // ---- what can be chosen ----

  predicate Linked(link: Link) {
    link == Connecting || link == Connected
  }

  /** A step of positive weight for the link of an idle node. */
  ghost predicate LinkOffers(nodes: seq<Node>, i: nat, j: nat)
    requires Square(nodes) && i < |nodes| && j < |nodes|
  {
    Useful(nodes, i, j) || (SomeConnected(nodes) && Linked(nodes[i].connections[j].link))
  }

  /** A step of positive weight other than the concurrent promotion. */
  ghost predicate NodeOffers(nodes: seq<Node>, i: nat)
    requires Square(nodes) && i < |nodes|
  {
    nodes[i].future.None?
    && (KnownRole(nodes[i].role) || exists j: nat :: j < |nodes| && j != i && LinkOffers(nodes, i, j))
  }

  ghost predicate Offers(nodes: seq<Node>)
    requires Square(nodes)
  {
    exists i: nat :: i < |nodes| && NodeOffers(nodes, i)
  }

  /** The list of steps is empty, or holds one that can be drawn and leads to no check. */
  ghost predicate CanGoOn(nodes: seq<Node>)
    requires Square(nodes)
  {
    ListSteps(nodes) == [] || Offers(nodes)
  }

  /** The test of a wait for a connection lets it end. */
  predicate Settles(nodes: seq<Node>, f: nat, t: nat) {
    var s := State(nodes, Sleep, 0);
    (LinkOf(s, f, t) == Connected && LinkOf(s, t, f) == Connected)
    || LinkOf(s, f, t) == StandAlone || LinkOf(s, t, f) == StandAlone
  }

  // ---- the condition ----

  /** In the last round, with some command raised: the places from which the end can be
      reached past every check. */
  ghost predicate PastChecks(nodes: seq<Node>, p: Place)
    requires Square(nodes)
  {
    match p
    case Check(k, c) =>
      c == MainLoop && NoneRaisedFrom(nodes, k) && (k < |nodes| || SomeIdleFrom(nodes, 0) || CanGoOn(nodes))
    case Collect(k, c) =>
      (match c
       case MainLoop => SomeIdleFrom(nodes, k) || CanGoOn(nodes)
       case WaitConnect(round, f, t) => round + 1 < CONNECT_ROUNDS || k <= f || k <= t || Settles(nodes, f, t)
       case _ => false)
    case Choose => CanGoOn(nodes)
    case Submit(_, _, next) => next.ToSleep? || next.ToFinalDemote?
    case WaitFirst => true
    case TestConnect(round, f, t) => round + 1 < CONNECT_ROUNDS || Settles(nodes, f, t)
    case FinalDemote(_) => true
    case Sleep => true
    case _ => false
  }

  ghost predicate CanFinish(s: State)
    requires Square(s.nodes)
  {
    s.place == Ended(Finished) || (s.round == ROUNDS - 1 && PastChecks(s.nodes, s.place))
  }

  // ---- what the condition looks at does not change under the workers ----

  ghost predicate SameView(a: seq<Node>, b: seq<Node>)
    requires Square(a) && Square(b)
  {
    |a| == |b|
    && (forall i :: 0 <= i < |a| ==> a[i].future.None? == b[i].future.None? && a[i].role == b[i].role)
    && (forall i, j :: 0 <= i < |a| && 0 <= j < |a| ==> a[i].connections[j].link == b[i].connections[j].link)
  }

  lemma {:induction false} SameCounted(a: seq<Node>, b: seq<Node>, i: nat, k: nat)
    requires Square(a) && Square(b) && SameView(a, b) && i < |a| && k <= |a|
    ensures ConnectedUpTo(a[i], i, k) == ConnectedUpTo(b[i], i, k)
  {
    if k > 0 {
      SameCounted(a, b, i, k - 1);
    }
  }

  lemma {:induction false} SameTotal(a: seq<Node>, b: seq<Node>, k: nat)
    requires Square(a) && Square(b) && SameView(a, b) && k <= |a|
    ensures ClusterConnected(a[..k]) == ClusterConnected(b[..k])
  {
    if k > 0 {
      SameTotal(a, b, k - 1);
      assert a[..k][..k - 1] == a[..k - 1] && b[..k][..k - 1] == b[..k - 1];
      SameCounted(a, b, k - 1, |a|);
    }
  }

  lemma SameLink(a: seq<Node>, b: seq<Node>, total: nat, i: nat, j: nat)
    requires Square(a) && Square(b) && SameView(a, b) && i < |a| && j < |a|
    ensures LinkSteps(a, total, i, j) == LinkSteps(b, total, i, j)
  {
  }

  lemma {:induction false} SameLinks(a: seq<Node>, b: seq<Node>, total: nat, i: nat, k: nat)
    requires Square(a) && Square(b) && SameView(a, b) && i < |a| && k <= |a|
    ensures LinksUpTo(a, total, i, k) == LinksUpTo(b, total, i, k)
  {
    hide LinkSteps, SameView;
    if k > 0 {
      SameLinks(a, b, total, i, k - 1);
      SameLink(a, b, total, i, k - 1);
    }
  }

  lemma SameNodeSteps(a: seq<Node>, b: seq<Node>, total: nat, i: nat)
    requires Square(a) && Square(b) && SameView(a, b) && i < |a|
    ensures NodeSteps(a, total, i) == NodeSteps(b, total, i)
  {
    hide LinksUpTo;
    SameLinks(a, b, total, i, |a|);
    SameCounted(a, b, i, |a|);
  }

  lemma {:induction false} SameSteps(a: seq<Node>, b: seq<Node>, total: nat, k: nat)
    requires Square(a) && Square(b) && SameView(a, b) && k <= |a|
    ensures StepsUpTo(a, total, k) == StepsUpTo(b, total, k)
  {
    hide NodeSteps, SameView;
    if k > 0 {
      SameSteps(a, b, total, k - 1);
      SameNodeSteps(a, b, total, k - 1);
    }
  }

  lemma SameList(a: seq<Node>, b: seq<Node>)
    requires Square(a) && Square(b) && SameView(a, b)
    ensures ListSteps(a) == ListSteps(b)
  {
    SameTotal(a, b, |a|);
    assert a[..|a|] == a && b[..|b|] == b;
    SameSteps(a, b, ClusterConnected(a), |a|);
  }

  lemma SameOffers(a: seq<Node>, b: seq<Node>)
    requires Square(a) && Square(b) && SameView(a, b)
    ensures Offers(a) ==> Offers(b)
  {
    if Offers(a) {
      assert SomeConnected(a) ==> SomeConnected(b);
      var i: nat :| i < |a| && NodeOffers(a, i);
      if !KnownRole(a[i].role) {
        var j: nat :| j < |a| && j != i && LinkOffers(a, i, j);
        assert LinkOffers(b, i, j);
      }
      assert NodeOffers(b, i);
    }
  }

  lemma ViewSymmetric(a: seq<Node>, b: seq<Node>)
    requires Square(a) && Square(b) && SameView(a, b)
    ensures SameView(b, a)
  {
  }

  lemma SameCanGoOn(a: seq<Node>, b: seq<Node>)
    requires Square(a) && Square(b) && SameView(a, b)
    ensures CanGoOn(a) == CanGoOn(b)
  {
    hide Offers, ListSteps;
    SameList(a, b);
    SameOffers(a, b);
    ViewSymmetric(a, b);
    SameOffers(b, a);
  }

  // ---- offers are listed steps ----

  /** A step that leads to no check of the futures. */
  predicate Harmless(x: WeightedStep) {
    x.weight > 0 && !x.kind.DoConcurrentPrimary?
  }

  lemma LinkOffersIff(nodes: seq<Node>, i: nat, j: nat)
    requires Square(nodes) && i < |nodes| && j < |nodes| && i != j
    ensures (exists x :: x in LinkSteps(nodes, ClusterConnected(nodes), i, j) && Harmless(x)) <==> LinkOffers(nodes, i, j)
  {
    hide ClusterConnected, SomeConnected;
    CountedIff(nodes);
    var total := ClusterConnected(nodes);
    var steps := LinkSteps(nodes, total, i, j);
    var link := nodes[i].connections[j].link;
    if Linked(link) {
      assert WeightedStep(10 * total, DoDisconnect(i, j)) in steps;
    }
    if link == StandAlone {
      assert WeightedStep(100, DoConnect(i, j)) in steps;
    } else if Useful(nodes, i, j) {
      assert WeightedStep(700, DoWaitConnect(i, j)) in steps;
    }
  }

  lemma RoleOffersIff(node: Node, i: nat)
    ensures (exists x :: x in RoleSteps(node, i) && Harmless(x)) <==> KnownRole(node.role)
  {
    assert RoleSteps(node, i) != [] ==> RoleSteps(node, i)[0] in RoleSteps(node, i);
  }

  lemma NodeOffersIff(nodes: seq<Node>, i: nat)
    requires Square(nodes) && i < |nodes|
    ensures (exists x :: x in NodeSteps(nodes, ClusterConnected(nodes), i) && Harmless(x)) <==> NodeOffers(nodes, i)
  {
    hide LinkSteps, RoleSteps, NodeSteps, LinkOffers, ClusterConnected, Harmless;
    var total := ClusterConnected(nodes);
    forall x
      ensures x in NodeSteps(nodes, total, i)
              <==> nodes[i].future.None?
                   && (x in RoleSteps(nodes[i], i)
                       || exists j: nat :: j < |nodes| && x in LinkSteps(nodes, total, i, j))
    {
      InNode(nodes, total, i, x);
    }
    RoleOffersIff(nodes[i], i);
    NoSelfLink(nodes, total, i);
    forall j: nat | j < |nodes| && j != i
      ensures (exists x :: x in LinkSteps(nodes, total, i, j) && Harmless(x)) <==> LinkOffers(nodes, i, j)
    {
      LinkOffersIff(nodes, i, j);
    }
  }

  lemma OffersIff(nodes: seq<Node>)
    requires Square(nodes)
    ensures (exists x :: x in ListSteps(nodes) && Harmless(x)) <==> Offers(nodes)
  {
    hide NodeSteps, NodeOffers, StepsUpTo, ClusterConnected;
    var total := ClusterConnected(nodes);
    forall x | Harmless(x)
      ensures x in ListSteps(nodes) <==> exists i: nat :: i < |nodes| && x in NodeSteps(nodes, total, i)
    {
      InSteps(nodes, total, |nodes|, x);
    }
    forall i: nat | i < |nodes|
      ensures (exists x :: x in NodeSteps(nodes, total, i) && Harmless(x)) <==> NodeOffers(nodes, i)
    {
      NodeOffersIff(nodes, i);
    }
  }

  // ---- what is known during a wait for a connection ----

  /** The two nodes have no commands while the main thread waits for their connection. */
  ghost predicate WaitInv(s: State) {
    match s.place
    case Collect(_, WaitConnect(round, f, t)) => round < CONNECT_ROUNDS && f != t && IdleAt(s.nodes, f) && IdleAt(s.nodes, t)
    case TestConnect(round, f, t) => round < CONNECT_ROUNDS && f != t && IdleAt(s.nodes, f) && IdleAt(s.nodes, t)
    case _ => true
  }

  lemma MainWaits(s: State, e: Event)
    requires Square(s.nodes) && Inv(s) && WaitInv(s) && MainStep(s, e).Some?
    ensures WaitInv(MainStep(s, e).value)
  {
    hide ListSteps, BeginStep, Inv;
    match s.place
    case Choose => ChooseWaits(s, e);
    case Check(_, _) => CheckWaits(s, e);
    case Collect(_, _) => CollectWaits(s, e);
    case _ =>
  }

  lemma CheckWaits(s: State, e: Event)
    requires Inv(s) && s.place.Check? && MainStep(s, e).Some?
    ensures WaitInv(MainStep(s, e).value)
  {
  }

  lemma CollectWaits(s: State, e: Event)
    requires Square(s.nodes) && WaitInv(s) && s.place.Collect? && MainStep(s, e).Some?
    ensures WaitInv(MainStep(s, e).value)
  {
  }

  lemma ChooseWaits(s: State, e: Event)
    requires Square(s.nodes) && Inv(s) && s.place.Choose? && MainStep(s, e).Some?
    ensures WaitInv(MainStep(s, e).value)
  {
    hide ListSteps, Inv;
    var steps := ListSteps(s.nodes);
    if e.DrawNumber? {
      var k := Selected(Weights(steps), e.drawn);
      ListedKind(s, k);
    }
  }

  lemma ListedKind(s: State, k: nat)
    requires Inv(s) && k < |ListSteps(s.nodes)|
    ensures Enabled(s.nodes, ListSteps(s.nodes)[k].kind)
  {
    ListedEnabled(s.nodes, k);
  }

  lemma WorkerWaits(s: State, e: Event)
    requires WaitInv(s) && WorkerStep(s, e).Some?
    ensures WaitInv(WorkerStep(s, e).value)
  {
  }

  /** What is known of every reachable state. */
  ghost predicate Reachable(s: State) {
    Inv(s) && WaitInv(s) && (s.place.Ended? || s.round < ROUNDS)
  }

  lemma StepReachable(s: State, e: Event)
    requires Reachable(s) && Step(s, e).Some?
    ensures Reachable(Step(s, e).value) && TotalLeft(Step(s, e).value) < TotalLeft(s)
  {
    hide WaitInv, WorkerStep, MainStep, TotalLeft;
    if IsWorkerEvent(e) {
      WorkerKeeps(s, e);
      WorkerWaits(s, e);
      WorkerDecreases(s, e);
      WorkerLeavesPlace(s, e);
    } else {
      MainKeeps(s, e);
      MainWaits(s, e);
      StillGoing(s, e);
      MainDecreases(s, e);
    }
  }

  lemma {:induction false} RunReachable(n: nat, es: seq<Event>)
    requires Run(Initial(n), es).Some?
    ensures Reachable(Run(Initial(n), es).value)
  {
    hide Step, Reachable;
    if es == [] {
      InitialReachable(n);
    } else {
      RunReachable(n, es[..|es| - 1]);
      StepReachable(Run(Initial(n), es[..|es| - 1]).value, es[|es| - 1]);
    }
  }

  lemma InitialReachable(n: nat)
    ensures Reachable(Initial(n))
  {
    InitialInv(n);
  }

  // ---- where the end can be reached, it could be reached before ----

  lemma RaisedStays(s: State, e: Event, i: nat)
    requires Inv(s) && HasRaised(s.nodes, i) && Step(s, e).Some?
    ensures HasRaised(Step(s, e).value.nodes, i)
  {
    if IsWorkerEvent(e) {
      RaisedByWorker(s, e, i);
    } else {
      RaisedByMain(s, e, i);
    }
  }

  lemma RaisedByWorker(s: State, e: Event, i: nat)
    requires HasRaised(s.nodes, i) && WorkerStep(s, e).Some?
    ensures HasRaised(WorkerStep(s, e).value.nodes, i)
  {
  }

  lemma RaisedByMain(s: State, e: Event, i: nat)
    requires Square(s.nodes) && HasRaised(s.nodes, i) && MainStep(s, e).Some?
    ensures HasRaised(MainStep(s, e).value.nodes, i) || s.place.Submit?
    ensures s.place.Submit? && s.place.i != i ==> HasRaised(MainStep(s, e).value.nodes, i)
  {
    hide ListSteps, BeginStep;
    if s.place.Choose? && e.DrawNumber? {
      RaisedByChoice(s, ListSteps(s.nodes)[Selected(Weights(ListSteps(s.nodes)), e.drawn)].kind, i);
    }
  }

  lemma RaisedByChoice(s: State, kind: StepKind, i: nat)
    requires HasRaised(s.nodes, i) && BeginStep(s, kind).Some?
    ensures HasRaised(BeginStep(s, kind).value.nodes, i)
  {
  }

  lemma WorkerView(s: State, e: Event)
    requires Square(s.nodes) && WorkerStep(s, e).Some?
    ensures var t := WorkerStep(s, e).value;
            Square(t.nodes) && SameView(s.nodes, t.nodes) && SameView(t.nodes, s.nodes)
  {
  }

  /** What a worker does leaves what the condition looks at, except that a command may
      raise. */
  lemma WorkerFate(s: State, e: Event)
    requires Square(s.nodes) && WorkerStep(s, e).Some?
    ensures var t := WorkerStep(s, e).value;
            Square(t.nodes) && (PastChecks(t.nodes, s.place) ==> PastChecks(s.nodes, s.place))
            && (!e.Fail? && PastChecks(s.nodes, s.place) ==> PastChecks(t.nodes, s.place))
  {
    var t := WorkerStep(s, e).value;
    WorkerView(s, e);
    SameCanGoOn(s.nodes, t.nodes);
    hide CanGoOn, WorkerStep;
    forall j: nat
      ensures HasRaised(s.nodes, j) ==> HasRaised(t.nodes, j)
      ensures !e.Fail? && HasRaised(t.nodes, j) ==> HasRaised(s.nodes, j)
    {
      WorkerRaises(s, e, j);
    }
    SameIdle(s.nodes, t.nodes);
    hide SameView;
    WorkerSettles(s, e);
  }

  lemma WorkerRaises(s: State, e: Event, j: nat)
    requires WorkerStep(s, e).Some?
    ensures HasRaised(s.nodes, j) ==> HasRaised(WorkerStep(s, e).value.nodes, j)
    ensures !e.Fail? && HasRaised(WorkerStep(s, e).value.nodes, j) ==> HasRaised(s.nodes, j)
  {
  }

  lemma WorkerSettles(s: State, e: Event)
    requires Square(s.nodes) && WorkerStep(s, e).Some?
    ensures forall f, t :: Settles(WorkerStep(s, e).value.nodes, f, t) == Settles(s.nodes, f, t)
  {
    hide WorkerStep;
    WorkerView(s, e);
  }

  lemma SameIdle(a: seq<Node>, b: seq<Node>)
    requires Square(a) && Square(b) && SameView(a, b)
    ensures forall k: nat :: SomeIdleFrom(a, k) == SomeIdleFrom(b, k)
  {
    assert forall j: nat :: IdleAt(a, j) == IdleAt(b, j);
  }

  /** One step of the main thread, backwards, with some command raised. */
  ghost predicate Backward(s: State, e: Event)
    requires Square(s.nodes)
  {
    MainStep(s, e).Some?
    && var t := MainStep(s, e).value;
       Square(t.nodes) && t.round == s.round && !s.place.Ended?
       && (t.place == Ended(Finished) || PastChecks(t.nodes, t.place) ==> PastChecks(s.nodes, s.place))
  }

  lemma CheckBackward(s: State, e: Event)
    requires Inv(s) && s.place.Check? && MainStep(s, e).Some?
    ensures Backward(s, e)
  {
    hide CanGoOn;
    var k := s.place.i;
    var t := MainStep(s, e).value;
    if k < |s.nodes| && s.nodes[k].future.Some? && s.nodes[k].future.value.status == Done {
      assert forall j: nat :: k < j ==> HasRaised(s.nodes, j) == HasRaised(t.nodes, j);
    }
  }

  lemma CollectBackward(s: State, e: Event)
    requires Square(s.nodes) && s.place.Collect? && MainStep(s, e).Some?
    ensures Backward(s, e)
  {
    hide CanGoOn;
    var k := s.place.i;
    var t := MainStep(s, e).value;
    if k < |s.nodes| && s.nodes[k].future.None? {
      assert IdleAt(s.nodes, k);
      if e.Poll? && e.answer.Some? {
        assert forall j :: 0 <= j < |s.nodes| && j != k ==> t.nodes[j] == s.nodes[j];
        assert forall f: nat, g: nat :: f < k && g < k ==> Settles(t.nodes, f, g) == Settles(s.nodes, f, g);
      }
    } else {
      assert !IdleAt(s.nodes, k);
    }
  }

  lemma ChooseBackward(s: State, e: Event)
    requires Square(s.nodes) && s.place.Choose? && MainStep(s, e).Some?
    ensures Backward(s, e)
  {
    hide ListSteps, BeginStep, Offers, Harmless;
    var steps := ListSteps(s.nodes);
    if e.DrawNumber? {
      var k := Selected(Weights(steps), e.drawn);
      ChosenBackward(s, steps[k].kind);
      DrawnWeight(Weights(steps), e.drawn);
      if !steps[k].kind.DoConcurrentPrimary? {
        assert Harmless(steps[k]) by { HarmlessIs(steps[k]); }
        assert steps[k] in steps;
        OffersIff(s.nodes);
      }
    }
  }

  lemma HarmlessIs(x: WeightedStep)
    requires x.weight > 0 && !x.kind.DoConcurrentPrimary?
    ensures Harmless(x)
  {
  }

  lemma DrawnWeight(ws: seq<nat>, drawn: nat)
    requires drawn < Sum(ws)
    ensures ws[Selected(ws, drawn)] > 0
  {
    var k := Selected(ws, drawn);
    assert ws[..k + 1][..k] == ws[..k];
  }

  lemma ChosenBackward(s: State, kind: StepKind)
    requires Square(s.nodes) && BeginStep(s, kind).Some?
    ensures var t := BeginStep(s, kind).value;
            Square(t.nodes) && t.round == s.round && !t.place.Ended?
            && (PastChecks(t.nodes, t.place) ==> !kind.DoConcurrentPrimary?)
  {
  }

  /** The loops of the concurrent promotion lead to a check, except the last. */
  lemma LoopsBackward(s: State, e: Event)
    requires Inv(s) && MainStep(s, e).Some?
    requires s.place.DemoteAll? || s.place.PromoteAll? || s.place.FinalDemote?
    ensures Backward(s, e)
  {
    hide CanGoOn;
  }

  lemma SubmitBackward(s: State, e: Event)
    requires Inv(s) && s.place.Submit? && MainStep(s, e).Some?
    ensures Backward(s, e)
  {
    hide CanGoOn;
  }

  lemma OthersBackward(s: State, e: Event, i: nat)
    requires Inv(s) && HasRaised(s.nodes, i) && MainStep(s, e).Some?
    requires s.place.WaitFirst? || s.place.WaitAll? || s.place.TestConnect? || s.place.CountPrimaries?
    ensures Backward(s, e)
  {
    hide CanGoOn;
  }

  lemma MainBackward(s: State, e: Event, i: nat)
    requires Inv(s) && HasRaised(s.nodes, i) && MainStep(s, e).Some? && !s.place.Sleep?
    ensures Backward(s, e)
  {
    hide Backward, BeginStep, ListSteps, DemoteLoop;
    match s.place
    case Check(_, _) => CheckBackward(s, e);
    case Collect(_, _) => CollectBackward(s, e);
    case Choose => ChooseBackward(s, e);
    case Submit(_, _, _) => SubmitBackward(s, e);
    case DemoteAll(_) => LoopsBackward(s, e);
    case PromoteAll(_) => LoopsBackward(s, e);
    case FinalDemote(_) => LoopsBackward(s, e);
    case Ended(_) =>
    case _ => OthersBackward(s, e, i);
  }

  lemma SleepBackward(s: State, e: Event, i: nat)
    requires Reachable(s) && HasRaised(s.nodes, i) && s.place.Sleep? && MainStep(s, e).Some?
    ensures CanFinish(MainStep(s, e).value) ==> CanFinish(s)
  {
    hide CanGoOn;
  }

  lemma StepBackward(s: State, e: Event, i: nat)
    requires Reachable(s) && HasRaised(s.nodes, i) && Step(s, e).Some? && Square(Step(s, e).value.nodes)
    ensures CanFinish(Step(s, e).value) ==> CanFinish(s)
  {
    hide PastChecks, WaitInv, MainStep, WorkerStep;
    if IsWorkerEvent(e) {
      WorkerFate(s, e);
      WorkerLeavesPlace(s, e);
    } else if s.place.Sleep? {
      SleepBackward(s, e, i);
    } else {
      MainBackward(s, e, i);
      RoundBefore(s, e, i);
    }
  }

  lemma RoundBefore(s: State, e: Event, i: nat)
    requires Reachable(s) && Backward(s, e) && HasRaised(s.nodes, i) && !s.place.Sleep?
    ensures CanFinish(MainStep(s, e).value) ==> CanFinish(s)
  {
    hide PastChecks, WaitInv;
  }

  // ---- where the end can be reached, a step leads there ----

  ghost predicate Onward(s: State, e: Event)
    requires Square(s.nodes)
  {
    Step(s, e).Some?
    && var t := Step(s, e).value;
       Square(t.nodes) && (t.place == Ended(Finished) || (t.round == s.round && PastChecks(t.nodes, t.place)))
  }

  /** An unfinished command is brought to its end before the check comes to its node. */
  lemma FinishFirst(s: State, j: nat) returns (e: Event)
    requires Square(s.nodes) && PastChecks(s.nodes, s.place)
    requires j < |s.nodes| && s.nodes[j].future.Some? && !Settled(s.nodes[j].future.value)
    ensures Onward(s, e)
  {
    hide PastChecks, WorkerStep;
    e := WorkerMoves(s, j);
    WorkerFate(s, e);
    WorkerLeavesPlace(s, e);
  }

  lemma WorkerMoves(s: State, j: nat) returns (e: Event)
    requires j < |s.nodes| && s.nodes[j].future.Some? && !Settled(s.nodes[j].future.value)
    ensures IsWorkerEvent(e) && !e.Fail? && WorkerStep(s, e).Some?
  {
    match s.nodes[j].future.value.status
    case Queued =>
      PoolSuffices(s, j);
      e := Start(j);
    case Executing => e := Return(j);
    case Cleared => e := Complete(j);
  }

  lemma CheckOnward(s: State) returns (e: Event)
    requires Square(s.nodes) && s.place.Check? && PastChecks(s.nodes, s.place)
    ensures Onward(s, e)
  {
    hide CanGoOn;
    var k := s.place.i;
    if k < |s.nodes| && s.nodes[k].future.Some? && !Settled(s.nodes[k].future.value) {
      e := FinishFirst(s, k);
    } else {
      e := Main;
      if k < |s.nodes| {
        assert !HasRaised(s.nodes, k);
        var t := MainStep(s, Main).value;
        assert IdleAt(t.nodes, k);
        assert forall j: nat :: k < j ==> HasRaised(s.nodes, j) == HasRaised(t.nodes, j);
      }
    }
  }

  lemma CollectOnward(s: State) returns (e: Event)
    requires Square(s.nodes) && s.place.Collect? && s.place.caller == MainLoop && PastChecks(s.nodes, s.place)
    ensures Onward(s, e)
  {
    hide CanGoOn;
    var k := s.place.i;
    if k < |s.nodes| && s.nodes[k].future.None? {
      e := Poll(Some((Secondary, [])));
      var t := MainStep(s, e).value;
      OffersRole(t.nodes, k);
    } else {
      e := Main;
      assert !IdleAt(s.nodes, k);
    }
  }

  lemma OffersRole(nodes: seq<Node>, k: nat)
    requires Square(nodes) && k < |nodes| && nodes[k].future.None? && nodes[k].role == Secondary
    ensures CanGoOn(nodes)
  {
    assert NodeOffers(nodes, k);
  }

  lemma CollectWaitOnward(s: State) returns (e: Event)
    requires Square(s.nodes) && WaitInv(s) && s.place.Collect? && s.place.caller.WaitConnect? && PastChecks(s.nodes, s.place)
    ensures Onward(s, e)
  {
    var k := s.place.i;
    if k < |s.nodes| && s.nodes[k].future.None? {
      e := Poll(Some((Secondary, seq(|s.nodes|, j => StandAlone))));
      var t := MainStep(s, e).value;
      assert forall j :: 0 <= j < |s.nodes| && j != k ==> t.nodes[j] == s.nodes[j];
      assert forall j :: 0 <= j < |s.nodes| ==> t.nodes[k].connections[j].link == StandAlone;
    } else {
      e := Main;
    }
  }

  lemma ChooseOnward(s: State, i: nat) returns (e: Event)
    requires Inv(s) && s.place.Choose? && HasRaised(s.nodes, i) && CanGoOn(s.nodes)
    ensures Onward(s, e)
  {
    hide ListSteps, BeginStep, Offers, Harmless, Enabled;
    var steps := ListSteps(s.nodes);
    if steps == [] {
      e := Main;
      assert !NoFutures(s.nodes);
    } else {
      OffersIff(s.nodes);
      var x :| x in steps && Harmless(x);
      var k: nat :| k < |steps| && steps[k] == x;
      var drawn := DrawnFor(steps, k);
      e := DrawNumber(drawn);
      ListedEnabled(s.nodes, k);
      BeginStepKeeps(s, steps[k].kind);
      HarmlessOnward(s, steps[k]);
    }
  }

  /** A number that draws a given step of positive weight. */
  lemma DrawnFor(steps: seq<WeightedStep>, k: nat) returns (drawn: nat)
    requires k < |steps| && Harmless(steps[k])
    ensures drawn < Sum(Weights(steps)) && Selected(Weights(steps), drawn) == k
  {
    var ws := Weights(steps);
    drawn := Sum(ws[..k]);
    assert ws[..k + 1][..k] == ws[..k];
    assert Selects(ws, drawn, k);
    PrefixMonotone(ws, k + 1, |ws|);
    assert ws[..|ws|] == ws;
    SelectsOne(ws, drawn, k, Selected(ws, drawn));
  }

  lemma HarmlessOnward(s: State, x: WeightedStep)
    requires Square(s.nodes) && Harmless(x) && BeginStep(s, x.kind).Some?
    ensures var t := BeginStep(s, x.kind).value;
            Square(t.nodes) && t.round == s.round && PastChecks(t.nodes, t.place)
  {
  }

  lemma OthersOnward(s: State, i: nat) returns (e: Event)
    requires Reachable(s) && HasRaised(s.nodes, i) && PastChecks(s.nodes, s.place) && s.round == ROUNDS - 1
    requires s.place.Submit? || s.place.WaitFirst? || s.place.TestConnect? || s.place.FinalDemote? || s.place.Sleep?
    ensures Onward(s, e)
  {
    hide CanGoOn;
    e := Main;
    if s.place.WaitFirst? {
      assert SomeSettled(s.nodes);
    }
  }

  lemma NextOnward(s: State, i: nat) returns (e: Event)
    requires Reachable(s) && HasRaised(s.nodes, i) && CanFinish(s) && !s.place.Ended?
    ensures Onward(s, e)
  {
    hide Onward, CanGoOn, SomeIdleFrom, NoneRaisedFrom;
    match s.place
    case Check(_, _) => e := CheckOnward(s);
    case Collect(_, c) =>
      if c.WaitConnect? {
        e := CollectWaitOnward(s);
      } else {
        e := CollectOnward(s);
      }
    case Choose => e := ChooseOnward(s, i);
    case _ => e := OthersOnward(s, i);
  }

  // ---- the exact condition ----

  ghost predicate Finishes(s: State, rest: seq<Event>) {
    Run(s, rest).Some? && Run(s, rest).value.place == Ended(Finished)
  }

  /** A step in front of a run. */
  lemma {:induction false} StepThenRun(s: State, e: Event, t: State, rest: seq<Event>)
    requires Square(s.nodes) && Step(s, e) == Some(t) && Run(t, rest).Some? && Square(t.nodes)
    ensures Run(s, [e] + rest) == Run(t, rest)
    decreases |rest|
  {
    hide Step;
    if rest == [] {
      assert [e] + rest == [e] && [e][..0] == [];
      assert Run(s, []) == Some(s);
    } else {
      var n := |rest| - 1;
      assert ([e] + rest)[..|[e] + rest| - 1] == [e] + rest[..n];
      StepThenRun(s, e, t, rest[..n]);
    }
  }

  lemma {:induction false} ReachEnd(s: State, i: nat) returns (rest: seq<Event>)
    requires Reachable(s) && Square(s.nodes) && HasRaised(s.nodes, i) && CanFinish(s)
    ensures Finishes(s, rest)
    decreases TotalLeft(s)
  {
    hide Reachable, PastChecks, Step, TotalLeft, Inv;
    ReachableIs(s);
    if s.place.Ended? {
      EndedFinished(s);
      rest := [];
    } else {
      var e := NextOnward(s, i);
      var t := Step(s, e).value;
      StepReachable(s, e);
      ReachableIs(t);
      RaisedStays(s, e, i);
      OnwardFinishes(s, e);
      var more := ReachEnd(t, i);
      rest := [e] + more;
      StepThenRun(s, e, t, more);
    }
  }

  lemma EndedFinished(s: State)
    requires Square(s.nodes) && s.place.Ended? && CanFinish(s)
    ensures s.place == Ended(Finished)
  {
  }

  lemma OnwardFinishes(s: State, e: Event)
    requires Reachable(s) && Onward(s, e) && CanFinish(s) && !s.place.Ended?
    ensures CanFinish(Step(s, e).value)
  {
    hide PastChecks, Step;
  }

  lemma {:induction false} EndReached(s: State, i: nat, rest: seq<Event>)
    requires Reachable(s) && HasRaised(s.nodes, i) && Run(s, rest).Some?
    ensures var t := Run(s, rest).value;
            Reachable(t) && Square(t.nodes) && Square(s.nodes) && HasRaised(t.nodes, i) && (CanFinish(t) ==> CanFinish(s))
  {
    hide Reachable, PastChecks, Step, Inv;
    ReachableIs(s);
    if rest != [] {
      var n := |rest| - 1;
      EndReached(s, i, rest[..n]);
      var before := Run(s, rest[..n]).value;
      ReachableIs(before);
      StepReachable(before, rest[n]);
      ReachableIs(Run(s, rest).value);
      RaisedStays(before, rest[n], i);
      StepBackward(before, rest[n], i);
    }
  }

  /** In any reachable state in which a command has raised, the run can still end as if
      it had not iff it has ended so, or it is in its last round, and at one of the places
      past the last check from which the end can be reached. */
  lemma UnnoticedIff(n: nat, es: seq<Event>, i: nat)
    requires Run(Initial(n), es).Some? && HasRaised(Run(Initial(n), es).value.nodes, i)
    ensures var s := Run(Initial(n), es).value;
            Square(s.nodes) && ((exists rest :: Finishes(s, rest)) <==> CanFinish(s))
  {
    hide Reachable, PastChecks;
    var s := Run(Initial(n), es).value;
    RunReachable(n, es);
    ReachableIs(s);
    if rest :| Finishes(s, rest) {
      EndReached(s, i, rest);
    }
    if CanFinish(s) {
      var rest := ReachEnd(s, i);
    }
  }

  lemma ReachableIs(s: State)
    requires Reachable(s)
    ensures Inv(s) && Square(s.nodes)
  {
  }

  /** A command that has raised before the last round is always noticed, and so is one
      that has raised when its node is still to be checked in this one. */
  lemma NoticedBefore(n: nat, es: seq<Event>, i: nat, rest: seq<Event>)
    requires Run(Initial(n), es).Some? && HasRaised(Run(Initial(n), es).value.nodes, i)
    requires var s := Run(Initial(n), es).value;
             !s.place.Ended?
             && (s.round < ROUNDS - 1 || (s.place.Check? && s.place.i <= i) || s.place.WaitAll?
                 || s.place.DemoteAll? || s.place.PromoteAll?)
    ensures !Finishes(Run(Initial(n), es).value, rest)
  {
    hide CanGoOn, Finishes;
    UnnoticedIff(n, es, i);
  }
}
