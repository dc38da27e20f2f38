/** When the list of steps of tests_special/random has a total weight of zero, and a
    run of the explorer in which it has. */
module ExplorerTotals {
  import opened Wrappers
  import opened WeightedDraw
  import opened RandomExplorer
  import opened ExplorerSafety

  // ---- where the listed steps come from ----

  lemma {:induction false} InLinks(nodes: seq<Node>, total: nat, i: nat, k: nat, x: WeightedStep)
    requires Square(nodes) && i < |nodes| && k <= |nodes|
    ensures x in LinksUpTo(nodes, total, i, k) <==> exists j: nat :: j < k && x in LinkSteps(nodes, total, i, j)
  {
    hide LinkSteps;
    if k > 0 {
      InLinks(nodes, total, i, k - 1, x);
    }
  }

  lemma InNode(nodes: seq<Node>, total: nat, i: nat, x: WeightedStep)
    requires Square(nodes) && i < |nodes|
    ensures x in NodeSteps(nodes, total, i)
            <==> nodes[i].future.None?
                 && (x in RoleSteps(nodes[i], i)
                     || exists j: nat :: j < |nodes| && x in LinkSteps(nodes, total, i, j))
  {
    hide LinkSteps, RoleSteps;
    InLinks(nodes, total, i, |nodes|, x);
  }

  lemma {:induction false} InSteps(nodes: seq<Node>, total: nat, k: nat, x: WeightedStep)
    requires Square(nodes) && k <= |nodes|
    ensures x in StepsUpTo(nodes, total, k)
            <==> (total > 0 && x == WeightedStep(500, DoConcurrentPrimary))
                 || exists i: nat :: i < k && x in NodeSteps(nodes, total, i)
    decreases k
  {
    hide NodeSteps;
    if k > 0 {
      InSteps(nodes, total, k - 1, x);
    }
  }

  // ---- connected, in plain words ----

  ghost predicate SomeConnected(nodes: seq<Node>)
    requires Square(nodes)
  {
    exists i: nat, j: nat :: i < |nodes| && j < |nodes| && i != j && nodes[i].connections[j].link == Connected
  }

  lemma {:induction false} CountedUpTo(node: Node, i: nat, k: nat)
    requires k <= |node.connections|
    ensures ConnectedUpTo(node, i, k) > 0
            <==> exists j: nat :: j < k && j != i && node.connections[j].link == Connected
  {
    if k > 0 {
      CountedUpTo(node, i, k - 1);
    }
  }

  lemma {:induction false} CountedFirst(nodes: seq<Node>, k: nat)
    requires k <= |nodes|
    ensures ClusterConnected(nodes[..k]) > 0 <==> exists i: nat :: i < k && ConnectedCount(nodes[i], i) > 0
  {
    hide ConnectedCount;
    if k > 0 {
      CountedFirst(nodes, k - 1);
      assert nodes[..k][..k - 1] == nodes[..k - 1];
    }
  }

  /** The count is positive iff some connection of the cluster is Connected. */
  lemma CountedIff(nodes: seq<Node>)
    requires Square(nodes)
    ensures ClusterConnected(nodes) > 0 <==> SomeConnected(nodes)
  {
    CountedFirst(nodes, |nodes|);
    assert nodes[..|nodes|] == nodes;
    forall i: nat | i < |nodes|
      ensures ConnectedCount(nodes[i], i) > 0
              <==> exists j: nat :: j < |nodes| && j != i && nodes[i].connections[j].link == Connected
    {
      CountedUpTo(nodes[i], i, |nodes|);
    }
  }

  // ---- the exact condition ----

  /** A link of an idle node that gives a step of positive weight by itself. */
  predicate Useful(nodes: seq<Node>, i: nat, j: nat)
    requires Square(nodes) && i < |nodes| && j < |nodes|
  {
    var link := nodes[i].connections[j].link;
    link == StandAlone
    || (link != Connected && nodes[j].future.None? && nodes[j].connections[i].link != StandAlone)
  }

  /** No connection is Connected, some idle node is Connecting, and no idle node has an
      ordinary role, a StandAlone link or a link that can be waited for. */
  ghost predicate Undrawable(nodes: seq<Node>)
    requires Square(nodes)
  {
    !SomeConnected(nodes)
    && (exists i: nat, j: nat :: i < |nodes| && j < |nodes| && i != j
          && nodes[i].future.None? && nodes[i].connections[j].link == Connecting)
    && (forall i: nat :: i < |nodes| && nodes[i].future.None? ==> nodes[i].role != Primary && nodes[i].role != Secondary)
    && (forall i: nat, j: nat :: i < |nodes| && j < |nodes| && i != j && nodes[i].future.None? ==> !Useful(nodes, i, j))
  }

  /** The weights of the steps for one link, when nothing is connected. */
  lemma LinkWeights(nodes: seq<Node>, i: nat, j: nat)
    requires Square(nodes) && i < |nodes| && j < |nodes| && i != j && nodes[i].connections[j].link != Connected
    ensures (exists x :: x in LinkSteps(nodes, 0, i, j) && x.weight > 0) <==> Useful(nodes, i, j)
    ensures (exists x :: x in LinkSteps(nodes, 0, i, j) && x.weight == 0) <==> nodes[i].connections[j].link == Connecting
  {
    var steps := LinkSteps(nodes, 0, i, j);
    var link := nodes[i].connections[j].link;
    if link == Connecting {
      assert WeightedStep(0, DoDisconnect(i, j)) in steps;
    }
    if link == StandAlone {
      assert WeightedStep(100, DoConnect(i, j)) in steps;
    } else if Useful(nodes, i, j) {
      assert WeightedStep(700, DoWaitConnect(i, j)) in steps;
    }
  }

  lemma RoleWeights(node: Node, i: nat)
    ensures (exists x :: x in RoleSteps(node, i) && x.weight > 0) <==> node.role == Primary || node.role == Secondary
    ensures forall x :: x in RoleSteps(node, i) ==> x.weight > 0
  {
    assert RoleSteps(node, i) != [] ==> RoleSteps(node, i)[0] in RoleSteps(node, i);
  }

  lemma NoSelfLink(nodes: seq<Node>, total: nat, i: nat)
    requires Square(nodes) && i < |nodes|
    ensures LinkSteps(nodes, total, i, i) == []
  {
  }

  /** A node that gives a step of positive weight. */
  ghost predicate Gives(nodes: seq<Node>, i: nat)
    requires Square(nodes) && i < |nodes|
  {
    nodes[i].future.None?
    && (nodes[i].role == Primary || nodes[i].role == Secondary
        || exists j: nat :: j < |nodes| && i != j && Useful(nodes, i, j))
  }

  /** A node that gives a step of weight zero. */
  ghost predicate GivesZero(nodes: seq<Node>, i: nat)
    requires Square(nodes) && i < |nodes|
  {
    nodes[i].future.None? && exists j: nat :: j < |nodes| && i != j && nodes[i].connections[j].link == Connecting
  }

  lemma NodeWeights(nodes: seq<Node>, i: nat)
    requires Square(nodes) && i < |nodes| && !SomeConnected(nodes)
    ensures (exists x :: x in NodeSteps(nodes, 0, i) && x.weight > 0) <==> Gives(nodes, i)
    ensures (exists x :: x in NodeSteps(nodes, 0, i) && x.weight == 0) <==> GivesZero(nodes, i)
  {
    hide LinkSteps, RoleSteps, NodeSteps, Useful;
    forall x
      ensures x in NodeSteps(nodes, 0, i)
              <==> nodes[i].future.None?
                   && (x in RoleSteps(nodes[i], i)
                       || exists j: nat :: j < |nodes| && x in LinkSteps(nodes, 0, i, j))
    {
      InNode(nodes, 0, i, x);
    }
    RoleWeights(nodes[i], i);
    NoSelfLink(nodes, 0, i);
    forall j: nat | j < |nodes| && j != i
      ensures (exists x :: x in LinkSteps(nodes, 0, i, j) && x.weight > 0) <==> Useful(nodes, i, j)
      ensures (exists x :: x in LinkSteps(nodes, 0, i, j) && x.weight == 0)
              <==> nodes[i].connections[j].link == Connecting
    {
      LinkWeights(nodes, i, j);
    }
  }

  lemma StepsWeights(nodes: seq<Node>)
    requires Square(nodes) && !SomeConnected(nodes)
    ensures (exists x :: x in ListSteps(nodes) && x.weight > 0) <==> exists i: nat :: i < |nodes| && Gives(nodes, i)
    ensures (exists x :: x in ListSteps(nodes) && x.weight == 0) <==> exists i: nat :: i < |nodes| && GivesZero(nodes, i)
  {
    hide NodeSteps, Gives, GivesZero, StepsUpTo;
    CountedIff(nodes);
    forall x
      ensures x in ListSteps(nodes) <==> exists i: nat :: i < |nodes| && x in NodeSteps(nodes, 0, i)
    {
      InSteps(nodes, 0, |nodes|, x);
    }
    forall i: nat | i < |nodes|
      ensures (exists x :: x in NodeSteps(nodes, 0, i) && x.weight > 0) <==> Gives(nodes, i)
      ensures (exists x :: x in NodeSteps(nodes, 0, i) && x.weight == 0) <==> GivesZero(nodes, i)
    {
      NodeWeights(nodes, i);
    }
  }

  lemma TotalPositiveIff(steps: seq<WeightedStep>)
    ensures Sum(Weights(steps)) > 0 <==> exists x :: x in steps && x.weight > 0
    ensures steps != [] ==> exists x :: x in steps
  {
    PositiveTotal(Weights(steps));
    if k :| 0 <= k < |steps| && Weights(steps)[k] > 0 {
      assert steps[k] in steps;
    }
    if x :| x in steps && x.weight > 0 {
      var k :| 0 <= k < |steps| && steps[k] == x;
      assert Weights(steps)[k] > 0;
    }
    assert steps != [] ==> steps[0] in steps;
  }

  /** Exactly when a non-empty list cannot be drawn from. */
  lemma ZeroTotalIff(nodes: seq<Node>)
    requires Square(nodes)
    ensures ListSteps(nodes) != [] && Sum(Weights(ListSteps(nodes))) == 0 <==> Undrawable(nodes)
  {
    hide ListSteps, Useful;
    TotalPositiveIff(ListSteps(nodes));
    if SomeConnected(nodes) {
      ConcurrentListed(nodes);
    } else {
      StepsWeights(nodes);
      UndrawableIs(nodes);
      assert forall x :: x in ListSteps(nodes) ==> x.weight > 0 || x.weight == 0;
    }
  }

  lemma UndrawableIs(nodes: seq<Node>)
    requires Square(nodes) && !SomeConnected(nodes)
    ensures Undrawable(nodes)
            <==> (exists i: nat :: i < |nodes| && GivesZero(nodes, i)) && !exists i: nat :: i < |nodes| && Gives(nodes, i)
  {
    hide Useful, SomeConnected;
    if Undrawable(nodes) {
      var i: nat, j: nat :| i < |nodes| && j < |nodes| && i != j
        && nodes[i].future.None? && nodes[i].connections[j].link == Connecting;
      assert GivesZero(nodes, i);
    }
    if i: nat :| i < |nodes| && GivesZero(nodes, i) {
      var j: nat :| j < |nodes| && i != j && nodes[i].connections[j].link == Connecting;
    }
    assert forall i: nat :: i < |nodes| && Gives(nodes, i) ==> !Undrawable(nodes);
    if !Undrawable(nodes) && !(exists i: nat :: i < |nodes| && Gives(nodes, i)) {
      forall i: nat, j: nat | i < |nodes| && j < |nodes| && i != j && nodes[i].future.None?
        ensures !Useful(nodes, i, j)
      {
        assert !Gives(nodes, i);
      }
      forall i: nat | i < |nodes| && nodes[i].future.None?
        ensures nodes[i].role != Primary && nodes[i].role != Secondary
      {
        assert !Gives(nodes, i);
      }
    }
  }

  lemma ConcurrentListed(nodes: seq<Node>)
    requires Square(nodes) && SomeConnected(nodes)
    ensures WeightedStep(500, DoConcurrentPrimary) in ListSteps(nodes)
  {
    hide StepsUpTo, SomeConnected;
    CountedIff(nodes);
    InSteps(nodes, ClusterConnected(nodes), |nodes|, WeightedStep(500, DoConcurrentPrimary));
  }

  // ---- a run that reaches it ----

  // Two nodes that are connecting.  The first answers every poll with a role that is
  // neither Primary nor Secondary; the second is Secondary, is promoted in the first
  // round and still busy in the second.

  const OTHER := (OtherRole, [UnsetLink, Connecting])
  const ORDINARY := (Secondary, [Connecting, UnsetLink])

  function FirstNode(polled: bool): Node {
    if polled then Node(None, OtherRole, None, [Connection(None, UnsetLink), Connection(None, Connecting)])
    else Node(None, Unset, None, [Connection(None, UnsetLink), Connection(None, UnsetLink)])
  }

  function SecondNode(future: Option<Future>, polled: bool, marker: Option<RoleMarker>): Node {
    if polled then Node(future, Secondary, marker, [Connection(None, Connecting), Connection(None, UnsetLink)])
    else Node(future, Unset, marker, [Connection(None, UnsetLink), Connection(None, UnsetLink)])
  }

  ghost predicate Reached(es: seq<Event>, s: State) {
    Run(Initial(2), es) == Some(s) && Square(s.nodes)
  }

  lemma Next(es: seq<Event>, s: State, e: Event, t: State)
    requires Reached(es, s) && Step(s, e) == Some(t) && Square(t.nodes)
    ensures Reached(es + [e], t)
  {
    assert (es + [e])[..|es|] == es;
  }

  /** The first round up to the choice: both nodes are polled. */
  lemma PollBoth() returns (es: seq<Event>)
    ensures Reached(es, State([FirstNode(true), SecondNode(None, true, None)], Choose, 0))
  {
    hide Run, Reached;
    var unpolled := [FirstNode(false), SecondNode(None, false, None)];
    var half := [FirstNode(true), SecondNode(None, false, None)];
    var both := [FirstNode(true), SecondNode(None, true, None)];
    Begun();
    PolledNodes();
    assert [] + [Main] == [Main];
    Next([], State(unpolled, Check(0, MainLoop), 0), Main, State(unpolled, Check(1, MainLoop), 0));
    Next([Main], State(unpolled, Check(1, MainLoop), 0), Main, State(unpolled, Check(2, MainLoop), 0));
    es := [Main] + [Main];
    Next(es, State(unpolled, Check(2, MainLoop), 0), Main, State(unpolled, Collect(0, MainLoop), 0));
    es := es + [Main];
    assert unpolled[0 := FirstNode(true)] == half && half[1 := SecondNode(None, true, None)] == both;
    Next(es, State(unpolled, Collect(0, MainLoop), 0), Poll(Some(OTHER)), State(half, Collect(1, MainLoop), 0));
    es := es + [Poll(Some(OTHER))];
    Next(es, State(half, Collect(1, MainLoop), 0), Poll(Some(ORDINARY)), State(both, Collect(2, MainLoop), 0));
    es := es + [Poll(Some(ORDINARY))];
    Next(es, State(both, Collect(2, MainLoop), 0), Main, State(both, Choose, 0));
    es := es + [Main];
  }

  lemma PolledNodes()
    ensures Polled(FirstNode(false), OTHER.0, OTHER.1) == FirstNode(true)
    ensures Polled(FirstNode(true), OTHER.0, OTHER.1) == FirstNode(true)
    ensures Polled(SecondNode(None, false, None), ORDINARY.0, ORDINARY.1) == SecondNode(None, true, None)
  {
    assert Polled(FirstNode(false), OTHER.0, OTHER.1).connections == FirstNode(true).connections;
    assert Polled(FirstNode(true), OTHER.0, OTHER.1).connections == FirstNode(true).connections;
    assert Polled(SecondNode(None, false, None), ORDINARY.0, ORDINARY.1).connections
        == SecondNode(None, true, None).connections;
  }

  lemma Begun()
    ensures Reached([], State([FirstNode(false), SecondNode(None, false, None)], Check(0, MainLoop), 0))
  {
    assert InitialNode(2).connections == [Connection(None, UnsetLink), Connection(None, UnsetLink)];
    assert Initial(2).nodes == [FirstNode(false), SecondNode(None, false, None)];
  }

  lemma FirstChoice()
    ensures var both := [FirstNode(true), SecondNode(None, true, None)];
            var ws := Weights(ListSteps(both));
            |ws| == 5 && ListSteps(both)[2].kind == DoPrimary(1) && 700 < Sum(ws) && Selected(ws, 700) == 2
  {
    var both := [FirstNode(true), SecondNode(None, true, None)];
    hide NodeSteps;
    FirstNodeSteps(both);
    SecondNodeSteps(both);
    NothingConnected(both);
    assert StepsUpTo(both, 0, 1) == NodeSteps(both, 0, 0);
    assert StepsUpTo(both, 0, 2) == NodeSteps(both, 0, 0) + NodeSteps(both, 0, 1);
    assert Weights(ListSteps(both)) == [0, 700, 50, 0, 700];
    DrawnThird();
  }

  lemma NothingConnected(both: seq<Node>)
    requires both == [FirstNode(true), SecondNode(None, true, None)]
    ensures ClusterConnected(both) == 0
  {
    CountedIff(both);
  }

  lemma FirstNodeSteps(both: seq<Node>)
    requires both == [FirstNode(true), SecondNode(None, true, None)]
    ensures NodeSteps(both, 0, 0) == [WeightedStep(0, DoDisconnect(0, 1)), WeightedStep(700, DoWaitConnect(0, 1))]
  {
    assert LinksUpTo(both, 0, 0, 1) == [];
    assert LinksUpTo(both, 0, 0, 2) == LinkSteps(both, 0, 0, 1);
  }

  lemma SecondNodeSteps(both: seq<Node>)
    requires both == [FirstNode(true), SecondNode(None, true, None)]
    ensures NodeSteps(both, 0, 1)
            == [WeightedStep(50, DoPrimary(1)), WeightedStep(0, DoDisconnect(1, 0)), WeightedStep(700, DoWaitConnect(1, 0))]
  {
    CountedUpTo(both[1], 1, 2);
    assert LinksUpTo(both, 0, 1, 1) == LinkSteps(both, 0, 1, 0);
    assert LinksUpTo(both, 0, 1, 2) == LinksUpTo(both, 0, 1, 1);
  }

  lemma DrawnThird()
    ensures var ws: seq<nat> := [0, 700, 50, 0, 700];
            700 < Sum(ws) && Selected(ws, 700) == 2
  {
    var ws: seq<nat> := [0, 700, 50, 0, 700];
    assert ws[..0] == [];
    assert ws[..1][..0] == ws[..0] && ws[..2][..1] == ws[..1] && ws[..3][..2] == ws[..2];
    assert Sum(ws[..1]) == 0 && Sum(ws[..2]) == 700 && Sum(ws[..3]) == 750;
    PrefixMonotone(ws, 3, 5);
    assert ws[..5] == ws;
    assert Selects(ws, 700, 2);
    SelectsOne(ws, 700, 2, Selected(ws, 700));
  }

  const QUEUED := Some(Future(Promote, Queued))
  const PROMOTING := Some(PrimaryRunning)

  lemma SubmitPromotion() returns (es: seq<Event>)
    ensures Reached(es, State([FirstNode(true), SecondNode(QUEUED, true, PROMOTING)], Check(0, MainLoop), 1))
  {
    hide Run, Reached, ListSteps, Selected, Sum, Weights;
    var both := [FirstNode(true), SecondNode(None, true, None)];
    var marked := [FirstNode(true), SecondNode(None, true, PROMOTING)];
    var busy := [FirstNode(true), SecondNode(QUEUED, true, PROMOTING)];
    es := PollBoth();
    FirstChoice();
    assert both[1 := SecondNode(None, true, PROMOTING)] == marked;
    Next(es, State(both, Choose, 0), DrawNumber(700), State(marked, Submit(1, Promote, ToSleep), 0));
    es := es + [DrawNumber(700)];
    assert marked[1 := SecondNode(QUEUED, true, PROMOTING)] == busy;
    Next(es, State(marked, Submit(1, Promote, ToSleep), 0), Main, State(busy, Sleep, 0));
    es := es + [Main];
    Next(es, State(busy, Sleep, 0), Main, State(busy, Check(0, MainLoop), 1));
    es := es + [Main];
  }

  lemma SecondRound() returns (es: seq<Event>)
    ensures Reached(es, State([FirstNode(true), SecondNode(QUEUED, true, PROMOTING)], Choose, 1))
  {
    hide Run, Reached;
    var busy := [FirstNode(true), SecondNode(QUEUED, true, PROMOTING)];
    es := SubmitPromotion();
    Next(es, State(busy, Check(0, MainLoop), 1), Main, State(busy, Check(1, MainLoop), 1));
    es := es + [Main];
    Next(es, State(busy, Check(1, MainLoop), 1), Main, State(busy, Check(2, MainLoop), 1));
    es := es + [Main];
    Next(es, State(busy, Check(2, MainLoop), 1), Main, State(busy, Collect(0, MainLoop), 1));
    es := es + [Main];
    PolledNodes();
    assert busy[0 := FirstNode(true)] == busy;
    Next(es, State(busy, Collect(0, MainLoop), 1), Poll(Some(OTHER)), State(busy, Collect(1, MainLoop), 1));
    es := es + [Poll(Some(OTHER))];
    Next(es, State(busy, Collect(1, MainLoop), 1), Main, State(busy, Collect(2, MainLoop), 1));
    es := es + [Main];
    Next(es, State(busy, Collect(2, MainLoop), 1), Main, State(busy, Choose, 1));
    es := es + [Main];
  }

  lemma BusyUndrawable()
    ensures Undrawable([FirstNode(true), SecondNode(QUEUED, true, PROMOTING)])
  {
    var busy := [FirstNode(true), SecondNode(QUEUED, true, PROMOTING)];
    assert busy[0].connections[1].link == Connecting;
  }

  /** The promise that there is something to draw from fails: a run of two nodes, one
      of which reports another role, comes to a non-empty list of total weight zero,
      and ends with the exception of the draw. */
  lemma ZeroTotalReached()
    ensures exists es :: Run(Initial(2), es).Some?
              && var s := Run(Initial(2), es).value;
                 s.place == Choose && Square(s.nodes) && Undrawable(s.nodes)
                 && MainStep(s, Main) == Some(GoTo(s, Ended(Failed)))
  {
    hide ListSteps, Undrawable, Run;
    var es := SecondRound();
    var s := Run(Initial(2), es).value;
    BusyUndrawable();
    ZeroTotalIff(s.nodes);
  }
}
