/** Which steps tests_special/random offers, and that a drawn step submits its command to
    a node whose polled state calls for it. */
module ExplorerSteps {
  import opened Wrappers
  import opened WeightedDraw
  import opened RandomExplorer
  import opened ExplorerSafety
  import opened ExplorerTotals

  // ---- the counts ----

  /** The peers among the first k that a node is connected to, in order. */
  ghost function PeersUpTo(node: Node, i: nat, k: nat): (ps: seq<nat>)
    requires k <= |node.connections|
    ensures forall j: nat :: j in ps <==> j < k && j != i && node.connections[j].link == Connected
    ensures forall a, b :: 0 <= a < b < |ps| ==> ps[a] < ps[b]
  {
    if k == 0 then []
    else
      var before := PeersUpTo(node, i, k - 1);
      if k - 1 != i && node.connections[k - 1].link == Connected then
        assert forall a :: 0 <= a < |before| ==> before[a] in before;
        before + [k - 1]
      else before
  }

  ghost function Peers(node: Node, i: nat): seq<nat> {
    PeersUpTo(node, i, |node.connections|)
  }

  lemma {:induction false} PeersCounted(node: Node, i: nat, k: nat)
    requires k <= |node.connections|
    ensures ConnectedUpTo(node, i, k) == |PeersUpTo(node, i, k)|
  {
    if k > 0 {
      PeersCounted(node, i, k - 1);
    }
  }

  function From(i: nat, peers: seq<nat>): (s: seq<(nat, nat)>)
    ensures |s| == |peers| && forall a :: 0 <= a < |s| ==> s[a] == (i, peers[a])
  {
    seq(|peers|, a requires 0 <= a < |peers| => (i, peers[a]))
  }

  /** The connected connections of the first k nodes, each once. */
  ghost function LinksConnected(nodes: seq<Node>, k: nat): (s: seq<(nat, nat)>)
    requires k <= |nodes|
    ensures forall i: nat, j: nat :: (i, j) in s <==> i < k && j in Peers(nodes[i], i)
    ensures forall a, b :: 0 <= a < b < |s| ==> s[a] != s[b]
  {
    if k == 0 then []
    else
      var before, more := LinksConnected(nodes, k - 1), From(k - 1, Peers(nodes[k - 1], k - 1));
      MoreLinks(before, k - 1, Peers(nodes[k - 1], k - 1));
      before + more
  }

  lemma MoreLinks(before: seq<(nat, nat)>, i: nat, peers: seq<nat>)
    requires forall a :: 0 <= a < |before| ==> before[a].0 < i
    requires forall a, b :: 0 <= a < b < |before| ==> before[a] != before[b]
    requires forall a, b :: 0 <= a < b < |peers| ==> peers[a] < peers[b]
    ensures var s := before + From(i, peers);
            (forall a, b :: 0 <= a < b < |s| ==> s[a] != s[b])
            && forall p: nat, q: nat :: (p, q) in s <==> (p, q) in before || (p == i && q in peers)
  {
    var more := From(i, peers);
    forall q: nat
      ensures (i, q) in more <==> q in peers
    {
      if q in peers {
        var a :| 0 <= a < |peers| && peers[a] == q;
        assert more[a] == (i, q);
      }
    }
    forall a, b | 0 <= a < b < |before + more|
      ensures (before + more)[a] != (before + more)[b]
    {
      if b >= |before| {
        assert (before + more)[b] == more[b - |before|];
      }
    }
  }

  lemma {:induction false} LinksCounted(nodes: seq<Node>, k: nat)
    requires k <= |nodes|
    ensures ClusterConnected(nodes[..k]) == |LinksConnected(nodes, k)|
  {
    if k > 0 {
      LinksCounted(nodes, k - 1);
      assert nodes[..k][..k - 1] == nodes[..k - 1];
      NodeCounted(nodes[k - 1], k - 1);
    }
  }

  lemma NodeCounted(node: Node, i: nat)
    ensures ConnectedCount(node, i) == |Peers(node, i)|
  {
    PeersCounted(node, i, |node.connections|);
  }

  // ---- the list ----

  ghost predicate Idle(nodes: seq<Node>, i: nat) {
    i < |nodes| && nodes[i].future.None?
  }

  /** An idle node and another one. */
  ghost predicate IdlePair(nodes: seq<Node>, f: nat, t: nat) {
    Idle(nodes, f) && t < |nodes| && t != f
  }

  predicate IsUp(link: Link) {
    link == Connecting || link == Connected
  }

  /** The steps to offer, with their weights. */
  ghost predicate Offered(nodes: seq<Node>, x: WeightedStep)
    requires Square(nodes)
  {
    var connected, kind, w := |LinksConnected(nodes, |nodes|)|, x.kind, x.weight;
    (kind.DoConcurrentPrimary? ==> connected > 0 && w == 500)
    && (kind.DoPrimary? ==>
          Idle(nodes, kind.i) && nodes[kind.i].role == Secondary && w == 50 + 100 * |Peers(nodes[kind.i], kind.i)|)
    && (kind.DoSecondary? ==> Idle(nodes, kind.i) && nodes[kind.i].role == Primary && w == 100)
    && (kind.DoDisconnect? ==>
          IdlePair(nodes, kind.f, kind.t) && IsUp(nodes[kind.f].connections[kind.t].link) && w == 10 * connected)
    && (kind.DoConnect? ==>
          IdlePair(nodes, kind.f, kind.t) && nodes[kind.f].connections[kind.t].link == StandAlone && w == 100)
    && (kind.DoWaitConnect? ==>
          IdlePair(nodes, kind.f, kind.t) && nodes[kind.f].connections[kind.t].link != Connected
          && nodes[kind.f].connections[kind.t].link != StandAlone
          && Idle(nodes, kind.t) && nodes[kind.t].connections[kind.f].link != StandAlone && w == 700)
  }

  ghost predicate LinkOffered(nodes: seq<Node>, i: nat, j: nat, x: WeightedStep)
    requires Square(nodes)
  {
    Offered(nodes, x)
    && (x.kind == DoDisconnect(i, j) || x.kind == DoConnect(i, j) || x.kind == DoWaitConnect(i, j))
  }

  ghost predicate RoleOffered(nodes: seq<Node>, i: nat, x: WeightedStep)
    requires Square(nodes)
  {
    Offered(nodes, x) && (x.kind == DoPrimary(i) || x.kind == DoSecondary(i))
  }

  ghost predicate NodeOffered(nodes: seq<Node>, i: nat, x: WeightedStep)
    requires Square(nodes)
  {
    RoleOffered(nodes, i, x) || exists j: nat :: LinkOffered(nodes, i, j, x)
  }

  lemma AllCounted(nodes: seq<Node>)
    ensures ClusterConnected(nodes) == |LinksConnected(nodes, |nodes|)|
  {
    LinksCounted(nodes, |nodes|);
    assert nodes[..|nodes|] == nodes;
  }

  lemma LinkListed(nodes: seq<Node>, i: nat, j: nat, x: WeightedStep)
    requires Square(nodes) && j < |nodes| && Idle(nodes, i)
    ensures x in LinkSteps(nodes, ClusterConnected(nodes), i, j) ==> LinkOffered(nodes, i, j, x)
    ensures LinkOffered(nodes, i, j, x) ==> x in LinkSteps(nodes, ClusterConnected(nodes), i, j)
  {
    hide ClusterConnected, LinksConnected, Peers;
    AllCounted(nodes);
  }

  lemma RoleListed(nodes: seq<Node>, i: nat, x: WeightedStep)
    requires Square(nodes) && Idle(nodes, i)
    ensures x in RoleSteps(nodes[i], i) <==> RoleOffered(nodes, i, x)
  {
    hide ConnectedCount, Peers, LinksConnected;
    NodeCounted(nodes[i], i);
  }

  /** The steps of one node. */
  lemma NodeListed(nodes: seq<Node>, i: nat, x: WeightedStep)
    requires Square(nodes) && i < |nodes|
    ensures x in NodeSteps(nodes, ClusterConnected(nodes), i) <==>
              NodeOffered(nodes, i, x)
  {
    hide ConnectedCount, Peers, NodeSteps, ClusterConnected, LinkSteps, RoleSteps, LinksConnected;
    InNode(nodes, ClusterConnected(nodes), i, x);
    if nodes[i].future.None? {
      RoleListed(nodes, i, x);
      forall j: nat | j < |nodes|
        ensures x in LinkSteps(nodes, ClusterConnected(nodes), i, j) <==> LinkOffered(nodes, i, j, x)
      {
        LinkListed(nodes, i, j, x);
      }
    }
    assert forall j: nat :: LinkOffered(nodes, i, j, x) ==> j < |nodes| && nodes[i].future.None?;
  }

  /** The list holds exactly the steps to offer. */
  lemma ListedIff(nodes: seq<Node>, x: WeightedStep)
    requires Square(nodes)
    ensures x in ListSteps(nodes) <==> Offered(nodes, x)
  {
    hide NodeSteps, ClusterConnected, LinksConnected, NodeOffered, Peers;
    AllCounted(nodes);
    InSteps(nodes, ClusterConnected(nodes), |nodes|, x);
    forall i: nat | i < |nodes|
      ensures x in NodeSteps(nodes, ClusterConnected(nodes), i) <==>
                NodeOffered(nodes, i, x)
    {
      NodeListed(nodes, i, x);
    }
    forall i: nat
      ensures NodeOffered(nodes, i, x) ==> Offered(nodes, x) && !x.kind.DoConcurrentPrimary?
    {
      if NodeOffered(nodes, i, x) {
        OfANode(nodes, i, x);
      }
    }
    if x.kind.DoConcurrentPrimary? {
      assert x == WeightedStep(x.weight, DoConcurrentPrimary);
    } else if Offered(nodes, x) {
      OfferedForSome(nodes, x);
    }
  }

  lemma OfANode(nodes: seq<Node>, i: nat, x: WeightedStep)
    requires Square(nodes) && NodeOffered(nodes, i, x)
    ensures Offered(nodes, x) && !x.kind.DoConcurrentPrimary?
  {
    hide LinksConnected, Peers;
  }

  lemma OfferedForSome(nodes: seq<Node>, x: WeightedStep)
    requires Square(nodes) && !x.kind.DoConcurrentPrimary? && Offered(nodes, x)
    ensures exists i: nat :: i < |nodes| && NodeOffered(nodes, i, x)
  {
    hide LinksConnected, Peers;
    if x.kind.DoPrimary? || x.kind.DoSecondary? {
      assert RoleOffered(nodes, x.kind.i, x);
      assert NodeOffered(nodes, x.kind.i, x);
    } else {
      assert LinkOffered(nodes, x.kind.f, x.kind.t, x);
      assert NodeOffered(nodes, x.kind.f, x);
    }
  }

  // ---- the order of the list ----

  /** The node that a step is for. */
  function NodeOf(kind: StepKind): nat {
    match kind
    case DoConcurrentPrimary => 0
    case DoPrimary(i) => i
    case DoSecondary(i) => i
    case DoDisconnect(f, _) => f
    case DoConnect(f, _) => f
    case DoWaitConnect(f, _) => f
  }

  /** The role first, then the peers in order, waiting last. */
  function SlotOf(kind: StepKind): nat {
    match kind
    case DoDisconnect(_, t) => 1 + 2 * t
    case DoConnect(_, t) => 1 + 2 * t
    case DoWaitConnect(_, t) => 2 + 2 * t
    case _ => 0
  }

  predicate Earlier(a: StepKind, b: StepKind) {
    if a.DoConcurrentPrimary? || b.DoConcurrentPrimary? then a.DoConcurrentPrimary? && !b.DoConcurrentPrimary?
    else NodeOf(a) < NodeOf(b) || (NodeOf(a) == NodeOf(b) && SlotOf(a) < SlotOf(b))
  }

  ghost predicate InOrder(steps: seq<WeightedStep>) {
    forall a, b :: 0 <= a < b < |steps| ==> Earlier(steps[a].kind, steps[b].kind)
  }

  /** All steps are for one node, in the slots of some range. */
  ghost predicate Between(steps: seq<WeightedStep>, i: nat, lo: nat, hi: nat) {
    forall a :: 0 <= a < |steps| ==>
      !steps[a].kind.DoConcurrentPrimary? && NodeOf(steps[a].kind) == i && lo <= SlotOf(steps[a].kind) < hi
  }

  lemma {:induction false} LinksInOrder(nodes: seq<Node>, total: nat, i: nat, k: nat)
    requires Square(nodes) && i < |nodes| && k <= |nodes|
    ensures InOrder(LinksUpTo(nodes, total, i, k)) && Between(LinksUpTo(nodes, total, i, k), i, 1, 1 + 2 * k)
  {
    if k > 0 {
      LinksInOrder(nodes, total, i, k - 1);
      var more := LinkSteps(nodes, total, i, k - 1);
      assert InOrder(more) && Between(more, i, 1 + 2 * (k - 1), 1 + 2 * k);
      OneAfterTheOther(LinksUpTo(nodes, total, i, k - 1), more, i, 1, 1 + 2 * (k - 1), 1 + 2 * k);
    }
  }

  lemma OneAfterTheOther(s: seq<WeightedStep>, t: seq<WeightedStep>, i: nat, lo: nat, mid: nat, hi: nat)
    requires InOrder(s) && InOrder(t) && Between(s, i, lo, mid) && Between(t, i, mid, hi) && lo <= mid <= hi
    ensures InOrder(s + t) && Between(s + t, i, lo, hi)
  {
  }

  lemma NodeInOrder(nodes: seq<Node>, total: nat, i: nat)
    requires Square(nodes) && i < |nodes|
    ensures InOrder(NodeSteps(nodes, total, i)) && Between(NodeSteps(nodes, total, i), i, 0, 1 + 2 * |nodes|)
  {
    hide LinksUpTo;
    if nodes[i].future.None? {
      LinksInOrder(nodes, total, i, |nodes|);
      OneAfterTheOther(RoleSteps(nodes[i], i), LinksUpTo(nodes, total, i, |nodes|), i, 0, 1, 1 + 2 * |nodes|);
    }
  }

  lemma {:induction false} StepsInOrder(nodes: seq<Node>, total: nat, k: nat)
    requires Square(nodes) && k <= |nodes|
    ensures InOrder(StepsUpTo(nodes, total, k))
    ensures forall a :: 0 <= a < |StepsUpTo(nodes, total, k)| ==>
              StepsUpTo(nodes, total, k)[a].kind.DoConcurrentPrimary? || NodeOf(StepsUpTo(nodes, total, k)[a].kind) < k
  {
    hide NodeSteps;
    if k > 0 {
      StepsInOrder(nodes, total, k - 1);
      NodeInOrder(nodes, total, k - 1);
    }
  }

  /** The concurrent promotion comes first, then the nodes in order, each with its role and
      then its peers in order; so no step is listed twice. */
  lemma ListInOrder(nodes: seq<Node>)
    requires Square(nodes)
    ensures InOrder(ListSteps(nodes))
  {
    StepsInOrder(nodes, ClusterConnected(nodes), |nodes|);
  }

  // ---- the step that is drawn ----

  /** What the main thread does next: the command of the step, or where the step begins. */
  function PlaceOf(kind: StepKind): Place {
    match kind
    case DoConcurrentPrimary => WaitAll(BeforeDemote)
    case DoPrimary(i) => Submit(i, Promote, ToSleep)
    case DoSecondary(i) => Submit(i, Demote, ToSleep)
    case DoDisconnect(f, t) => Submit(f, Disconnect(t), ToSleep)
    case DoConnect(f, t) => Submit(f, Connect(t), ToSleep)
    case DoWaitConnect(f, t) => Collect(0, WaitConnect(0, f, t))
  }

  /** What was polled is the same. */
  ghost predicate SameReports(a: seq<Node>, b: seq<Node>) {
    |a| == |b|
    && (forall i :: 0 <= i < |a| ==> a[i].role == b[i].role && |a[i].connections| == |b[i].connections|)
    && forall i, j :: 0 <= i < |a| && 0 <= j < |a[i].connections| ==> a[i].connections[j].link == b[i].connections[j].link
  }

  /** A drawn number leads to the one step whose interval of the running sum holds it, and
      the step begins with its own command. */
  lemma DrawnStep(s: State, drawn: nat)
    requires Square(s.nodes) && s.place == Choose && Step(s, DrawNumber(drawn)).Some?
    ensures var t, steps := Step(s, DrawNumber(drawn)).value, ListSteps(s.nodes);
            SameReports(s.nodes, t.nodes)
            && exists k: nat :: Selects(Weights(steps), drawn, k) && Offered(s.nodes, steps[k]) && t.place == PlaceOf(steps[k].kind)
  {
    hide ListSteps, Offered;
    var steps := ListSteps(s.nodes);
    var k := Selected(Weights(steps), drawn);
    assert steps[k] in steps;
    ListedIff(s.nodes, steps[k]);
    assert Step(s, DrawNumber(drawn)) == BeginStep(s, steps[k].kind);
    assert Selects(Weights(steps), drawn, k);
  }

  // ---- submitted commands ----

  /** The polled state of the node calls for the command. */
  ghost predicate Fits(nodes: seq<Node>, i: nat, c: Command, next: Next) {
    i < |nodes|
    && (c.Demote? ==> nodes[i].role == Primary)
    && (c.Promote? && next.ToSleep? ==> nodes[i].role == Secondary)
    && (c.Disconnect? ==> c.to < |nodes[i].connections| && c.to != i && IsUp(nodes[i].connections[c.to].link))
    && (c.Connect? ==> c.to < |nodes[i].connections| && c.to != i && nodes[i].connections[c.to].link == StandAlone)
    && (next.ToDemote? || next.ToFinalDemote? ==> c == Demote)
    && (next.ToPromote? ==> c == Promote)
  }

  ghost predicate SubmitFits(s: State) {
    s.place.Submit? ==> Fits(s.nodes, s.place.i, s.place.command, s.place.next)
  }

  lemma WorkersKeepReports(s: State, e: Event)
    requires Square(s.nodes) && WorkerStep(s, e).Some?
    ensures var t := WorkerStep(s, e).value; SameReports(s.nodes, t.nodes) && t.place == s.place
  {
  }

  lemma BeginKeepsReports(s: State, i: nat, c: Command, next: Next)
    requires Square(s.nodes) && i < |s.nodes|
    ensures SameReports(s.nodes, Begin(s, i, c, next).nodes)
  {
  }

  lemma FitsOn(a: seq<Node>, b: seq<Node>, i: nat, c: Command, next: Next)
    requires SameReports(a, b) && Fits(a, i, c, next)
    ensures Fits(b, i, c, next)
  {
  }

  lemma DrawnFits(s: State, drawn: nat)
    requires Square(s.nodes) && s.place == Choose && Step(s, DrawNumber(drawn)).Some?
    ensures SubmitFits(Step(s, DrawNumber(drawn)).value)
  {
    hide Step, ListSteps, Peers, LinksConnected;
    DrawnStep(s, drawn);
    var t, steps := Step(s, DrawNumber(drawn)).value, ListSteps(s.nodes);
    var k: nat :| Selects(Weights(steps), drawn, k) && Offered(s.nodes, steps[k]) && t.place == PlaceOf(steps[k].kind);
    if t.place.Submit? {
      assert Fits(s.nodes, t.place.i, t.place.command, t.place.next);
      FitsOn(s.nodes, t.nodes, t.place.i, t.place.command, t.place.next);
    }
  }

  lemma MainFits(s: State, e: Event)
    requires Square(s.nodes) && MainStep(s, e).Some?
    ensures SubmitFits(MainStep(s, e).value)
  {
    hide ListSteps, BeginStep, Fits;
    if s.place == Choose {
      if e.DrawNumber? {
        DrawnFits(s, e.drawn);
      }
    } else if s.place.DemoteAll? || s.place.FinalDemote? || s.place.PromoteAll? {
      LoopFits(s, e);
    }
  }

  lemma LoopFits(s: State, e: Event)
    requires Square(s.nodes) && MainStep(s, e).Some? && (s.place.DemoteAll? || s.place.FinalDemote? || s.place.PromoteAll?)
    ensures SubmitFits(MainStep(s, e).value)
  {
    hide ListSteps, BeginStep;
    var t := MainStep(s, e).value;
    if t.place.Submit? {
      BeginKeepsReports(s, s.place.i, t.place.command, t.place.next);
    }
  }

  /** In every run, a command that is about to be submitted is one that the last polled
      state of its node calls for: what is disconnected is up, what is connected stands
      alone, what is promoted on its own is Secondary, and what is demoted is Primary. */
  lemma {:induction false} RunFits(n: nat, es: seq<Event>)
    requires Run(Initial(n), es).Some?
    ensures SubmitFits(Run(Initial(n), es).value)
  {
    hide MainStep, WorkerStep, Fits;
    if es != [] {
      RunFits(n, es[..|es| - 1]);
      var before, e := Run(Initial(n), es[..|es| - 1]).value, es[|es| - 1];
      if IsWorkerEvent(e) {
        WorkersKeepReports(before, e);
        if before.place.Submit? {
          FitsOn(before.nodes, Run(Initial(n), es).value.nodes, before.place.i, before.place.command, before.place.next);
        }
      } else {
        MainFits(before, e);
      }
    }
  }
}
