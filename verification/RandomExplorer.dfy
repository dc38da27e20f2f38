/** tests_special/random: a main thread that picks steps at random, and a pool of
    worker threads that run one command per node at a time.  Every statement that
    touches shared state is a step of its own, so the workers can interleave
    anywhere. */
module RandomExplorer {
  import opened Wrappers
  import opened WeightedDraw

  // ---- state ----

  datatype Command = Promote | Demote | Disconnect(to: nat) | Connect(to: nat)

  /** Cleared: the command has returned and its marker is reset, but the future is
      not done yet. */
  datatype Status = Queued | Executing | Cleared | Done | Raised

  datatype Future = Future(command: Command, status: Status)

  datatype RoleMarker = PrimaryRunning | SecondaryRunning
  datatype ConnectMarker = ConnectRunning | DisconnectRunning

  datatype Role = Unset | Primary | Secondary | OtherRole
  datatype Link = UnsetLink | Connecting | Connected | StandAlone | OtherLink

  datatype Connection = Connection(marker: Option<ConnectMarker>, link: Link)

  /** `connections` has an entry for every node; the one for the node itself is
      never used. */
  datatype Node = Node(future: Option<Future>, role: Role, marker: Option<RoleMarker>, connections: seq<Connection>)

  /** Where collect_state is called from. */
  datatype Caller = MainLoop | WaitConnect(round: nat, f: nat, t: nat) | BeforeDemote | BeforePromote | BeforeCount

  /** Where the thread goes on after submitting a command. */
  datatype Next = ToSleep | ToDemote(i: nat) | ToPromote(i: nat) | ToFinalDemote(i: nat)

  datatype Outcome = Stopped | Finished | Failed

  /** The main thread's place in the script. */
  datatype Place =
    | Check(i: nat, caller: Caller)      // check_for_completion, at node i
    | Collect(i: nat, caller: Caller)    // collect_state, at node i
    | Choose                             // list_steps and the draw
    | Submit(i: nat, command: Command, next: Next)  // marker set, submit to follow
    | WaitFirst                          // wait(..., FIRST_COMPLETED)
    | WaitAll(caller: Caller)            // wait(...)
    | TestConnect(round: nat, f: nat, t: nat)
    | DemoteAll(i: nat) | PromoteAll(i: nat) | CountPrimaries(i: nat, found: nat) | FinalDemote(i: nat)
    | Sleep
    | Ended(outcome: Outcome)

  datatype State = State(nodes: seq<Node>, place: Place, round: nat)

  const ROUNDS := 100
  const CONNECT_ROUNDS := 10

  // ---- list_steps ----

  datatype StepKind =
    | DoConcurrentPrimary
    | DoPrimary(i: nat) | DoSecondary(i: nat)
    | DoDisconnect(f: nat, t: nat) | DoConnect(f: nat, t: nat) | DoWaitConnect(f: nat, t: nat)

  datatype WeightedStep = WeightedStep(weight: nat, kind: StepKind)

  /** The number of peers 0..k-1 that node i is connected to. */
  function ConnectedUpTo(node: Node, i: nat, k: nat): nat
    requires k <= |node.connections|
  {
    if k == 0 then 0
    else ConnectedUpTo(node, i, k - 1) + (if k - 1 != i && node.connections[k - 1].link == Connected then 1 else 0)
  }

  function ConnectedCount(node: Node, i: nat): nat {
    ConnectedUpTo(node, i, |node.connections|)
  }

  function ClusterConnected(nodes: seq<Node>): nat {
    if nodes == [] then 0
    else ClusterConnected(nodes[..|nodes| - 1]) + ConnectedCount(nodes[|nodes| - 1], |nodes| - 1)
  }

  function RoleSteps(node: Node, i: nat): seq<WeightedStep> {
    match node.role
    case Secondary => [WeightedStep(50 + 100 * ConnectedCount(node, i), DoPrimary(i))]
    case Primary => [WeightedStep(100, DoSecondary(i))]
    case _ => []
  }

  predicate Square(nodes: seq<Node>) {
    forall i :: 0 <= i < |nodes| ==> |nodes[i].connections| == |nodes|
  }

  /** The steps for the connection from node i to node j. */
  function LinkSteps(nodes: seq<Node>, total: nat, i: nat, j: nat): seq<WeightedStep>
    requires Square(nodes) && i < |nodes| && j < |nodes|
  {
    if i == j then []
    else
      var link := nodes[i].connections[j].link;
      (if link == Connecting || link == Connected then [WeightedStep(10 * total, DoDisconnect(i, j))]
       else if link == StandAlone then [WeightedStep(100, DoConnect(i, j))]
       else [])
      + (if link != Connected && link != StandAlone
            && nodes[j].future.None? && nodes[j].connections[i].link != StandAlone
         then [WeightedStep(700, DoWaitConnect(i, j))] else [])
  }

  function LinksUpTo(nodes: seq<Node>, total: nat, i: nat, j: nat): seq<WeightedStep>
    requires Square(nodes) && i < |nodes| && j <= |nodes|
  {
    if j == 0 then [] else LinksUpTo(nodes, total, i, j - 1) + LinkSteps(nodes, total, i, j - 1)
  }

  function NodeSteps(nodes: seq<Node>, total: nat, i: nat): seq<WeightedStep>
    requires Square(nodes) && i < |nodes|
  {
    if nodes[i].future.Some? then []
    else RoleSteps(nodes[i], i) + LinksUpTo(nodes, total, i, |nodes|)
  }

  function StepsUpTo(nodes: seq<Node>, total: nat, i: nat): seq<WeightedStep>
    requires Square(nodes) && i <= |nodes|
  {
    if i == 0 then (if total > 0 then [WeightedStep(500, DoConcurrentPrimary)] else [])
    else StepsUpTo(nodes, total, i - 1) + NodeSteps(nodes, total, i - 1)
  }

  /** What `list_steps` returns. */
  function ListSteps(nodes: seq<Node>): seq<WeightedStep>
    requires Square(nodes)
  {
    StepsUpTo(nodes, ClusterConnected(nodes), |nodes|)
  }

  /** `cluster_connected_count` is a sum over the nodes. */
  method CountConnected(nodes: seq<Node>) returns (total: nat)
    ensures total == ClusterConnected(nodes)
  {
    total := 0;
    for i := 0 to |nodes|
      invariant total == ClusterConnected(nodes[..i])
    {
      assert nodes[..i + 1][..i] == nodes[..i];
      total := total + ConnectedCount(nodes[i], i);
    }
    assert nodes[..|nodes|] == nodes;
  }

  /** `list_steps` as it is written: a list grown in two nested loops. */
  method ListStepsLoop(nodes: seq<Node>) returns (steps: seq<WeightedStep>)
    requires Square(nodes)
    ensures steps == ListSteps(nodes)
  {
    steps := [];
    var total := CountConnected(nodes);
    if total > 0 {
      steps := steps + [WeightedStep(500, DoConcurrentPrimary)];
    }
    for i := 0 to |nodes|
      invariant steps == StepsUpTo(nodes, total, i)
    {
      if nodes[i].future.None? {
        var links := ListLinkSteps(nodes, total, i);
        steps := steps + (RoleSteps(nodes[i], i) + links);
      }
    }
  }

  /** The inner loop, over the connections of node i. */
  method ListLinkSteps(nodes: seq<Node>, total: nat, i: nat) returns (steps: seq<WeightedStep>)
    requires Square(nodes) && i < |nodes|
    ensures steps == LinksUpTo(nodes, total, i, |nodes|)
  {
    steps := [];
    for j := 0 to |nodes|
      invariant steps == LinksUpTo(nodes, total, i, j)
    {
      steps := steps + LinkSteps(nodes, total, i, j);
    }
  }

  function Weights(steps: seq<WeightedStep>): (ws: seq<nat>)
    ensures |ws| == |steps| && forall k :: 0 <= k < |steps| ==> ws[k] == steps[k].weight
  {
    seq(|steps|, k requires 0 <= k < |steps| => steps[k].weight)
  }

  // ---- the steps of the system ----

  /** What the outside world decides: the polled status of a node (None when the
      command raises), the drawn number, whether a write raises, or that a worker
      thread moves. */
  datatype Event =
    | Main
    | Poll(answer: Option<(Role, seq<Link>)>)
    | DrawNumber(drawn: nat)
    | Write(raises: bool)
    | Start(i: nat)          // a pool thread takes the queued command of node i
    | Return(i: nat)         // the command returns, the marker is reset
    | Fail(i: nat)           // the command raises
    | Complete(i: nat)       // the future becomes done

  predicate Settled(f: Future) {
    f.status == Done || f.status == Raised
  }

  predicate Busy(n: Node) {
    n.future.Some? && (n.future.value.status == Executing || n.future.value.status == Cleared)
  }

  function BusyCount(nodes: seq<Node>): nat {
    if nodes == [] then 0 else BusyCount(nodes[..|nodes| - 1]) + (if Busy(nodes[|nodes| - 1]) then 1 else 0)
  }

  function WithRole(n: Node, m: Option<RoleMarker>): Node {
    n.(marker := m)
  }

  function WithLink(n: Node, j: nat, m: Option<ConnectMarker>): Node {
    if j < |n.connections| then n.(connections := n.connections[j := n.connections[j].(marker := m)]) else n
  }

  /** Sets the marker that belongs to a command. */
  function SetMarker(n: Node, c: Command): Node {
    match c
    case Promote => WithRole(n, Some(PrimaryRunning))
    case Demote => WithRole(n, Some(SecondaryRunning))
    case Connect(j) => WithLink(n, j, Some(ConnectRunning))
    case Disconnect(j) => WithLink(n, j, Some(DisconnectRunning))
  }

  function ResetMarker(n: Node, c: Command): Node {
    match c
    case Promote => WithRole(n, None)
    case Demote => WithRole(n, None)
    case Connect(j) => WithLink(n, j, None)
    case Disconnect(j) => WithLink(n, j, None)
  }

  function AfterCollect(c: Caller): Place {
    match c
    case MainLoop => Choose
    case WaitConnect(round, f, t) => TestConnect(round, f, t)
    case BeforeDemote => DemoteAll(0)
    case BeforePromote => PromoteAll(0)
    case BeforeCount => CountPrimaries(0, 0)
  }

  function AfterSubmit(next: Next): Place {
    match next
    case ToSleep => Sleep
    case ToDemote(i) => DemoteAll(i)
    case ToPromote(i) => PromoteAll(i)
    case ToFinalDemote(i) => FinalDemote(i)
  }

  function Polled(n: Node, role: Role, links: seq<Link>): Node {
    n.(role := role,
       connections := seq(|n.connections|, j requires 0 <= j < |n.connections| =>
                            if j < |links| then n.connections[j].(link := links[j]) else n.connections[j]))
  }

  function GoTo(s: State, p: Place): State {
    s.(place := p)
  }

  function SetNode(s: State, i: nat, n: Node): State
    requires i < |s.nodes|
  {
    s.(nodes := s.nodes[i := n])
  }

  /** Marks node i and goes on to submit the command. */
  function Begin(s: State, i: nat, c: Command, next: Next): State
    requires i < |s.nodes|
  {
    GoTo(SetNode(s, i, SetMarker(s.nodes[i], c)), Submit(i, c, next))
  }

  /** The body of the step functions. */
  function BeginStep(s: State, kind: StepKind): Option<State> {
    var n := |s.nodes|;
    match kind
    case DoConcurrentPrimary => Some(GoTo(s, WaitAll(BeforeDemote)))
    case DoPrimary(i) => if i < n then Some(Begin(s, i, Promote, ToSleep)) else None
    case DoSecondary(i) => if i < n then Some(Begin(s, i, Demote, ToSleep)) else None
    case DoDisconnect(f, t) => if f < n then Some(Begin(s, f, Disconnect(t), ToSleep)) else None
    case DoConnect(f, t) => if f < n then Some(Begin(s, f, Connect(t), ToSleep)) else None
    case DoWaitConnect(f, t) => Some(GoTo(s, Collect(0, WaitConnect(0, f, t))))
  }

  predicate AllSettled(nodes: seq<Node>) {
    forall i :: 0 <= i < |nodes| && nodes[i].future.Some? ==> Settled(nodes[i].future.value)
  }

  predicate SomeSettled(nodes: seq<Node>) {
    exists i :: 0 <= i < |nodes| && nodes[i].future.Some? && Settled(nodes[i].future.value)
  }

  predicate NoFutures(nodes: seq<Node>) {
    forall i :: 0 <= i < |nodes| ==> nodes[i].future.None?
  }

  /** The two demoting loops of step_concurrent_primary: nodes whose role is
      Primary get the command, the others are passed over. */
  function DemoteLoop(s: State, i: nat, final: bool): State {
    if i >= |s.nodes| then GoTo(s, if final then Sleep else WaitAll(BeforePromote))
    else if s.nodes[i].role == Primary then
      Begin(s, i, Demote, if final then ToFinalDemote(i + 1) else ToDemote(i + 1))
    else GoTo(s, if final then FinalDemote(i + 1) else DemoteAll(i + 1))
  }

  function LinkOf(s: State, f: nat, t: nat): Link {
    if f < |s.nodes| && t < |s.nodes[f].connections| then s.nodes[f].connections[t].link else UnsetLink
  }

  /** One statement of the main thread; None when it cannot go on yet, or when the
      event does not belong to the place. */
  function MainStep(s: State, e: Event): Option<State>
    requires Square(s.nodes)
  {
    var n := |s.nodes|;
    match s.place
    case Check(i, caller) =>
      if !e.Main? then None
      else if i >= n then Some(GoTo(s, Collect(0, caller)))
      else if s.nodes[i].future.Some? && s.nodes[i].future.value.status == Raised then Some(GoTo(s, Ended(Failed)))
      else if s.nodes[i].future.Some? && s.nodes[i].future.value.status == Done then
        Some(GoTo(SetNode(s, i, s.nodes[i].(future := None)), Check(i + 1, caller)))
      else Some(GoTo(s, Check(i + 1, caller)))
    case Collect(i, caller) =>
      if i >= n then (if e.Main? then Some(GoTo(s, AfterCollect(caller))) else None)
      else if s.nodes[i].future.Some? then (if e.Main? then Some(GoTo(s, Collect(i + 1, caller))) else None)
      else if !e.Poll? then None
      else if e.answer.None? then Some(GoTo(s, Ended(Failed)))
      else Some(GoTo(SetNode(s, i, Polled(s.nodes[i], e.answer.value.0, e.answer.value.1)), Collect(i + 1, caller)))
    case Choose =>
      var steps := ListSteps(s.nodes);
      var total := Sum(Weights(steps));
      if steps == [] then
        (if !e.Main? then None
         else Some(GoTo(s, if NoFutures(s.nodes) then Ended(Stopped) else WaitFirst)))
      else if total == 0 then (if e.Main? then Some(GoTo(s, Ended(Failed))) else None)
      else if !e.DrawNumber? || e.drawn >= total then None
      else
        var k := Selected(Weights(steps), e.drawn);
        BeginStep(s, steps[k].kind)
    case Submit(i, c, next) =>
      if !e.Main? || i >= n then None
      else Some(GoTo(SetNode(s, i, s.nodes[i].(future := Some(Future(c, Queued)))), AfterSubmit(next)))
    case WaitFirst =>
      if e.Main? && SomeSettled(s.nodes) then Some(GoTo(s, Sleep)) else None
    case WaitAll(caller) =>
      if e.Main? && AllSettled(s.nodes) then Some(GoTo(s, Check(0, caller))) else None
    case TestConnect(round, f, t) =>
      if !e.Main? then None
      else if LinkOf(s, f, t) == Connected && LinkOf(s, t, f) == Connected then Some(GoTo(s, Sleep))
      else if LinkOf(s, f, t) == StandAlone || LinkOf(s, t, f) == StandAlone then Some(GoTo(s, Sleep))
      else if round + 1 < CONNECT_ROUNDS then Some(GoTo(s, Collect(0, WaitConnect(round + 1, f, t))))
      else Some(GoTo(s, Ended(Failed)))
    case DemoteAll(i) =>
      if !e.Main? then None
      else Some(DemoteLoop(s, i, false))
    case PromoteAll(i) =>
      if !e.Main? then None
      else if i >= n then Some(GoTo(s, WaitAll(BeforeCount)))
      else Some(Begin(s, i, Promote, ToPromote(i + 1)))
    case CountPrimaries(i, found) =>
      if i >= n then
        (if e.Main? then Some(GoTo(s, if found == 0 then Ended(Failed) else FinalDemote(0))) else None)
      else if s.nodes[i].role != Primary then
        (if e.Main? then Some(GoTo(s, CountPrimaries(i + 1, found))) else None)
      else if !e.Write? then None
      else Some(GoTo(s, if e.raises then Ended(Failed) else CountPrimaries(i + 1, found + 1)))
    case FinalDemote(i) =>
      if !e.Main? then None
      else Some(DemoteLoop(s, i, true))
    case Sleep =>
      if !e.Main? then None
      else Some(s.(round := s.round + 1,
                   place := if s.round + 1 >= ROUNDS then Ended(Finished) else Check(0, MainLoop)))
    case Ended(_) => None
  }

  /** One statement of a worker thread. */
  function WorkerStep(s: State, e: Event): Option<State> {
    var i := match e
             case Start(i) => i
             case Return(i) => i
             case Fail(i) => i
             case Complete(i) => i
             case _ => |s.nodes|;
    if i >= |s.nodes| || s.nodes[i].future.None? then None
    else
      var node := s.nodes[i];
      var f := node.future.value;
      if e.Start? && f.status == Queued && BusyCount(s.nodes) < |s.nodes| then
        Some(SetNode(s, i, node.(future := Some(f.(status := Executing)))))
      else if e.Return? && f.status == Executing then
        Some(SetNode(s, i, ResetMarker(node, f.command).(future := Some(f.(status := Cleared)))))
      else if e.Fail? && f.status == Executing then
        Some(SetNode(s, i, node.(future := Some(f.(status := Raised)))))
      else if e.Complete? && f.status == Cleared then
        Some(SetNode(s, i, node.(future := Some(f.(status := Done)))))
      else None
  }

  predicate IsWorkerEvent(e: Event) {
    e.Start? || e.Return? || e.Fail? || e.Complete?
  }

  /** An enabled step of either kind.  Pool threads go on after the main thread has
      ended: the pool waits for them. */
  function Step(s: State, e: Event): Option<State>
    requires Square(s.nodes)
  {
    if IsWorkerEvent(e) then WorkerStep(s, e) else MainStep(s, e)
  }

  function InitialNode(n: nat): Node {
    Node(None, Unset, None, seq(n, j => Connection(None, UnsetLink)))
  }

  function Initial(n: nat): State {
    State(seq(n, i => InitialNode(n)), Check(0, MainLoop), 0)
  }
}
