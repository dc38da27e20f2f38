/** The loops of tests_special/random over all nodes: polling, demoting, promoting and
    writing, in every interleaving with the workers. */
module ExplorerLoops {
  import opened Wrappers
  import opened RandomExplorer
  import opened ExplorerSafety
  import opened ExplorerSteps

  // ---- what was polled ----

  /** The last answer of a node's status command in a run, if there was one. */
  ghost function LastAnswer(n: nat, es: seq<Event>, i: nat): Option<(Role, seq<Link>)>
    requires Run(Initial(n), es).Some?
  {
    if es == [] then None
    else
      var before, e := Run(Initial(n), es[..|es| - 1]).value, es[|es| - 1];
      if before.place.Collect? && before.place.i == i && e.Poll? && e.answer.Some? then e.answer
      else LastAnswer(n, es[..|es| - 1], i)
  }

  /** The node shows this answer; connections that it does not list keep what they had. */
  ghost predicate Shows(node: Node, answer: Option<(Role, seq<Link>)>) {
    if answer.None? then node.role == Unset && forall j :: 0 <= j < |node.connections| ==> node.connections[j].link == UnsetLink
    else
      node.role == answer.value.0
      && forall j :: 0 <= j < |node.connections| && j < |answer.value.1| ==> node.connections[j].link == answer.value.1[j]
  }

  lemma PollStores(s: State, e: Event)
    requires Square(s.nodes) && s.place.Collect? && s.place.i < |s.nodes| && e.Poll? && MainStep(s, e).Some?
    ensures var t := MainStep(s, e).value;
            |t.nodes| == |s.nodes| && (e.answer.Some? ==> Shows(t.nodes[s.place.i], e.answer))
            && (forall k :: 0 <= k < |s.nodes| && (k != s.place.i || e.answer.None?) ==> t.nodes[k] == s.nodes[k])
  {
  }

  lemma OthersKeepReports(s: State, e: Event)
    requires Square(s.nodes) && MainStep(s, e).Some? && !e.Poll?
    ensures SameReports(s.nodes, MainStep(s, e).value.nodes)
  {
    hide ListSteps;
    if s.place == Choose && e.DrawNumber? {
      DrawnStep(s, e.drawn);
    } else if s.place.DemoteAll? || s.place.FinalDemote? || s.place.PromoteAll? {
      var t := MainStep(s, e).value;
      if t.place.Submit? {
        BeginKeepsReports(s, s.place.i, t.place.command, t.place.next);
      }
    }
  }

  lemma ShowsStill(a: Node, b: Node, answer: Option<(Role, seq<Link>)>)
    requires Shows(a, answer) && a.role == b.role && |a.connections| == |b.connections|
    requires forall j :: 0 <= j < |a.connections| ==> a.connections[j].link == b.connections[j].link
    ensures Shows(b, answer)
  {
  }

  /** In every run, the role and the connection states of a node are those of its last
      poll. */
  lemma {:induction false} RunShows(n: nat, es: seq<Event>, i: nat)
    requires Run(Initial(n), es).Some? && i < n
    ensures |Run(Initial(n), es).value.nodes| == n && Shows(Run(Initial(n), es).value.nodes[i], LastAnswer(n, es, i))
  {
    hide MainStep, WorkerStep, Shows, Inv;
    RunInv(n, es);
    if es == [] {
      assert Shows(InitialNode(n), None) by { InitialShows(n); }
    } else {
      RunShows(n, es[..|es| - 1], i);
      var before, e, s := Run(Initial(n), es[..|es| - 1]).value, es[|es| - 1], Run(Initial(n), es).value;
      assert |s.nodes| == n;
      if IsWorkerEvent(e) {
        WorkersKeepReports(before, e);
        ShowsStill(before.nodes[i], s.nodes[i], LastAnswer(n, es[..|es| - 1], i));
      } else if e.Poll? {
        PollPlace(before, e);
        PollStores(before, e);
      } else {
        OthersKeepReports(before, e);
        ShowsStill(before.nodes[i], s.nodes[i], LastAnswer(n, es[..|es| - 1], i));
      }
    }
  }

  lemma InitialShows(n: nat)
    ensures Shows(InitialNode(n), None)
  {
  }

  lemma PollPlace(s: State, e: Event)
    requires Square(s.nodes) && MainStep(s, e).Some? && e.Poll?
    ensures s.place.Collect? && s.place.i < |s.nodes|
  {
    hide ListSteps, BeginStep;
  }

  // ---- the loops that submit ----

  datatype Phase = FirstDemotion | Promotion | LastDemotion

  predicate Begins(p: Phase, place: Place) {
    (p == FirstDemotion && place == DemoteAll(0)) || (p == Promotion && place == PromoteAll(0))
    || (p == LastDemotion && place == FinalDemote(0))
  }

  predicate Ends(p: Phase, place: Place) {
    (p == FirstDemotion && place == WaitAll(BeforePromote)) || (p == Promotion && place == WaitAll(BeforeCount))
    || (p == LastDemotion && place == Sleep)
  }

  predicate Within(p: Phase, place: Place) {
    Ends(p, place)
    || (p == FirstDemotion && (place.DemoteAll? || (place.Submit? && place.next == ToDemote(place.i + 1))))
    || (p == Promotion && (place.PromoteAll? || (place.Submit? && place.next == ToPromote(place.i + 1))))
    || (p == LastDemotion && (place.FinalDemote? || (place.Submit? && place.next == ToFinalDemote(place.i + 1))))
  }

  /** How many nodes have been dealt with. */
  function Reached(p: Phase, place: Place, n: nat): nat {
    if place.DemoteAll? || place.PromoteAll? || place.FinalDemote? || place.Submit? then place.i else n
  }

  /** Who gets a command: every Primary is demoted, and every node is promoted. */
  ghost predicate Wanted(p: Phase, nodes: seq<Node>, i: nat) {
    i < |nodes| && (p == Promotion || nodes[i].role == Primary)
  }

  /** The commands that the main thread has submitted, in order. */
  ghost function Submitted(s: State, es: seq<Event>): seq<(nat, Command)>
    requires Run(s, es).Some?
  {
    if es == [] then []
    else
      var before, e := Run(s, es[..|es| - 1]).value, es[|es| - 1];
      Submitted(s, es[..|es| - 1])
      + (if before.place.Submit? && !IsWorkerEvent(e) then [(before.place.i, before.place.command)] else [])
  }

  /** Each of the first k nodes that is wanted, once, in order, and with the command of the
      phase. */
  ghost predicate LogIs(p: Phase, nodes: seq<Node>, k: nat, log: seq<(nat, Command)>) {
    (forall a :: 0 <= a < |log| ==> log[a].1 == (if p == Promotion then Promote else Demote) && log[a].0 < k)
    && (forall a, b :: 0 <= a < b < |log| ==> log[a].0 < log[b].0)
    && forall i: nat :: i < k && Wanted(p, nodes, i) <==> exists a :: 0 <= a < |log| && log[a].0 == i
  }

  ghost predicate StaysWithin(p: Phase, s: State, es: seq<Event>)
    requires Run(s, es).Some?
    decreases |es|
  {
    Within(p, Run(s, es).value.place) && (es != [] ==> StaysWithin(p, s, es[..|es| - 1]))
  }

  ghost predicate AtSubmit(p: Phase, nodes: seq<Node>, place: Place) {
    place.Submit? ==> Wanted(p, nodes, place.i) && place.command == (if p == Promotion then Promote else Demote)
  }

  /** One step of the main thread within a phase. */
  lemma PhaseStep(p: Phase, s: State, e: Event)
    requires Square(s.nodes) && MainStep(s, e).Some? && Within(p, s.place) && Within(p, MainStep(s, e).value.place)
    requires AtSubmit(p, s.nodes, s.place) && Reached(p, s.place, |s.nodes|) <= |s.nodes|
    ensures var t := MainStep(s, e).value;
            SameReports(s.nodes, t.nodes) && AtSubmit(p, s.nodes, t.place) && Reached(p, t.place, |s.nodes|) <= |s.nodes|
            && (if s.place.Submit? then Reached(p, t.place, |s.nodes|) == s.place.i + 1
                else (Reached(p, t.place, |s.nodes|) == Reached(p, s.place, |s.nodes|) + 1
                      && !Wanted(p, s.nodes, Reached(p, s.place, |s.nodes|)))
                     || Reached(p, t.place, |s.nodes|) == Reached(p, s.place, |s.nodes|))
  {
    hide ListSteps, BeginStep;
    var t := MainStep(s, e).value;
    if t.place.Submit? {
      BeginKeepsReports(s, s.place.i, t.place.command, t.place.next);
    }
  }

  lemma LogStays(p: Phase, nodes: seq<Node>, k: nat, log: seq<(nat, Command)>)
    requires LogIs(p, nodes, k, log) && !Wanted(p, nodes, k)
    ensures LogIs(p, nodes, k + 1, log)
  {
  }

  lemma LogGrows(p: Phase, nodes: seq<Node>, k: nat, log: seq<(nat, Command)>)
    requires LogIs(p, nodes, k, log) && Wanted(p, nodes, k)
    ensures LogIs(p, nodes, k + 1, log + [(k, if p == Promotion then Promote else Demote)])
  {
    var more := log + [(k, if p == Promotion then Promote else Demote)];
    forall i: nat
      ensures i < k + 1 && Wanted(p, nodes, i) <==> exists a :: 0 <= a < |more| && more[a].0 == i
    {
      if i < k && Wanted(p, nodes, i) {
        var a :| 0 <= a < |log| && log[a].0 == i;
        assert more[a].0 == i;
      }
      assert more[|log|].0 == k;
    }
  }

  lemma {:induction false} PhaseLog(p: Phase, s: State, es: seq<Event>)
    requires Square(s.nodes) && Begins(p, s.place) && Run(s, es).Some? && StaysWithin(p, s, es)
    ensures var t, n := Run(s, es).value, |s.nodes|;
            SameReports(s.nodes, t.nodes) && Square(t.nodes) && AtSubmit(p, s.nodes, t.place) && Reached(p, t.place, n) <= n
            && LogIs(p, s.nodes, Reached(p, t.place, n), Submitted(s, es))
    decreases |es|
  {
    hide MainStep, WorkerStep, LogIs, AtSubmit, Wanted;
    var n := |s.nodes|;
    if es == [] {
      assert LogIs(p, s.nodes, 0, []) && AtSubmit(p, s.nodes, s.place) by { NothingYet(p, s); }
    } else {
      PhaseLog(p, s, es[..|es| - 1]);
      var before, e, t := Run(s, es[..|es| - 1]).value, es[|es| - 1], Run(s, es).value;
      assert Step(before, e) == Some(t);
      AtSubmitOn(p, s.nodes, before.nodes, before.place);
      if IsWorkerEvent(e) {
        WorkersKeepReports(before, e);
        assert Submitted(s, es) == Submitted(s, es[..|es| - 1]) + [] == Submitted(s, es[..|es| - 1]);
        assert Reached(p, t.place, n) == Reached(p, before.place, n);
      } else {
        PhaseStep(p, before, e);
        LogMoves(p, s, before, t, Submitted(s, es[..|es| - 1]), Submitted(s, es));
      }
      AtSubmitOn(p, before.nodes, s.nodes, t.place);
      ReportsThen(s.nodes, before.nodes, t.nodes);
    }
  }

  lemma NothingYet(p: Phase, s: State)
    requires Begins(p, s.place)
    ensures LogIs(p, s.nodes, 0, []) && AtSubmit(p, s.nodes, s.place)
  {
  }

  lemma AtSubmitOn(p: Phase, a: seq<Node>, b: seq<Node>, place: Place)
    requires SameReports(a, b)
    ensures AtSubmit(p, a, place) <==> AtSubmit(p, b, place)
    ensures forall i: nat :: Wanted(p, a, i) <==> Wanted(p, b, i)
  {
  }

  lemma ReportsThen(a: seq<Node>, b: seq<Node>, c: seq<Node>)
    requires SameReports(a, b) && SameReports(b, c)
    ensures SameReports(a, c) && SameReports(c, b) && (Square(a) ==> Square(c))
  {
  }

  lemma LogMoves(p: Phase, s: State, before: State, t: State, log: seq<(nat, Command)>, more: seq<(nat, Command)>)
    requires var n := |s.nodes|; LogIs(p, s.nodes, Reached(p, before.place, n), log) && AtSubmit(p, s.nodes, before.place)
    requires more == log + (if before.place.Submit? then [(before.place.i, before.place.command)] else [])
    requires var n := |s.nodes|;
             if before.place.Submit? then Reached(p, t.place, n) == before.place.i + 1
             else Reached(p, t.place, n) == Reached(p, before.place, n)
                  || (Reached(p, t.place, n) == Reached(p, before.place, n) + 1 && !Wanted(p, s.nodes, Reached(p, before.place, n)))
    ensures LogIs(p, s.nodes, Reached(p, t.place, |s.nodes|), more)
  {
    hide LogIs, Wanted;
    var n := |s.nodes|;
    if before.place.Submit? {
      LogGrows(p, s.nodes, before.place.i, log);
    } else {
      assert more == log;
      if Reached(p, t.place, n) == Reached(p, before.place, n) + 1 {
        LogStays(p, s.nodes, Reached(p, before.place, n), log);
      }
    }
  }

  /** In the concurrent promotion, in every interleaving with the workers: each demoting loop
      submits one demotion for each node that was last reported Primary, and for no other;
      the promoting loop submits one promotion for each node. */
  lemma WholePhase(p: Phase, s: State, es: seq<Event>)
    requires Square(s.nodes) && Begins(p, s.place) && Run(s, es).Some? && StaysWithin(p, s, es)
    requires Ends(p, Run(s, es).value.place)
    ensures LogIs(p, s.nodes, |s.nodes|, Submitted(s, es))
  {
    PhaseLog(p, s, es);
  }

  // ---- writing ----

  /** The writes of a run, in order, and whether they went well. */
  ghost function Writes(s: State, es: seq<Event>): seq<(nat, bool)>
    requires Run(s, es).Some?
  {
    if es == [] then []
    else
      var before, e := Run(s, es[..|es| - 1]).value, es[|es| - 1];
      Writes(s, es[..|es| - 1])
      + (if before.place.CountPrimaries? && e.Write? then [(before.place.i, !e.raises)] else [])
  }

  ghost predicate StaysCounting(s: State, es: seq<Event>)
    requires Run(s, es).Some?
    decreases |es|
  {
    var place := Run(s, es).value.place;
    (place.CountPrimaries? || place == FinalDemote(0) || place == Ended(Failed)) && (es != [] ==> StaysCounting(s, es[..|es| - 1]))
  }

  /** One good write on each of the first k nodes that is Primary. */
  ghost predicate WritesAre(nodes: seq<Node>, k: nat, writes: seq<(nat, bool)>) {
    (forall a :: 0 <= a < |writes| ==> writes[a].1 && writes[a].0 < k)
    && (forall a, b :: 0 <= a < b < |writes| ==> writes[a].0 < writes[b].0)
    && forall i: nat :: i < k && Wanted(LastDemotion, nodes, i) <==> exists a :: 0 <= a < |writes| && writes[a].0 == i
  }

  /** What has been written at some place of the counting loop. */
  ghost predicate Counted(nodes: seq<Node>, place: Place, writes: seq<(nat, bool)>) {
    var n := |nodes|;
    (place.CountPrimaries? ==> place.i <= n && WritesAre(nodes, place.i, writes) && place.found == |writes|)
    && (place == FinalDemote(0) ==> WritesAre(nodes, n, writes) && writes != [])
    && (place == Ended(Failed) ==> (WritesAre(nodes, n, writes) && writes == []) || (writes != [] && !writes[|writes| - 1].1))
  }

  /** One statement of the counting loop. */
  lemma CountMove(s: State, e: Event)
    requires Square(s.nodes) && s.place.CountPrimaries? && MainStep(s, e).Some?
    ensures var t, k := MainStep(s, e).value, s.place.i;
            t.nodes == s.nodes
            && (k >= |s.nodes| ==> !e.Write? && t.place == if s.place.found == 0 then Ended(Failed) else FinalDemote(0))
            && (k < |s.nodes| ==> (e.Write? <==> s.nodes[k].role == Primary))
            && (k < |s.nodes| && !e.Write? ==> t.place == CountPrimaries(k + 1, s.place.found))
            && (k < |s.nodes| && e.Write? ==>
                  t.place == if e.raises then Ended(Failed) else CountPrimaries(k + 1, s.place.found + 1))
  {
    hide ListSteps, BeginStep;
  }

  lemma CountStep(nodes: seq<Node>, s: State, e: Event, writes: seq<(nat, bool)>)
    requires Square(s.nodes) && SameReports(nodes, s.nodes) && s.place.CountPrimaries? && MainStep(s, e).Some?
    requires Counted(nodes, s.place, writes)
    ensures var t, more := MainStep(s, e).value, writes + (if e.Write? then [(s.place.i, !e.raises)] else []);
            t.nodes == s.nodes && Counted(nodes, t.place, more)
  {
    hide MainStep, WritesAre;
    CountMove(s, e);
    var k := s.place.i;
    assert writes + [] == writes;
    if k < |nodes| {
      if Wanted(LastDemotion, nodes, k) {
        WritesGrow(nodes, k, writes);
      } else {
        WritesStay(nodes, k, writes);
      }
    }
  }

  lemma WritesStay(nodes: seq<Node>, k: nat, writes: seq<(nat, bool)>)
    requires WritesAre(nodes, k, writes) && !Wanted(LastDemotion, nodes, k)
    ensures WritesAre(nodes, k + 1, writes)
  {
  }

  lemma WritesGrow(nodes: seq<Node>, k: nat, writes: seq<(nat, bool)>)
    requires WritesAre(nodes, k, writes) && Wanted(LastDemotion, nodes, k)
    ensures WritesAre(nodes, k + 1, writes + [(k, true)])
  {
    var more := writes + [(k, true)];
    forall i: nat
      ensures i < k + 1 && Wanted(LastDemotion, nodes, i) <==> exists a :: 0 <= a < |more| && more[a].0 == i
    {
      if i < k && Wanted(LastDemotion, nodes, i) {
        var a :| 0 <= a < |writes| && writes[a].0 == i;
        assert more[a].0 == i;
      }
      assert more[|writes|].0 == k;
    }
  }

  /** In every interleaving: the test writes once on each node that was reported Primary and
      on no other, and goes on iff there was one and every write went well. */
  lemma {:induction false} CountingLoop(s: State, es: seq<Event>)
    requires Square(s.nodes) && s.place == CountPrimaries(0, 0) && Run(s, es).Some? && StaysCounting(s, es)
    ensures var t := Run(s, es).value;
            SameReports(s.nodes, t.nodes) && Square(t.nodes) && Counted(s.nodes, t.place, Writes(s, es))
    decreases |es|
  {
    hide MainStep, WorkerStep, Counted, WritesAre;
    if es == [] {
      assert Counted(s.nodes, s.place, []) by { NothingCounted(s); }
    } else {
      CountingLoop(s, es[..|es| - 1]);
      var before, e, t := Run(s, es[..|es| - 1]).value, es[|es| - 1], Run(s, es).value;
      assert Step(before, e) == Some(t);
      if IsWorkerEvent(e) {
        WorkersKeepReports(before, e);
        assert Writes(s, es) == Writes(s, es[..|es| - 1]) + [] == Writes(s, es[..|es| - 1]);
      } else {
        CountOnly(before, e, t);
        CountStep(s.nodes, before, e, Writes(s, es[..|es| - 1]));
      }
      ReportsThen(s.nodes, before.nodes, t.nodes);
    }
  }

  lemma NothingCounted(s: State)
    requires s.place == CountPrimaries(0, 0)
    ensures Counted(s.nodes, s.place, [])
  {
  }

  /** No other place of the main thread leads to these. */
  lemma CountOnly(s: State, e: Event, t: State)
    requires Square(s.nodes) && MainStep(s, e) == Some(t)
    requires s.place.CountPrimaries? || s.place == FinalDemote(0) || s.place == Ended(Failed)
    requires t.place.CountPrimaries? || t.place == FinalDemote(0) || t.place == Ended(Failed)
    ensures s.place.CountPrimaries?
  {
    hide ListSteps, BeginStep;
  }
}
