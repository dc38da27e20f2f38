/** tests_special/random: how old the polled states are that the main thread decides on, and
    how long it waits for a connection. */
module ExplorerPolls {
  import opened Wrappers
  import opened RandomExplorer
  import opened ExplorerSafety
  import opened ExplorerSteps
  import opened ExplorerResults

  // ---- polled since the last command ----

  /** Whether the node has answered a status command since its last command was submitted. */
  ghost predicate Recent(n: nat, es: seq<Event>, i: nat)
    requires Run(Initial(n), es).Some?
  {
    es != []
    && var before, e := Run(Initial(n), es[..|es| - 1]).value, es[|es| - 1];
       if e.Poll? && before.place.Collect? && before.place.i == i && e.answer.Some? then true
       else if !IsWorkerEvent(e) && before.place.Submit? && before.place.i == i then false
       else Recent(n, es[..|es| - 1], i)
  }

  /** Where the main thread has polled the node, if it was idle, and not yet looked for
      commands that have completed since. */
  predicate Covered(place: Place, i: nat) {
    if place.Check? || place.WaitAll? || place.Ended? then false
    else if place.Collect? then i < place.i
    else true
  }

  /** A step of the main thread other than a poll of this node. */
  lemma CoveredBefore(s: State, e: Event, i: nat)
    requires Square(s.nodes) && MainStep(s, e).Some? && i < |s.nodes|
    requires !(e.Poll? && s.place.Collect? && s.place.i == i && e.answer.Some?)
    ensures var t := MainStep(s, e).value;
            |t.nodes| == |s.nodes| && (Covered(t.place, i) && t.nodes[i].future.None? ==>
              Covered(s.place, i) && s.nodes[i].future.None? && !(s.place.Submit? && s.place.i == i))
  {
    hide ListSteps, BeginStep;
    if s.place == Choose && e.DrawNumber? {
      DrawnPlace(s, e.drawn, i);
    }
  }

  lemma DrawnPlace(s: State, drawn: nat, i: nat)
    requires Square(s.nodes) && s.place == Choose && MainStep(s, DrawNumber(drawn)).Some? && i < |s.nodes|
    ensures var t := MainStep(s, DrawNumber(drawn)).value;
            |t.nodes| == |s.nodes| && t.nodes[i].future == s.nodes[i].future
  {
    hide ListSteps;
  }

  lemma WorkersKeepIdle(s: State, e: Event, i: nat)
    requires WorkerStep(s, e).Some? && i < |s.nodes|
    ensures var t := WorkerStep(s, e).value;
            |t.nodes| == |s.nodes| && t.place == s.place && (t.nodes[i].future.None? <==> s.nodes[i].future.None?)
  {
  }

  /** In every run, wherever the main thread decides something, it has polled every node
      without a command since that node's last command. */
  lemma {:induction false} RunPolled(n: nat, es: seq<Event>, i: nat)
    requires Run(Initial(n), es).Some? && i < |Run(Initial(n), es).value.nodes|
    requires Covered(Run(Initial(n), es).value.place, i) && Run(Initial(n), es).value.nodes[i].future.None?
    ensures Recent(n, es, i)
  {
    hide MainStep, WorkerStep, Inv;
    RunInv(n, es);
    if es != [] {
      var before, e, s := Run(Initial(n), es[..|es| - 1]).value, es[|es| - 1], Run(Initial(n), es).value;
      RunInv(n, es[..|es| - 1]);
      if IsWorkerEvent(e) {
        SameCount(before, e);
        WorkersKeepIdle(before, e, i);
        RunPolled(n, es[..|es| - 1], i);
      } else if !(e.Poll? && before.place.Collect? && before.place.i == i && e.answer.Some?) {
        SameCount(before, e);
        CoveredBefore(before, e, i);
        RunPolled(n, es[..|es| - 1], i);
      }
    }
  }

  lemma SameCount(s: State, e: Event)
    requires Square(s.nodes) && Step(s, e).Some?
    ensures |Step(s, e).value.nodes| == |s.nodes|
  {
    hide ListSteps;
  }

  // ---- checked for completion ----

  /** Whether the node's command has completed since the main thread last looked. */
  ghost predicate Unchecked(n: nat, es: seq<Event>, i: nat)
    requires Run(Initial(n), es).Some?
  {
    es != []
    && var before, e := Run(Initial(n), es[..|es| - 1]).value, es[|es| - 1];
       if e == Complete(i) then true
       else if !IsWorkerEvent(e) && before.place.Check? && before.place.i == i then false
       else Unchecked(n, es[..|es| - 1], i)
  }

  predicate IsDone(node: Node) {
    node.future.Some? && node.future.value.status == Done
  }

  lemma MainClears(s: State, e: Event, i: nat)
    requires Square(s.nodes) && MainStep(s, e).Some? && i < |s.nodes|
    requires s.place.Submit? ==> s.place.i < |s.nodes| && s.nodes[s.place.i].future.None?
    ensures var t := MainStep(s, e).value;
            |t.nodes| == |s.nodes|
            && (IsDone(t.nodes[i]) <==> IsDone(s.nodes[i]) && !(s.place.Check? && s.place.i == i))
  {
    hide ListSteps, BeginStep;
    if s.place == Choose && e.DrawNumber? {
      DrawnPlace(s, e.drawn, i);
    }
  }

  lemma WorkersFinish(s: State, e: Event, i: nat)
    requires WorkerStep(s, e).Some? && i < |s.nodes|
    ensures var t := WorkerStep(s, e).value;
            |t.nodes| == |s.nodes| && t.place == s.place && (IsDone(t.nodes[i]) <==> IsDone(s.nodes[i]) || e == Complete(i))
  {
  }

  /** In every run: a node is left with a completed command iff the command
      has completed since check_for_completion last looked at it. */
  lemma {:induction false} RunChecked(n: nat, es: seq<Event>, i: nat)
    requires Run(Initial(n), es).Some? && i < |Run(Initial(n), es).value.nodes|
    ensures IsDone(Run(Initial(n), es).value.nodes[i]) <==> Unchecked(n, es, i)
  {
    hide MainStep, WorkerStep, Inv, IsDone;
    if es == [] {
      assert !IsDone(InitialNode(n)) by { InitiallyIdle(n); }
    } else {
      var before, e, s := Run(Initial(n), es[..|es| - 1]).value, es[|es| - 1], Run(Initial(n), es).value;
      SameCount(before, e);
      if IsWorkerEvent(e) {
        WorkersFinish(before, e, i);
        RunChecked(n, es[..|es| - 1], i);
      } else {
        if before.place.Submit? {
          SubmitsToIdle(n, es[..|es| - 1], before.place.i, before.place.command, before.place.next);
        }
        MainClears(before, e, i);
        RunChecked(n, es[..|es| - 1], i);
      }
    }
  }

  lemma InitiallyIdle(n: nat)
    ensures !IsDone(InitialNode(n))
  {
  }

  // ---- rounds ----

  /** How often the main thread has slept in a run, once at the end of each round. */
  ghost function Sleeps(n: nat, es: seq<Event>): nat
    requires Run(Initial(n), es).Some?
  {
    if es == [] then 0
    else
      var before, e := Run(Initial(n), es[..|es| - 1]).value, es[|es| - 1];
      Sleeps(n, es[..|es| - 1]) + (if before.place == Sleep && !IsWorkerEvent(e) then 1 else 0)
  }

  lemma RoundStep(s: State, e: Event)
    requires Square(s.nodes) && MainStep(s, e).Some?
    ensures var t := MainStep(s, e).value;
            t.round == s.round + (if s.place == Sleep then 1 else 0)
            && (t.place == Ended(Finished) <==> s.place == Sleep && t.round >= 100)
            && !s.place.Ended?
  {
    hide ListSteps;
  }

  /** A run that is not stopped or failed has exactly 100 rounds: fewer until it finishes, and
      then all of them. */
  lemma {:induction false} RunRounds(n: nat, es: seq<Event>)
    requires Run(Initial(n), es).Some?
    ensures var s := Run(Initial(n), es).value;
            s.round == Sleeps(n, es) && if s.place == Ended(Finished) then s.round == 100 else s.round < 100
  {
    hide MainStep, WorkerStep;
    if es != [] {
      RunRounds(n, es[..|es| - 1]);
      var before, e := Run(Initial(n), es[..|es| - 1]).value, es[|es| - 1];
      if IsWorkerEvent(e) {
        WorkersStay(before, e);
      } else {
        RoundStep(before, e);
      }
    }
  }

  lemma WorkersStay(s: State, e: Event)
    requires WorkerStep(s, e).Some?
    ensures WorkerStep(s, e).value.round == s.round && WorkerStep(s, e).value.place == s.place
  {
  }

  // ---- waiting for a connection ----

  /** Both ends report Connected, or one has given up. */
  predicate Decided(ends: (Link, Link)) {
    (ends.0 == Connected && ends.1 == Connected) || ends.0 == StandAlone || ends.1 == StandAlone
  }

  /** The two ends as they were at each test of a run, in order. */
  ghost function Tests(s: State, es: seq<Event>, f: nat, t: nat): seq<(Link, Link)>
    requires Run(s, es).Some?
  {
    if es == [] then []
    else
      var before, e := Run(s, es[..|es| - 1]).value, es[|es| - 1];
      Tests(s, es[..|es| - 1], f, t)
      + (if before.place.TestConnect? && !IsWorkerEvent(e) then [(LinkOf(before, f, t), LinkOf(before, t, f))] else [])
  }

  /** From the first poll up to the place after the last test. */
  ghost predicate StaysWaiting(s: State, es: seq<Event>)
    requires Run(s, es).Some?
    decreases |es|
  {
    var place := Run(s, es).value.place;
    (Waits(place) || place == Sleep || place == Ended(Failed))
    && (es != [] ==> Waits(Run(s, es[..|es| - 1]).value.place) && StaysWaiting(s, es[..|es| - 1]))
  }

  predicate Waits(place: Place) {
    place.TestConnect? || (place.Collect? && place.caller.WaitConnect?)
  }

  ghost predicate NoneDecided(tests: seq<(Link, Link)>) {
    forall k :: 0 <= k < |tests| ==> !Decided(tests[k])
  }

  /** What the tests were at a place, for the connection of f with t. */
  ghost predicate WaitIs(place: Place, f: nat, t: nat, tests: seq<(Link, Link)>) {
    var n := |tests|;
    (place.TestConnect? ==> n < 10 && place == TestConnect(n, f, t) && NoneDecided(tests))
    && (place.Collect? ==> n < 10 && place.caller == WaitConnect(n, f, t) && NoneDecided(tests))
    && (place == Sleep ==> 0 < n <= 10 && Decided(tests[n - 1]) && NoneDecided(tests[..n - 1]))
    && (place == Ended(Failed) ==> n <= 10 && NoneDecided(tests))
  }

  lemma WaitStep(s: State, e: Event, f: nat, t: nat, tests: seq<(Link, Link)>)
    requires Square(s.nodes) && Waits(s.place) && WaitIs(s.place, f, t, tests) && MainStep(s, e).Some?
    ensures var u := MainStep(s, e).value;
            var more := tests + (if s.place.TestConnect? then [(LinkOf(s, f, t), LinkOf(s, t, f))] else []);
            WaitIs(u.place, f, t, more) && Square(u.nodes)
            && (u.place == Ended(Failed) && |more| < 10 ==> e.Poll? && e.answer.None?)
  {
    hide ListSteps, BeginStep;
    assert tests + [] == tests;
  }

  /** In every interleaving: the step goes on after the first test at which both ends report
      Connected or one StandAlone, and fails iff a status command does or ten tests pass
      without it. */
  lemma {:induction false} WaitLoop(s: State, es: seq<Event>, f: nat, t: nat)
    requires Square(s.nodes) && s.place == Collect(0, WaitConnect(0, f, t)) && Run(s, es).Some? && StaysWaiting(s, es)
    ensures var u := Run(s, es).value;
            Square(u.nodes) && WaitIs(u.place, f, t, Tests(s, es, f, t))
            && (u.place == Ended(Failed) && |Tests(s, es, f, t)| < 10 ==>
                  es != [] && es[|es| - 1].Poll? && es[|es| - 1].answer.None?)
    decreases |es|
  {
    hide MainStep, WorkerStep, WaitIs;
    if es == [] {
      assert WaitIs(s.place, f, t, []) by { NothingTested(s, f, t); }
    } else {
      WaitLoop(s, es[..|es| - 1], f, t);
      var before, e, u := Run(s, es[..|es| - 1]).value, es[|es| - 1], Run(s, es).value;
      assert Step(before, e) == Some(u);
      if IsWorkerEvent(e) {
        WorkersKeepReports(before, e);
        assert Tests(s, es, f, t) == Tests(s, es[..|es| - 1], f, t) + [] == Tests(s, es[..|es| - 1], f, t);
        SquareStays(before.nodes, u.nodes);
      } else {
        WaitStep(before, e, f, t, Tests(s, es[..|es| - 1], f, t));
      }
    }
  }

  lemma SquareStays(a: seq<Node>, b: seq<Node>)
    requires Square(a) && SameReports(a, b)
    ensures Square(b)
  {
  }

  lemma NothingTested(s: State, f: nat, t: nat)
    requires s.place == Collect(0, WaitConnect(0, f, t))
    ensures WaitIs(s.place, f, t, [])
  {
  }
}
