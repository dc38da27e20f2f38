/** run.py: grouping the tests by the number of machines they use, and the loop that
    skips, runs and counts them. */
module Runner {
  import opened Wrappers

  // ---- grouping ----

  /** What a test reports about itself. */
  datatype Test = Test(name: string, minNodes: nat, maxNodes: nat)

  datatype TestSet = TestSet(vms: nat, tests: seq<string>)

  predicate CanRun(t: Test, n: nat) {
    t.minNodes <= n
  }

  function Machines(t: Test, n: nat): nat {
    if n <= t.maxNodes then n else t.maxNodes
  }

  /** The names of the tests that can run and use v machines, in order. */
  function Using(tests: seq<Test>, n: nat, v: nat): seq<string> {
    if tests == [] then []
    else
      var t := tests[|tests| - 1];
      Using(tests[..|tests| - 1], n, v) + (if CanRun(t, n) && Machines(t, n) == v then [t.name] else [])
  }

  /** The numbers of machines in use, in the order of their first test. */
  function Sizes(tests: seq<Test>, n: nat): seq<nat> {
    if tests == [] then []
    else
      var t := tests[|tests| - 1];
      var before := Sizes(tests[..|tests| - 1], n);
      if CanRun(t, n) && Machines(t, n) !in before then before + [Machines(t, n)] else before
  }

  function Sets(tests: seq<Test>, n: nat, sizes: seq<nat>): (sets: seq<TestSet>)
    ensures |sets| == |sizes|
    ensures forall k :: 0 <= k < |sizes| ==> sets[k] == TestSet(sizes[k], Using(tests, n, sizes[k]))
  {
    seq(|sizes|, k requires 0 <= k < |sizes| => TestSet(sizes[k], Using(tests, n, sizes[k])))
  }

  /** The dictionary, and the order of its keys, after some tests. */
  ghost predicate GroupsAre(tests: seq<Test>, n: nat, groups: map<nat, seq<string>>, order: seq<nat>) {
    order == Sizes(tests, n)
    && (forall v :: v in groups <==> v in order)
    && (forall v: nat :: Using(tests, n, v) == if v in groups then groups[v] else [])
  }

  lemma GroupsNext(tests: seq<Test>, i: nat, n: nat, groups: map<nat, seq<string>>, order: seq<nat>)
    requires i < |tests| && GroupsAre(tests[..i], n, groups, order)
    ensures var t := tests[i];
            var v := Machines(t, n);
            var before := if v in groups then groups[v] else [];
            if CanRun(t, n)
            then GroupsAre(tests[..i + 1], n, groups[v := before + [t.name]], if v in groups then order else order + [v])
            else GroupsAre(tests[..i + 1], n, groups, order)
  {
    assert tests[..i + 1][..i] == tests[..i];
  }

  /** `generate_test_set`: a dictionary of lists, read in the order of its keys. */
  method GenerateTestSet(tests: seq<Test>, n: nat) returns (sets: seq<TestSet>)
    ensures sets == Sets(tests, n, Sizes(tests, n)) && Grouped(tests, n, sets)
  {
    SetsExact(tests, n);
    var groups: map<nat, seq<string>> := map[];
    var order: seq<nat> := [];
    for i := 0 to |tests|
      invariant GroupsAre(tests[..i], n, groups, order)
    {
      hide GroupsAre;
      var t := tests[i];
      GroupsNext(tests, i, n, groups, order);
      if n >= t.minNodes {
        var v := Machines(t, n);
        if v in groups {
          groups := groups[v := groups[v] + [t.name]];
        } else {
          groups := groups[v := [] + [t.name]];
          order := order + [v];
        }
      }
    }
    assert tests[..|tests|] == tests;
    sets := ReadGroups(tests, n, groups, order);
  }

  method ReadGroups(tests: seq<Test>, n: nat, groups: map<nat, seq<string>>, order: seq<nat>)
    returns (sets: seq<TestSet>)
    requires GroupsAre(tests, n, groups, order)
    ensures sets == Sets(tests, n, order) && order == Sizes(tests, n)
  {
    hide Using, Sizes;
    sets := [];
    for k := 0 to |order|
      invariant sets == Sets(tests, n, order[..k])
    {
      assert order[k] in order;
      sets := sets + [TestSet(order[k], groups[order[k]])];
    }
    assert order[..|order|] == order;
  }

  function Runnable(tests: seq<Test>, n: nat): seq<string> {
    if tests == [] then []
    else
      var t := tests[|tests| - 1];
      Runnable(tests[..|tests| - 1], n) + (if CanRun(t, n) then [t.name] else [])
  }

  function AllTests(sets: seq<TestSet>): multiset<string> {
    if sets == [] then multiset{} else AllTests(sets[..|sets| - 1]) + multiset(sets[|sets| - 1].tests)
  }

  predicate Distinct(sizes: seq<nat>) {
    forall j, k :: 0 <= j < k < |sizes| ==> sizes[j] != sizes[k]
  }

  lemma {:induction false} SizesAre(tests: seq<Test>, n: nat)
    ensures Distinct(Sizes(tests, n))
    ensures forall v: nat :: v in Sizes(tests, n) <==> Using(tests, n, v) != []
  {
    if tests != [] {
      SizesAre(tests[..|tests| - 1], n);
    }
  }

  // ---- the sets, in plain words ----

  /** A test that can run on n machines uses v of them: as many as it can, but not more than
      there are. */
  ghost predicate Uses(t: Test, n: nat, v: nat) {
    t.minNodes <= n && v <= n && v <= t.maxNodes && (v == n || v == t.maxNodes)
  }

  /** The names of the tests at these positions, which are those that use v machines. */
  ghost predicate UsingAt(ps: seq<nat>, tests: seq<Test>, n: nat, v: nat, names: seq<string>) {
    |names| == |ps| && (forall i :: 0 <= i < |ps| ==> ps[i] < |tests| && names[i] == tests[ps[i]].name)
    && (forall i, j :: 0 <= i < j < |ps| ==> ps[i] < ps[j])
    && forall p :: 0 <= p < |tests| ==> (p in ps <==> Uses(tests[p], n, v))
  }

  /** The names of the tests that use v machines, in order. */
  ghost predicate NamesUsing(tests: seq<Test>, n: nat, v: nat, names: seq<string>) {
    exists ps :: UsingAt(ps, tests, n, v, names)
  }

  lemma {:induction false} UsingExact(tests: seq<Test>, n: nat, v: nat)
    ensures NamesUsing(tests, n, v, Using(tests, n, v))
  {
    if tests == [] {
      assert UsingAt([], tests, n, v, []);
    } else {
      var k := |tests| - 1;
      UsingExact(tests[..k], n, v);
      var ps :| UsingAt(ps, tests[..k], n, v, Using(tests[..k], n, v));
      UsingMore(ps, tests, n, v, Using(tests[..k], n, v));
      assert Uses(tests[k], n, v) <==> CanRun(tests[k], n) && Machines(tests[k], n) == v;
    }
  }

  lemma UsingMore(ps: seq<nat>, tests: seq<Test>, n: nat, v: nat, names: seq<string>)
    requires tests != [] && UsingAt(ps, tests[..|tests| - 1], n, v, names)
    ensures var t := tests[|tests| - 1]; NamesUsing(tests, n, v, names + (if Uses(t, n, v) then [t.name] else []))
  {
    hide Uses;
    var k := |tests| - 1;
    assert forall p :: 0 <= p < k ==> tests[..k][p] == tests[p];
    assert k !in ps;
    if Uses(tests[k], n, v) {
      assert forall p :: p in ps + [k] <==> p in ps || p == k;
      assert UsingAt(ps + [k], tests, n, v, names + [tests[k].name]);
    } else {
      assert names + [] == names;
      assert UsingAt(ps, tests, n, v, names);
    }
  }

  /** Each number of machines in use has one set, with the names of the tests that use it in
      order; the sets stand in the order of their first tests. */
  ghost predicate Grouped(tests: seq<Test>, n: nat, sets: seq<TestSet>) {
    (forall j, k :: 0 <= j < k < |sets| ==> sets[j].vms != sets[k].vms)
    && (forall k :: 0 <= k < |sets| ==> sets[k].tests != [] && NamesUsing(tests, n, sets[k].vms, sets[k].tests))
    && (forall p, v: nat :: 0 <= p < |tests| && Uses(tests[p], n, v) ==> exists k :: 0 <= k < |sets| && sets[k].vms == v)
    && forall j, k :: 0 <= j < k < |sets| ==> FirstBefore(tests, n, sets[j].vms, sets[k].vms)
  }

  /** Some test that uses v machines stands before every test that uses w. */
  ghost predicate FirstBefore(tests: seq<Test>, n: nat, v: nat, w: nat) {
    exists p :: 0 <= p < |tests| && Uses(tests[p], n, v) && forall q :: 0 <= q < |tests| && Uses(tests[q], n, w) ==> p < q
  }

  lemma {:induction false} SizesInOrder(tests: seq<Test>, n: nat)
    ensures forall p, v: nat :: 0 <= p < |tests| && Uses(tests[p], n, v) ==> v in Sizes(tests, n)
    ensures forall v: nat :: v in Sizes(tests, n) ==> exists p :: 0 <= p < |tests| && Uses(tests[p], n, v)
    ensures forall j, k :: 0 <= j < k < |Sizes(tests, n)| ==> FirstBefore(tests, n, Sizes(tests, n)[j], Sizes(tests, n)[k])
  {
    if tests != [] {
      var m := |tests| - 1;
      SizesInOrder(tests[..m], n);
      assert forall p :: 0 <= p < m ==> tests[..m][p] == tests[p];
      FirstStays(tests, n);
      assert tests == tests[..m] + [tests[m]];
      var before, w := Sizes(tests[..m], n), Machines(tests[m], n);
      if CanRun(tests[m], n) && w !in before {
        forall j | 0 <= j < |before|
          ensures FirstBefore(tests, n, before[j], w)
        {
          assert before[j] in before;
          NewLast(tests[..m], tests[m], n, before[j], w);
        }
      }
    }
  }

  lemma NewLast(init: seq<Test>, t: Test, n: nat, v: nat, w: nat)
    requires exists p :: 0 <= p < |init| && Uses(init[p], n, v)
    requires forall p :: 0 <= p < |init| ==> !Uses(init[p], n, w)
    ensures FirstBefore(init + [t], n, v, w)
  {
    hide Uses;
    var tests := init + [t];
    var p :| 0 <= p < |init| && Uses(init[p], n, v);
    assert Uses(tests[p], n, v);
    assert forall q :: 0 <= q < |tests| && Uses(tests[q], n, w) ==> p < q;
  }

  lemma FirstStays(tests: seq<Test>, n: nat)
    requires tests != []
    ensures var m := |tests| - 1;
            forall v: nat, w: nat :: FirstBefore(tests[..m], n, v, w) ==> FirstBefore(tests, n, v, w)
  {
    var m := |tests| - 1;
    assert forall p :: 0 <= p < m ==> tests[..m][p] == tests[p];
    forall v: nat, w: nat | FirstBefore(tests[..m], n, v, w)
      ensures FirstBefore(tests, n, v, w)
    {
      var p :| 0 <= p < m && Uses(tests[..m][p], n, v) && forall q :: 0 <= q < m && Uses(tests[..m][q], n, w) ==> p < q;
      assert Uses(tests[p], n, v);
    }
  }

  /** What generate_test_set gives. */
  lemma SetsExact(tests: seq<Test>, n: nat)
    ensures Grouped(tests, n, Sets(tests, n, Sizes(tests, n)))
  {
    hide Using, Sizes, NamesUsing, Uses, FirstBefore;
    var sizes := Sizes(tests, n);
    SizesAre(tests, n);
    SizesInOrder(tests, n);
    forall k | 0 <= k < |sizes|
      ensures NamesUsing(tests, n, sizes[k], Using(tests, n, sizes[k])) && Using(tests, n, sizes[k]) != []
    {
      UsingExact(tests, n, sizes[k]);
      assert sizes[k] in sizes;
    }
    forall p, v: nat | 0 <= p < |tests| && Uses(tests[p], n, v)
      ensures exists k :: 0 <= k < |sizes| && sizes[k] == v && Sets(tests, n, sizes)[k].vms == v
    {
      assert v in sizes;
    }
  }

  lemma AllTestsNext(tests: seq<Test>, n: nat, sizes: seq<nat>)
    requires sizes != []
    ensures var k := |sizes| - 1;
            AllTests(Sets(tests, n, sizes)) == AllTests(Sets(tests, n, sizes[..k])) + multiset(Using(tests, n, sizes[k]))
  {
    var k := |sizes| - 1;
    assert Sets(tests, n, sizes)[..k] == Sets(tests, n, sizes[..k]);
  }

  lemma UsingNext(tests: seq<Test>, n: nat, v: nat)
    requires tests != []
    ensures var t := tests[|tests| - 1];
            multiset(Using(tests, n, v)) == multiset(Using(tests[..|tests| - 1], n, v))
                                            + Share(t, n, [v])
  {
  }

  /** The test if it goes to one of these sizes. */
  function Share(t: Test, n: nat, sizes: seq<nat>): multiset<string> {
    if CanRun(t, n) && Machines(t, n) in sizes then multiset{t.name} else multiset{}
  }

  lemma ShareNext(t: Test, n: nat, sizes: seq<nat>)
    requires sizes != [] && Distinct(sizes)
    ensures var k := |sizes| - 1;
            Share(t, n, sizes) == Share(t, n, sizes[..k]) + Share(t, n, [sizes[k]])
  {
    var k := |sizes| - 1;
    assert sizes == sizes[..k] + [sizes[k]];
    assert sizes[k] !in sizes[..k];
  }

  lemma Regroup(a: multiset<string>, b: multiset<string>, c: multiset<string>, d: multiset<string>, e: multiset<string>)
    requires e == b + d
    ensures (a + b) + (c + d) == (a + c) + e
  {
  }

  lemma {:induction false} AddedTo(tests: seq<Test>, n: nat, sizes: seq<nat>)
    requires tests != [] && Distinct(sizes)
    ensures AllTests(Sets(tests, n, sizes))
            == AllTests(Sets(tests[..|tests| - 1], n, sizes)) + Share(tests[|tests| - 1], n, sizes)
  {
    var init := tests[..|tests| - 1];
    if sizes == [] {
      assert Sets(tests, n, sizes) == Sets(init, n, sizes) == [];
    } else {
      var k := |sizes| - 1;
      assert Distinct(sizes[..k]);
      hide AllTests, Sets, Using, Share, Distinct;
      AddedTo(tests, n, sizes[..k]);
      AllTestsNext(tests, n, sizes);
      AllTestsNext(init, n, sizes);
      UsingNext(tests, n, sizes[k]);
      ShareNext(tests[|tests| - 1], n, sizes);
      Regroup(AllTests(Sets(init, n, sizes[..k])), Share(tests[|tests| - 1], n, sizes[..k]),
              multiset(Using(init, n, sizes[k])), Share(tests[|tests| - 1], n, [sizes[k]]),
              Share(tests[|tests| - 1], n, sizes));
    }
  }

  lemma NewSize(tests: seq<Test>, n: nat, sizes: seq<nat>, v: nat)
    requires Using(tests, n, v) == []
    ensures AllTests(Sets(tests, n, sizes + [v])) == AllTests(Sets(tests, n, sizes))
  {
    var sets := Sets(tests, n, sizes + [v]);
    assert sets[..|sizes|] == Sets(tests, n, sizes);
  }

  /** Every test that can run is placed, once for each time it is given. */
  lemma {:induction false} PlacedOnce(tests: seq<Test>, n: nat)
    ensures AllTests(Sets(tests, n, Sizes(tests, n))) == multiset(Runnable(tests, n))
  {
    if tests == [] {
      assert Sets(tests, n, []) == [];
    } else {
      var init := tests[..|tests| - 1];
      var t := tests[|tests| - 1];
      PlacedOnce(init, n);
      SizesAre(init, n);
      SizesAre(tests, n);
      AddedTo(tests, n, Sizes(tests, n));
      if Sizes(tests, n) != Sizes(init, n) {
        NewSize(init, n, Sizes(init, n), Machines(t, n));
      }
      UsingSize(tests, n);
      assert Share(t, n, Sizes(tests, n)) == if CanRun(t, n) then multiset{t.name} else multiset{};
    }
  }

  lemma UsingSize(tests: seq<Test>, n: nat)
    requires tests != []
    ensures var t := tests[|tests| - 1];
            CanRun(t, n) ==> Machines(t, n) in Sizes(tests, n)
  {
  }

  // ---- running ----

  /** How a process ended. */
  datatype Outcome = Outcome(exitCode: int, timedOut: bool)

  predicate Failed(o: Outcome) {
    o.timedOut || o.exitCode != 0
  }

  datatype Job = Job(test: string, machines: nat)

  datatype Report = Report(exitCode: int, results: map<string, (Outcome, nat)>, successful: nat, total: nat)

  function EligibleIn(tests: seq<string>, vms: nat, excluded: set<string>): seq<Job> {
    if tests == [] then []
    else
      var t := tests[|tests| - 1];
      EligibleIn(tests[..|tests| - 1], vms, excluded) + (if t in excluded then [] else [Job(t, vms)])
  }

  function EligibleOf(set_: TestSet, machines: nat, excluded: set<string>): seq<Job> {
    if machines < set_.vms then [] else EligibleIn(set_.tests, set_.vms, excluded)
  }

  /** The tests that are not excluded, of the sets for which there are machines. */
  function Eligible(sets: seq<TestSet>, machines: nat, excluded: set<string>): seq<Job> {
    if sets == [] then []
    else Eligible(sets[..|sets| - 1], machines, excluded) + EligibleOf(sets[|sets| - 1], machines, excluded)
  }

  function Successes(world: nat -> Outcome, n: nat): nat {
    if n == 0 then 0 else Successes(world, n - 1) + (if Failed(world(n - 1)) then 0 else 1)
  }

  /** The number of processes up to the first that fails, that one included, of n. */
  function UntilFailure(world: nat -> Outcome, n: nat): (k: nat)
    ensures k <= n && (forall i: nat :: i + 1 < k ==> !Failed(world(i)))
    ensures k < n ==> k > 0 && Failed(world(k - 1))
  {
    if n == 0 then 0
    else
      var k := UntilFailure(world, n - 1);
      if k > 0 && Failed(world(k - 1)) then k else n
  }

  /** The number of tests that are skipped: at most all, at least none. */
  function Skipped(numSkip: int, eligible: nat): nat {
    if numSkip <= 0 then 0 else if numSkip <= eligible then numSkip else eligible
  }

  /** The last outcome of every test that ran. */
  function ResultsOf(ran: seq<Job>, world: nat -> Outcome): map<string, (Outcome, nat)> {
    if ran == [] then map[]
    else
      var k := |ran| - 1;
      ResultsOf(ran[..k], world)[ran[k].test := (world(k), ran[k].machines)]
  }

  /** Where the loop stands: these tests have been met, skipped and run, and unless it
      keeps going none has failed. */
  ghost predicate Progress(met: seq<Job>, numSkip: int, keepGoing: bool, world: nat -> Outcome,
                           skipped: seq<Job>, ran: seq<Job>, r: Report)
  {
    met == skipped + ran && |skipped| == Skipped(numSkip, |met|)
    && r.total == |ran| && r.successful == Successes(world, r.total) && r.results == ResultsOf(ran, world)
    && r.exitCode == (if r.successful == r.total then 0 else 1)
    && (!keepGoing ==> r.successful == r.total && forall k: nat :: k < r.total ==> !Failed(world(k)))
  }

  lemma {:induction false} SuccessesBound(world: nat -> Outcome, n: nat)
    ensures Successes(world, n) <= n
    ensures Successes(world, n) == n <==> forall k: nat :: k < n ==> !Failed(world(k))
  {
    if n > 0 {
      SuccessesBound(world, n - 1);
    }
  }

  ghost predicate Done(met: seq<Job>, numSkip: int, keepGoing: bool, world: nat -> Outcome,
                       skipped: seq<Job>, ran: seq<Job>, r: Report)
  {
    var first := Skipped(numSkip, |met|);
    var todo := met[first..];
    skipped == met[..first]
    && r.total == (if keepGoing then |todo| else UntilFailure(world, |todo|))
    && ran == todo[..r.total]
    && r.successful == Successes(world, r.total)
    && r.results == ResultsOf(ran, world)
    && r.exitCode == (if r.successful == r.total then 0 else if keepGoing then 1 else world(r.total - 1).exitCode)
  }

  /** One more test is met: skipped, or run. */
  lemma ProgressSkip(met: seq<Job>, numSkip: int, keepGoing: bool, world: nat -> Outcome,
                     skipped: seq<Job>, ran: seq<Job>, r: Report, job: Job)
    requires Progress(met, numSkip, keepGoing, world, skipped, ran, r) && r.total + |skipped| < numSkip
    ensures Progress(met + [job], numSkip, keepGoing, world, skipped + [job], ran, r)
  {
    assert ran == [];
  }

  lemma ProgressRun(met: seq<Job>, numSkip: int, keepGoing: bool, world: nat -> Outcome,
                    skipped: seq<Job>, ran: seq<Job>, r: Report, job: Job)
    requires Progress(met, numSkip, keepGoing, world, skipped, ran, r) && r.total + |skipped| >= numSkip
    requires keepGoing || !Failed(world(r.total))
    ensures var failed := Failed(world(r.total));
            Progress(met + [job], numSkip, keepGoing, world, skipped, ran + [job],
                     Report(if failed then 1 else r.exitCode, r.results[job.test := (world(r.total), job.machines)],
                            if failed then r.successful else r.successful + 1, r.total + 1))
  {
    SuccessesBound(world, r.total);
    assert (ran + [job])[..|ran|] == ran;
  }

  /** The loop stops at the first failure; the tests met so far are the first of all. */
  lemma ProgressStop(met: seq<Job>, rest: seq<Job>, numSkip: int, world: nat -> Outcome,
                     skipped: seq<Job>, ran: seq<Job>, r: Report, job: Job)
    requires Progress(met, numSkip, false, world, skipped, ran, r) && r.total + |skipped| >= numSkip
    requires Failed(world(r.total))
    ensures Done(met + [job] + rest, numSkip, false, world, skipped, ran + [job],
                 Report(world(r.total).exitCode, r.results[job.test := (world(r.total), job.machines)],
                        r.successful, r.total + 1))
  {
    var all := met + [job] + rest;
    var first := Skipped(numSkip, |all|);
    assert first == |skipped|;
    assert (ran + [job])[..|ran|] == ran;
    assert all[first..] == ran + [job] + rest;
    assert all[..first] == skipped;
  }

  lemma ProgressDone(met: seq<Job>, numSkip: int, keepGoing: bool, world: nat -> Outcome,
                     skipped: seq<Job>, ran: seq<Job>, r: Report)
    requires Progress(met, numSkip, keepGoing, world, skipped, ran, r)
    ensures Done(met, numSkip, keepGoing, world, skipped, ran, r)
  {
    assert met[|skipped|..] == ran && met[..|skipped|] == skipped;
  }

  /** The tests met before test j of set i, and those after it. */
  function MetBefore(sets: seq<TestSet>, machines: nat, excluded: set<string>, i: nat, j: nat): seq<Job>
    requires i < |sets| && j <= |sets[i].tests|
  {
    Eligible(sets[..i], machines, excluded) + EligibleIn(sets[i].tests[..j], sets[i].vms, excluded)
  }

  lemma {:induction false} EligibleInPrefix(tests: seq<string>, vms: nat, excluded: set<string>, j: nat)
    requires j <= |tests|
    ensures EligibleIn(tests[..j], vms, excluded) <= EligibleIn(tests, vms, excluded)
  {
    if j < |tests| {
      var k := |tests| - 1;
      EligibleInPrefix(tests[..k], vms, excluded, j);
      assert tests[..k][..j] == tests[..j];
    } else {
      assert tests[..j] == tests;
    }
  }

  lemma {:induction false} EligiblePrefix(sets: seq<TestSet>, machines: nat, excluded: set<string>, i: nat)
    requires i <= |sets|
    ensures Eligible(sets[..i], machines, excluded) <= Eligible(sets, machines, excluded)
  {
    hide EligibleOf;
    if i < |sets| {
      var k := |sets| - 1;
      EligiblePrefix(sets[..k], machines, excluded, i);
      assert sets[..k][..i] == sets[..i];
    } else {
      assert sets[..i] == sets;
    }
  }

  lemma PrefixOfSum(a: seq<Job>, b: seq<Job>, c: seq<Job>, all: seq<Job>) returns (rest: seq<Job>)
    requires b <= c && a + c <= all
    ensures all == a + b + rest
  {
    rest := all[|a + b|..];
    assert all[..|a + b|] == a + b;
  }

  lemma MetPrefix(sets: seq<TestSet>, machines: nat, excluded: set<string>, i: nat, j: nat) returns (rest: seq<Job>)
    requires i < |sets| && j <= |sets[i].tests| && machines >= sets[i].vms
    ensures Eligible(sets, machines, excluded) == MetBefore(sets, machines, excluded, i, j) + rest
  {
    hide Eligible, EligibleIn;
    EligiblePrefix(sets, machines, excluded, i + 1);
    EligibleInPrefix(sets[i].tests, sets[i].vms, excluded, j);
    EligibleNext(sets, machines, excluded, i);
    assert sets[i].tests[..|sets[i].tests|] == sets[i].tests;
    rest := PrefixOfSum(Eligible(sets[..i], machines, excluded),
                        EligibleIn(sets[i].tests[..j], sets[i].vms, excluded),
                        EligibleIn(sets[i].tests, sets[i].vms, excluded),
                        Eligible(sets, machines, excluded));
  }

  /** `run_tests`.  `world(k)` says how the process started as number k ends. */
  method RunTests(sets: seq<TestSet>, machines: nat, excluded: set<string>, keepGoing: bool, numSkip: int,
                  world: nat -> Outcome)
    returns (r: Report, skipped: seq<Job>, ran: seq<Job>)
    ensures Done(Eligible(sets, machines, excluded), numSkip, keepGoing, world, skipped, ran, r)
  {
    hide Progress, Done, Eligible, MetBefore;
    r := Report(0, map[], 0, 0);
    skipped, ran := [], [];
    NoProgress(numSkip, keepGoing, world);
    NoneEligible(sets, machines, excluded);
    for i := 0 to |sets|
      invariant Progress(Eligible(sets[..i], machines, excluded), numSkip, keepGoing, world, skipped, ran, r)
    {
      EligibleNext(sets, machines, excluded, i);
      if machines < sets[i].vms {
        continue;
      }
      var tests := sets[i].tests;
      assert tests[..0] == [];
      for j := 0 to |tests|
        invariant Progress(MetBefore(sets, machines, excluded, i, j), numSkip, keepGoing, world, skipped, ran, r)
      {
        MetNext(sets, machines, excluded, i, j);
        ghost var met := MetBefore(sets, machines, excluded, i, j);
        var job := Job(tests[j], sets[i].vms);
        if tests[j] in excluded {
          continue;
        }
        if r.total + |skipped| < numSkip {
          ProgressSkip(met, numSkip, keepGoing, world, skipped, ran, r, job);
          skipped := skipped + [job];
          continue;
        }
        var before, ranBefore := r, ran;
        var outcome := world(r.total);
        r := r.(total := r.total + 1, results := r.results[job.test := (outcome, job.machines)]);
        ran := ran + [job];
        if outcome.timedOut || outcome.exitCode != 0 {
          if !keepGoing {
            var rest := MetPrefix(sets, machines, excluded, i, j + 1);
            ProgressStop(met, rest, numSkip, world, skipped, ranBefore, before, job);
            r := r.(exitCode := outcome.exitCode);
            return;
          }
          r := r.(exitCode := 1);
        } else {
          r := r.(successful := r.successful + 1);
        }
        ProgressRun(met, numSkip, keepGoing, world, skipped, ranBefore, before, job);
      }
      assert tests[..|tests|] == tests;
    }
    assert sets[..|sets|] == sets;
    ProgressDone(Eligible(sets, machines, excluded), numSkip, keepGoing, world, skipped, ran, r);
  }

  lemma NoProgress(numSkip: int, keepGoing: bool, world: nat -> Outcome)
    ensures Progress([], numSkip, keepGoing, world, [], [], Report(0, map[], 0, 0))
  {
  }

  lemma NoneEligible(sets: seq<TestSet>, machines: nat, excluded: set<string>)
    ensures Eligible(sets[..0], machines, excluded) == []
  {
  }

  lemma EligibleNext(sets: seq<TestSet>, machines: nat, excluded: set<string>, i: nat)
    requires i < |sets|
    ensures Eligible(sets[..i + 1], machines, excluded)
            == if machines < sets[i].vms then Eligible(sets[..i], machines, excluded)
               else MetBefore(sets, machines, excluded, i, |sets[i].tests|)
    ensures MetBefore(sets, machines, excluded, i, 0) == Eligible(sets[..i], machines, excluded)
  {
    assert sets[..i + 1][..i] == sets[..i];
    assert sets[i].tests[..|sets[i].tests|] == sets[i].tests;
  }

  lemma MetNext(sets: seq<TestSet>, machines: nat, excluded: set<string>, i: nat, j: nat)
    requires i < |sets| && j < |sets[i].tests|
    ensures var t := sets[i].tests[j];
            MetBefore(sets, machines, excluded, i, j + 1)
            == if t in excluded then MetBefore(sets, machines, excluded, i, j)
               else MetBefore(sets, machines, excluded, i, j) + [Job(t, sets[i].vms)]
  {
    assert sets[i].tests[..j + 1][..j] == sets[i].tests[..j];
  }

  // ---- the first value that run_tests returns ----

  /** The exit code returned is zero iff every test that ran succeeded, or the run was
      cut short by a test that timed out and yet ended with status zero. */
  lemma ExitCodeZero(met: seq<Job>, numSkip: int, keepGoing: bool, world: nat -> Outcome,
                   skipped: seq<Job>, ran: seq<Job>, r: Report)
    requires Done(met, numSkip, keepGoing, world, skipped, ran, r)
    ensures r.successful <= r.total <= |met|
    ensures r.exitCode == 0
            <==> r.successful == r.total
                 || (!keepGoing && r.total > 0 && world(r.total - 1).timedOut && world(r.total - 1).exitCode == 0)
  {
    SuccessesBound(world, r.total);
  }

  /** So where a process that is timed out has a non-zero status, it is zero iff all
      succeeded. */
  lemma ExitCodeZeroIff(met: seq<Job>, numSkip: int, keepGoing: bool, world: nat -> Outcome,
                    skipped: seq<Job>, ran: seq<Job>, r: Report)
    requires Done(met, numSkip, keepGoing, world, skipped, ran, r)
    requires forall k: nat :: world(k).timedOut ==> world(k).exitCode != 0
    ensures r.exitCode == 0 <==> r.successful == r.total
  {
    hide Done;
    ExitCodeZero(met, numSkip, keepGoing, world, skipped, ran, r);
  }

  /** Nothing is lost: with the first tests skipped, the rest is run as long as nothing
      fails, and all of it when the runner keeps going. */
  lemma Complete(met: seq<Job>, numSkip: int, keepGoing: bool, world: nat -> Outcome,
                 skipped: seq<Job>, ran: seq<Job>, r: Report)
    requires Done(met, numSkip, keepGoing, world, skipped, ran, r)
    ensures skipped + ran <= met
    ensures keepGoing || r.successful == r.total ==> skipped + ran == met
  {
    SuccessesBound(world, r.total);
    var first := Skipped(numSkip, |met|);
    assert met == met[..first] + met[first..];
  }

  // ---- main ----

  /** What run_tests returns, as a function of how the processes end. */
  function ReportOf(met: seq<Job>, numSkip: int, keepGoing: bool, world: nat -> Outcome): Report {
    var first := Skipped(numSkip, |met|);
    var total := if keepGoing then |met| - first else UntilFailure(world, |met| - first);
    var successful := Successes(world, total);
    Report(if successful == total then 0 else if keepGoing then 1 else world(total - 1).exitCode,
           ResultsOf(met[first..][..total], world), successful, total)
  }

  lemma DoneReport(met: seq<Job>, numSkip: int, keepGoing: bool, world: nat -> Outcome,
                   skipped: seq<Job>, ran: seq<Job>, r: Report)
    requires Done(met, numSkip, keepGoing, world, skipped, ran, r)
    ensures r == ReportOf(met, numSkip, keepGoing, world)
  {
  }

  /** The tests that ran, and those that succeeded, in the first n iterations. */
  function Ran(met: seq<Job>, numSkip: int, keepGoing: bool, worlds: nat -> nat -> Outcome, n: nat): nat {
    if n == 0 then 0
    else Ran(met, numSkip, keepGoing, worlds, n - 1) + ReportOf(met, numSkip, keepGoing, worlds(n - 1)).total
  }

  function Succeeded(met: seq<Job>, numSkip: int, keepGoing: bool, worlds: nat -> nat -> Outcome, n: nat): nat {
    if n == 0 then 0
    else Succeeded(met, numSkip, keepGoing, worlds, n - 1) + ReportOf(met, numSkip, keepGoing, worlds(n - 1)).successful
  }

  /** The variable that main returns is only assigned in its loop. */
  datatype MainError = UnboundLocalError

  /** The loop of `main` over the iterations: the totals are those of all, the value
      returned is that of the last. */
  method RunMain(iterations: int, sets: seq<TestSet>, machines: nat, excluded: set<string>, keepGoing: bool,
                 numSkip: int, worlds: nat -> nat -> Outcome)
    returns (r: Result<int, MainError>, successful: nat, ran: nat)
    ensures r.Err? <==> iterations <= 0
    ensures r.Ok? ==>
              var met := Eligible(sets, machines, excluded);
              r.value == ReportOf(met, numSkip, keepGoing, worlds(iterations - 1)).exitCode
              && ran == Ran(met, numSkip, keepGoing, worlds, iterations)
              && successful == Succeeded(met, numSkip, keepGoing, worlds, iterations)
  {
    hide Done, ReportOf, Eligible;
    successful, ran := 0, 0;
    r := Err(UnboundLocalError);
    var n: nat := if iterations < 0 then 0 else iterations;
    for i := 0 to n
      invariant r.Err? <==> i == 0
      invariant ran == Ran(Eligible(sets, machines, excluded), numSkip, keepGoing, worlds, i)
      invariant successful == Succeeded(Eligible(sets, machines, excluded), numSkip, keepGoing, worlds, i)
      invariant i > 0 ==>
                  r == Ok(ReportOf(Eligible(sets, machines, excluded), numSkip, keepGoing, worlds(i - 1)).exitCode)
    {
      var report, skipped, started := RunTests(sets, machines, excluded, keepGoing, numSkip, worlds(i));
      DoneReport(Eligible(sets, machines, excluded), numSkip, keepGoing, worlds(i), skipped, started, report);
      successful := successful + report.successful;
      ran := ran + report.total;
      r := Ok(report.exitCode);
    }
  }

  /** The script: main's value is dropped, and only an exception makes the status of
      the process non-zero. */
  method RunScript(iterations: int, sets: seq<TestSet>, machines: nat, excluded: set<string>, keepGoing: bool,
                   numSkip: int, worlds: nat -> nat -> Outcome)
    returns (status: int)
    ensures status == if iterations <= 0 then 1 else 0
  {
    var r, _, _ := RunMain(iterations, sets, machines, excluded, keepGoing, numSkip, worlds);
    status := if r.Err? then 1 else 0;
  }

  ghost predicate AllSucceeded(r: Report) {
    r.successful == r.total
  }

  lemma {:induction false} TotalsAgree(met: seq<Job>, numSkip: int, keepGoing: bool, worlds: nat -> nat -> Outcome, n: nat)
    ensures Succeeded(met, numSkip, keepGoing, worlds, n) <= Ran(met, numSkip, keepGoing, worlds, n)
    ensures Succeeded(met, numSkip, keepGoing, worlds, n) == Ran(met, numSkip, keepGoing, worlds, n)
            <==> forall k: nat :: k < n ==> AllSucceeded(ReportOf(met, numSkip, keepGoing, worlds(k)))
  {
    hide ReportOf;
    if n > 0 {
      TotalsAgree(met, numSkip, keepGoing, worlds, n - 1);
      ReportBound(met, numSkip, keepGoing, worlds(n - 1));
    }
  }

  lemma ReportBound(met: seq<Job>, numSkip: int, keepGoing: bool, world: nat -> Outcome)
    ensures var r := ReportOf(met, numSkip, keepGoing, world);
            r.successful <= r.total
  {
    SuccessesBound(world, ReportOf(met, numSkip, keepGoing, world).total);
  }

  /** Where a process that is timed out has a non-zero status, the value that main
      returns is zero exactly when all tests of all iterations succeeded iff no
      iteration before a successful last one had a failure. */
  lemma ReturnedIff(met: seq<Job>, numSkip: int, keepGoing: bool, worlds: nat -> nat -> Outcome, n: nat)
    requires n > 0 && forall k: nat, j: nat :: worlds(k)(j).timedOut ==> worlds(k)(j).exitCode != 0
    ensures var last := ReportOf(met, numSkip, keepGoing, worlds(n - 1));
            (last.exitCode == 0
             <==> Succeeded(met, numSkip, keepGoing, worlds, n) == Ran(met, numSkip, keepGoing, worlds, n))
            <==> (AllSucceeded(last) ==>
                    forall k: nat :: k + 1 < n ==> AllSucceeded(ReportOf(met, numSkip, keepGoing, worlds(k))))
  {
    TotalsAgree(met, numSkip, keepGoing, worlds, n);
    ReportZeroIff(met, numSkip, keepGoing, worlds(n - 1));
    hide ReportOf;
  }

  lemma ReportZeroIff(met: seq<Job>, numSkip: int, keepGoing: bool, world: nat -> Outcome)
    requires forall j: nat :: world(j).timedOut ==> world(j).exitCode != 0
    ensures var r := ReportOf(met, numSkip, keepGoing, world);
            r.exitCode == 0 <==> AllSucceeded(r)
  {
    SuccessesBound(world, ReportOf(met, numSkip, keepGoing, world).total);
  }

  /** A failed iteration before a successful one is not in the value. */
  lemma EarlierFailureForgotten()
    ensures var met := [Job("t", 1)];
            var worlds := (k: nat) => (j: nat) => Outcome(if k == 0 then 1 else 0, false);
            ReportOf(met, 0, false, worlds(0)).successful == 0 && ReportOf(met, 0, false, worlds(0)).total == 1
            && ReportOf(met, 0, false, worlds(1)).exitCode == 0
  {
    var good := (j: nat) => Outcome(0, false);
    var bad := (j: nat) => Outcome(1, false);
    assert UntilFailure(bad, 1) == 1 && UntilFailure(good, 1) == 1;
    assert Successes(bad, 1) == 0 && Successes(good, 1) == 1;
  }
}
