/** run.py: what a run of the tests does, in plain words. */
module TestRuns {
  import opened Runner

  // ---- which tests are there to run ----

  predicate ToRun(sets: seq<TestSet>, machines: nat, excluded: set<string>, i: nat, j: nat) {
    i < |sets| && j < |sets[i].tests| && sets[i].vms <= machines && sets[i].tests[j] !in excluded
  }

  /** Set by set, and in each set test by test. */
  predicate Before(p: (nat, nat), q: (nat, nat)) {
    p.0 < q.0 || (p.0 == q.0 && p.1 < q.1)
  }

  ghost predicate Sorted(ps: seq<(nat, nat)>) {
    forall a, b :: 0 <= a < b < |ps| ==> Before(ps[a], ps[b])
  }

  ghost predicate AllToRun(ps: seq<(nat, nat)>, sets: seq<TestSet>, machines: nat, excluded: set<string>) {
    forall i: nat, j: nat :: (i, j) in ps <==> ToRun(sets, machines, excluded, i, j)
  }

  ghost predicate IsJob(job: Job, sets: seq<TestSet>, p: (nat, nat)) {
    p.0 < |sets| && p.1 < |sets[p.0].tests| && job.test == sets[p.0].tests[p.1] && job.machines == sets[p.0].vms
  }

  /** The jobs are those at these positions, which are all that are there to run. */
  ghost predicate JobsAt(ps: seq<(nat, nat)>, sets: seq<TestSet>, machines: nat, excluded: set<string>, jobs: seq<Job>) {
    Sorted(ps) && AllToRun(ps, sets, machines, excluded) && |jobs| == |ps| && forall a :: 0 <= a < |ps| ==> IsJob(jobs[a], sets, ps[a])
  }

  /** The positions of the tests of one set. */
  ghost function InSet(tests: seq<string>, excluded: set<string>): (js: seq<nat>)
    ensures forall a, b :: 0 <= a < b < |js| ==> js[a] < js[b]
    ensures forall j: nat :: j in js <==> j < |tests| && tests[j] !in excluded
  {
    if tests == [] then []
    else
      var k := |tests| - 1;
      var js := InSet(tests[..k], excluded);
      assert forall a :: 0 <= a < |js| ==> js[a] in js;
      js + (if tests[k] in excluded then [] else [k])
  }

  lemma {:induction false} InSetJobs(tests: seq<string>, vms: nat, excluded: set<string>)
    ensures var js, jobs := InSet(tests, excluded), EligibleIn(tests, vms, excluded);
            |jobs| == |js| && forall a :: 0 <= a < |js| ==> js[a] < |tests| && jobs[a] == Job(tests[js[a]], vms)
  {
    if tests != [] {
      InSetJobs(tests[..|tests| - 1], vms, excluded);
    }
  }

  function Paired(i: nat, js: seq<nat>): (ps: seq<(nat, nat)>)
    ensures |ps| == |js| && forall a :: 0 <= a < |js| ==> ps[a] == (i, js[a])
  {
    seq(|js|, a requires 0 <= a < |js| => (i, js[a]))
  }

  lemma InPaired(i: nat, js: seq<nat>)
    ensures forall p: nat, q: nat :: (p, q) in Paired(i, js) <==> p == i && q in js
  {
    forall p: nat, q: nat
      ensures (p, q) in Paired(i, js) <==> p == i && q in js
    {
      if p == i && q in js {
        var a :| 0 <= a < |js| && js[a] == q;
        assert Paired(i, js)[a] == (p, q);
      }
    }
  }

  /** The tests that `Eligible` lists are exactly those, each in its place. */
  lemma {:induction false} EligibleExact(sets: seq<TestSet>, machines: nat, excluded: set<string>) returns (ps: seq<(nat, nat)>)
    ensures JobsAt(ps, sets, machines, excluded, Eligible(sets, machines, excluded))
  {
    if sets == [] {
      ps := [];
    } else {
      var k := |sets| - 1;
      var before := EligibleExact(sets[..k], machines, excluded);
      var js := if machines < sets[k].vms then [] else InSet(sets[k].tests, excluded);
      InSetJobs(sets[k].tests, sets[k].vms, excluded);
      InPaired(k, js);
      ps := before + Paired(k, js);
      OneMoreSet(before, js, sets, machines, excluded, Eligible(sets[..k], machines, excluded),
                 EligibleOf(sets[k], machines, excluded));
    }
  }

  lemma OneMoreSet(before: seq<(nat, nat)>, js: seq<nat>, sets: seq<TestSet>, machines: nat, excluded: set<string>,
                   jobs: seq<Job>, more: seq<Job>)
    requires sets != [] && JobsAt(before, sets[..|sets| - 1], machines, excluded, jobs)
    requires forall j: nat :: j in js <==> ToRun(sets, machines, excluded, |sets| - 1, j)
    requires forall a, b :: 0 <= a < b < |js| ==> js[a] < js[b]
    requires |more| == |js| && forall a :: 0 <= a < |js| ==> IsJob(more[a], sets, (|sets| - 1, js[a]))
    ensures JobsAt(before + Paired(|sets| - 1, js), sets, machines, excluded, jobs + more)
  {
    var k := |sets| - 1;
    var ps := before + Paired(k, js);
    assert Sorted(ps) && AllToRun(ps, sets, machines, excluded) by {
      hide IsJob;
      OneMoreInOrder(before, js, sets, machines, excluded);
    }
    hide Sorted, AllToRun, ToRun, IsJob;
    forall a | 0 <= a < |ps|
      ensures IsJob((jobs + more)[a], sets, ps[a])
    {
      if a < |before| {
        JobStays(jobs[a], sets, before[a]);
      } else {
        assert ps[a] == (k, js[a - |before|]) && (jobs + more)[a] == more[a - |before|];
      }
    }
  }

  lemma JobStays(job: Job, sets: seq<TestSet>, p: (nat, nat))
    requires sets != [] && IsJob(job, sets[..|sets| - 1], p)
    ensures IsJob(job, sets, p)
  {
  }

  lemma OneMoreInOrder(before: seq<(nat, nat)>, js: seq<nat>, sets: seq<TestSet>, machines: nat, excluded: set<string>)
    requires sets != [] && Sorted(before) && AllToRun(before, sets[..|sets| - 1], machines, excluded)
    requires forall j: nat :: j in js <==> ToRun(sets, machines, excluded, |sets| - 1, j)
    requires forall a, b :: 0 <= a < b < |js| ==> js[a] < js[b]
    ensures var ps := before + Paired(|sets| - 1, js); Sorted(ps) && AllToRun(ps, sets, machines, excluded)
  {
    var k := |sets| - 1;
    var ps := before + Paired(k, js);
    InPaired(k, js);
    SetsBefore(before, sets, machines, excluded);
    hide ToRun;
    assert Sorted(ps) by {
      assert forall a :: 0 <= a < |before| ==> before[a] in before;
      hide AllToRun;
    }
    assert forall i: nat, j: nat :: (i, j) in ps <==> (i, j) in before || (i, j) in Paired(k, js);
  }

  lemma SetsBefore(before: seq<(nat, nat)>, sets: seq<TestSet>, machines: nat, excluded: set<string>)
    requires sets != [] && AllToRun(before, sets[..|sets| - 1], machines, excluded)
    ensures forall i: nat, j: nat :: (i, j) in before <==> i < |sets| - 1 && ToRun(sets, machines, excluded, i, j)
    ensures forall p :: p in before ==> p.0 < |sets| - 1
  {
    forall i: nat, j: nat
      ensures (i, j) in before <==> i < |sets| - 1 && ToRun(sets, machines, excluded, i, j)
    {
      assert (i, j) in before <==> ToRun(sets[..|sets| - 1], machines, excluded, i, j);
    }
    forall p | p in before
      ensures p.0 < |sets| - 1
    {
      assert (p.0, p.1) in before;
    }
  }

  // ---- what a run does with them ----

  predicate WentWrong(o: Outcome) {
    o.timedOut || o.exitCode != 0
  }

  /** As many as are to be skipped, if there are so many. */
  ghost predicate SkippedAre(numSkip: int, eligible: nat, skipped: nat) {
    skipped <= eligible && (skipped == numSkip || (skipped == 0 && numSkip < 0) || (skipped == eligible && eligible < numSkip))
  }

  /** The processes that ended well, in order. */
  ghost predicate GoodOnes(good: seq<nat>, world: nat -> Outcome, n: nat) {
    (forall a, b :: 0 <= a < b < |good| ==> good[a] < good[b])
    && forall k: nat :: k in good <==> k < n && !WentWrong(world(k))
  }

  ghost predicate HasRun(ran: seq<Job>, name: string) {
    exists k :: 0 <= k < |ran| && ran[k].test == name
  }

  /** No later process is of the same test. */
  ghost predicate IsLast(ran: seq<Job>, k: nat) {
    k < |ran| && forall m :: k < m < |ran| ==> ran[m].test != ran[k].test
  }

  /** Each test that ran, with the outcome of its last process. */
  ghost predicate LastOutcomes(ran: seq<Job>, world: nat -> Outcome, results: map<string, (Outcome, nat)>) {
    (forall name :: name in results <==> HasRun(ran, name))
    && forall k: nat :: IsLast(ran, k) ==> ran[k].test in results && results[ran[k].test] == (world(k), ran[k].machines)
  }

  /** All are run, or those up to the first that fails. */
  ghost predicate RunUntil(keepGoing: bool, left: nat, world: nat -> Outcome, ran: nat) {
    ran <= left
    && if keepGoing then ran == left
       else (forall k: nat :: k + 1 < ran ==> !WentWrong(world(k)))
            && (ran < left ==> ran > 0 && WentWrong(world(ran - 1)))
  }

  ghost predicate Chosen(ps: seq<(nat, nat)>, sets: seq<TestSet>, skipped: seq<Job>, ran: seq<Job>) {
    |skipped| + |ran| <= |ps|
    && (forall a :: 0 <= a < |skipped| ==> IsJob(skipped[a], sets, ps[a]))
    && (forall a :: 0 <= a < |ran| ==> IsJob(ran[a], sets, ps[|skipped| + a]))
  }

  ghost predicate Reported(good: seq<nat>, keepGoing: bool, world: nat -> Outcome, ran: seq<Job>, r: Report) {
    r.total == |ran| && GoodOnes(good, world, |ran|) && r.successful == |good| <= |ran| && LastOutcomes(ran, world, r.results)
    && (|good| == |ran| ==> r.exitCode == 0)
    && (|good| < |ran| ==> r.exitCode == if keepGoing then 1 else world(|ran| - 1).exitCode)
  }

  lemma {:induction false} CountGood(world: nat -> Outcome, n: nat) returns (good: seq<nat>)
    ensures GoodOnes(good, world, n) && |good| == Successes(world, n)
  {
    if n == 0 {
      good := [];
    } else {
      var before := CountGood(world, n - 1);
      assert forall a :: 0 <= a < |before| ==> before[a] in before;
      good := if WentWrong(world(n - 1)) then before else before + [n - 1];
      assert forall k: nat :: k in good <==> k in before || (k == n - 1 && !WentWrong(world(k)));
    }
  }

  lemma {:induction false} ResultsAre(ran: seq<Job>, world: nat -> Outcome)
    ensures LastOutcomes(ran, world, ResultsOf(ran, world))
  {
    hide LastOutcomes;
    if ran == [] {
      NoOutcomes(world);
    } else {
      var n := |ran| - 1;
      ResultsAre(ran[..n], world);
      OneMoreOutcome(ran[..n], ran[n], world, ResultsOf(ran[..n], world));
      assert ran[..n] + [ran[n]] == ran;
    }
  }

  lemma NoOutcomes(world: nat -> Outcome)
    ensures LastOutcomes([], world, map[])
  {
  }

  lemma OneMoreOutcome(ran: seq<Job>, job: Job, world: nat -> Outcome, results: map<string, (Outcome, nat)>)
    requires LastOutcomes(ran, world, results)
    ensures LastOutcomes(ran + [job], world, results[job.test := (world(|ran|), job.machines)])
  {
    hide HasRun, IsLast;
    forall name
      ensures HasRun(ran + [job], name) <==> HasRun(ran, name) || name == job.test
    {
      OneMoreRun(ran, job, name);
    }
    forall k: nat | IsLast(ran + [job], k) && k < |ran|
      ensures IsLast(ran, k) && ran[k].test != job.test
    {
      LastBefore(ran, job, k);
    }
    assert forall k: nat :: IsLast(ran + [job], k) ==> k <= |ran| by {
      LastIn(ran + [job]);
    }
  }

  lemma LastIn(ran: seq<Job>)
    ensures forall k: nat :: IsLast(ran, k) ==> k < |ran|
  {
  }

  lemma OneMoreRun(ran: seq<Job>, job: Job, name: string)
    ensures HasRun(ran + [job], name) <==> HasRun(ran, name) || name == job.test
  {
    assert (ran + [job])[|ran|] == job;
    if HasRun(ran, name) {
      var k :| 0 <= k < |ran| && ran[k].test == name;
      assert (ran + [job])[k].test == name;
    }
  }

  lemma LastBefore(ran: seq<Job>, job: Job, k: nat)
    requires k < |ran| && IsLast(ran + [job], k)
    ensures IsLast(ran, k) && ran[k].test != job.test
  {
    assert (ran + [job])[|ran|] == job;
    assert forall m :: k < m < |ran| ==> (ran + [job])[m] == ran[m];
  }

  /** What run_tests does: it skips the first so many of the tests that are not excluded and
      for which there are machines, and runs the following in order: all of them, or up to the
      first that fails.  It counts those that end well, and gives for each test the outcome of
      its last process. */
  lemma RunExact(sets: seq<TestSet>, machines: nat, excluded: set<string>, keepGoing: bool, numSkip: int,
                 world: nat -> Outcome, skipped: seq<Job>, ran: seq<Job>, r: Report)
    requires Done(Eligible(sets, machines, excluded), numSkip, keepGoing, world, skipped, ran, r)
    ensures exists ps :: Sorted(ps) && AllToRun(ps, sets, machines, excluded) && Chosen(ps, sets, skipped, ran)
                         && SkippedAre(numSkip, |ps|, |skipped|) && RunUntil(keepGoing, |ps| - |skipped|, world, |ran|)
    ensures exists good :: Reported(good, keepGoing, world, ran, r)
  {
    hide Eligible, ResultsOf, LastOutcomes, ToRun, Successes, Sorted, AllToRun, GoodOnes, IsJob;
    var ps := EligibleExact(sets, machines, excluded);
    SkippedThenRun(ps, sets, machines, excluded, Eligible(sets, machines, excluded), keepGoing, numSkip, world, skipped, ran, r);
    var good := CountGood(world, r.total);
    ResultsAre(ran, world);
    SuccessesBound(world, r.total);
    assert Reported(good, keepGoing, world, ran, r);
  }

  lemma SkippedThenRun(ps: seq<(nat, nat)>, sets: seq<TestSet>, machines: nat, excluded: set<string>, met: seq<Job>,
                       keepGoing: bool, numSkip: int, world: nat -> Outcome, skipped: seq<Job>, ran: seq<Job>, r: Report)
    requires JobsAt(ps, sets, machines, excluded, met) && Done(met, numSkip, keepGoing, world, skipped, ran, r)
    ensures Chosen(ps, sets, skipped, ran)
    ensures SkippedAre(numSkip, |ps|, |skipped|) && RunUntil(keepGoing, |ps| - |skipped|, world, |ran|)
  {
    hide ResultsOf, ToRun, Successes, Sorted, AllToRun, IsJob;
    var first := Skipped(numSkip, |met|);
    assert forall a :: 0 <= a < |ran| ==> ran[a] == met[first + a];
  }
}
