/** Configuration files are named after resources, so resources of one name share their
    files on every host: when that does no harm, and the harm that it does. */
module SharedFiles {
  import opened Wrappers
  import opened NodeConfig
  import opened ConfigErrors
  import opened ClusterState
  import opened ClusterAllocation
  import opened ConfigCache
  import OrderedSets

  // ---- names that are distinct ----

  /** A resource has at most one node on each host. */
  ghost predicate OneEach(s: State) {
    forall m, n ::
      0 <= m < |s.nodes| && 0 <= n < |s.nodes| && s.nodes[m].host == s.nodes[n].host
      && s.nodes[m].resource == s.nodes[n].resource
      ==> m == n
  }

  function Names(s: State): seq<string> {
    seq(|s.resources|, r requires 0 <= r < |s.resources| => s.resources[r].name)
  }

  lemma DistinctNamesPrivate(s: State)
    requires Linked(s) && OneEach(s) && OrderedSets.NoDup(Names(s))
    ensures Private(s)
  {
    forall m, n | 0 <= m < |s.nodes| && 0 <= n < |s.nodes| && SameFile(s, m, n)
      ensures m == n
    {
      assert Names(s)[s.nodes[m].resource] == Names(s)[s.nodes[n].resource];
    }
  }

  /** The names of the resources after a step. */
  function NamesAfter(names: seq<string>, step: Step): seq<string> {
    match step
    case CreateResource(name) => names + [name]
    case On(r, change) => if r < |names| && change.Rename? then names[r := change.value] else names
  }

  /** No step gives a resource the name of another one. */
  ghost predicate DistinctNames(names: seq<string>, steps: seq<Step>)
    decreases |steps|
  {
    OrderedSets.NoDup(names) && (steps != [] ==> DistinctNames(NamesAfter(names, steps[0]), steps[1..]))
  }

  // ---- what steps do to names and hosts ----

  /** The same nodes of the same resources. */
  ghost predicate SameNodes(s: State, t: State) {
    |t.nodes| == |s.nodes| && |t.resources| == |s.resources|
    && (forall n :: 0 <= n < |s.nodes| ==> t.nodes[n].host == s.nodes[n].host && t.nodes[n].resource == s.nodes[n].resource)
  }

  lemma SetNames(s: State, r: nat, change: Change)
    requires Linked(s) && r < |s.resources| && IsSetter(change)
    ensures Names(Set(s, r, change)) == NamesAfter(Names(s), On(r, change)) && SameNodes(s, Set(s, r, change))
  {
  }

  lemma MembershipNames(s: State, r: nat, change: Change)
    requires Linked(s) && r < |s.resources| && (change.AddNode? || change.RemoveNode?)
    ensures var t := Changed(s, r, change, false).state; Names(t) == Names(s) && SameNodes(s, t)
  {
    hide OrderedSets.RemoveFirst;
    var t := Changed(s, r, change, false).state;
    assert forall q :: 0 <= q < |s.resources| ==> t.resources[q].name == s.resources[q].name;
  }

  lemma OptionNames(s: State, r: nat, change: Change)
    requires Linked(s) && r < |s.resources| && (change.SetFencing? || change.SetTiebreaker?)
    ensures var t := Changed(s, r, change, false).state; Names(t) == Names(s) && SameNodes(s, t)
  {
  }

  lemma CachedNames(s: State, t: State)
    requires SameSettings(s, t)
    ensures Names(t) == Names(s) && SameNodes(s, t)
  {
    forall n | 0 <= n < |s.nodes|
      ensures t.nodes[n].host == s.nodes[n].host && t.nodes[n].resource == s.nodes[n].resource
    {
      assert t.nodes[n].(marked := false) == s.nodes[n].(marked := false);
    }
  }

  lemma VolumeAddedNames(s: State, r: nat, backings: seq<Option<Backing>>)
    requires Linked(s) && r < |s.resources| && |backings| == |s.resources[r].members|
    ensures var t := VolumeAdded(s, r, backings, false).state; Names(t) == Names(s) && SameNodes(s, t)
  {
    hide VolumeAdded, GotVolumes;
    VolumeAddedIs(s, r, backings, false);
  }

  lemma {:induction false} NodesCreatedNames(s: State, r: nat, from: nat)
    requires Linked(s) && r < |s.resources| && from <= |s.hosts| && OneEach(s)
    requires forall n :: 0 <= n < |s.nodes| && s.nodes[n].resource == r ==> s.nodes[n].host < from
    ensures var t := NodesCreated(s, r, from); Names(t) == Names(s) && OneEach(t)
    decreases |s.hosts| - from
  {
    if from < |s.hosts| {
      NodesCreatedNames(NodeCreated(s, r, from), r, from + 1);
    }
  }

  lemma ResourceNames(s: State, name: string)
    requires Linked(s) && OneEach(s)
    ensures Names(ResourceCreated(s, name)) == Names(s) + [name] && OneEach(ResourceCreated(s, name))
  {
    hide NodesCreated;
    var t := ResourceListed(s, name);
    NodesCreatedNames(t, |s.resources|, 0);
    assert Names(t) == Names(s) + [name];
  }

  lemma ChangeNames(s: State, r: nat, change: Change)
    requires Linked(s) && r < |s.resources| && OneEach(s) && Orderly(On(r, change))
    ensures var t := Changed(s, r, change, false).state;
            Names(t) == NamesAfter(Names(s), On(r, change)) && OneEach(t)
  {
    hide Set, Fenced, Touched, Joined, Left, TiebreakerSet, VolumeAdded, UpdatedIf, Names, SameSettings;
    assert |Names(s)| == |s.resources| by { NamesLength(s); }
    if IsSetter(change) {
      SetNames(s, r, change);
    } else if change.AddDisk? {
      if |change.backings| == |s.resources[r].members| {
        VolumeAddedNames(s, r, change.backings);
      }
    } else if change.Command? {
      if change.k < |s.resources[r].members| {
        UpdateIsOnlyCache(change.update, s, Member(s, r, change.k), false);
        CachedNames(s, Changed(s, r, change, false).state);
      }
    } else if change.AddNode? || change.RemoveNode? {
      MembershipNames(s, r, change);
    } else {
      OptionNames(s, r, change);
    }
  }

  lemma NamesLength(s: State)
    ensures |Names(s)| == |s.resources|
  {
  }

  lemma NextNames(s: State, step: Step)
    requires Linked(s) && OneEach(s) && Orderly(step)
    ensures var t := Next(s, step, false).state;
            Names(t) == NamesAfter(Names(s), step) && OneEach(t)
  {
    hide Changed, ResourceCreated, OneEach, Names;
    assert |Names(s)| == |s.resources| by { NamesLength(s); }
    match step
    case CreateResource(name) => ResourceNames(s, name);
    case On(r, change) =>
      if r < |s.resources| {
        ChangeNames(s, r, change);
      }
  }

  /** A condition on the steps alone under which no members ever share a file. */
  lemma {:induction false} DistinctNamesThroughout(s: State, steps: seq<Step>)
    requires Linked(s) && OneEach(s) && DistinctNames(Names(s), steps) && forall i :: 0 <= i < |steps| ==> Orderly(steps[i])
    ensures PrivateThroughout(s, steps)
    decreases |steps|
  {
    hide Next, OneEach, Names, Private;
    DistinctNamesPrivate(s);
    if steps != [] {
      assert Orderly(steps[0]) && forall i :: 0 <= i < |steps[1..]| ==> Orderly(steps[1..][i]);
      NextNames(s, steps[0]);
      DistinctNamesThroughout(Next(s, steps[0], false).state, steps[1..]);
    }
  }

  /** Over every sequence of setters, members that come and go, volumes for whole
      resources, new resources and commands in which no resource is given the name of
      another one: every command with update_config finds the file that config() gives
      at that moment. */
  lemma OrderlyRun(s: State, steps: seq<Step>)
    requires Linked(s) && OneEach(s) && CoherentBut(s, {})
    requires DistinctNames(Names(s), steps) && forall i :: 0 <= i < |steps| ==> Orderly(steps[i])
    ensures SeesCurrent(s, steps, {})
    ensures Replay(s, steps, false).ok ==> CoherentBut(Replay(s, steps, false).state, {})
  {
    hide Replay, OneEach, DistinctNames, SeesCurrent, PrivateThroughout, CoherentBut;
    DistinctNamesThroughout(s, steps);
    RunKeeps(s, steps, {});
    OrderlyRunsStay(s, steps, {});
    assert StaleAfter(s, steps, {}) == {};
  }

  // ---- names that are not ----

  /** Hosts have different host names. */
  ghost predicate HostnamesDistinct(s: State) {
    forall g, h :: 0 <= g < |s.hosts| && 0 <= h < |s.hosts| && s.hosts[g].hostname == s.hosts[h].hostname ==> g == h
  }

  ghost predicate HasVolume(s: State, r: nat, i: nat)
    requires Linked(s) && r < |s.resources|
  {
    i < |s.resources[r].members| && s.nodes[Member(s, r, i)].volumes != []
  }

  ghost predicate HasVolumes(s: State, r: nat)
    requires Linked(s) && r < |s.resources|
  {
    exists i: nat :: HasVolume(s, r, i)
  }

  lemma InfoAt(s: State, r: nat, i: nat)
    requires Linked(s) && r < |s.resources| && i < |s.resources[r].members|
    ensures |Info(s, r).nodes| == |s.resources[r].members|
    ensures var n := Member(s, r, i); Info(s, r).nodes[i] == InfoOf(s.hosts[s.nodes[n].host], s.nodes[n])
  {
    hide InfoOf;
  }

  /** Two resources, one of which has a volume, never write the same configuration. */
  lemma ResourcesDiffer(s: State, m: nat, n: nat)
    requires Linked(s) && MinorsOk(s) && HostnamesDistinct(s) && m < |s.nodes| && n < |s.nodes|
    requires s.nodes[m].resource != s.nodes[n].resource
    requires HasVolumes(s, s.nodes[m].resource)
    requires CleanState(Me(s, m), Info(s, s.nodes[m].resource)) && CleanState(Me(s, n), Info(s, s.nodes[n].resource))
    ensures Current(s, m) != Current(s, n)
  {
    hide Config, CleanState, VolumeLines, Info, Me;
    var q, r := s.nodes[m].resource, s.nodes[n].resource;
    if Current(s, m) == Current(s, n) {
      var i: nat :| HasVolume(s, q, i);
      InfoAt(s, q, i);
      NodeCountDetermined(Me(s, m), Info(s, q), Me(s, n), Info(s, r));
      InfoLength(s, r);
      InfoAt(s, r, i);
      var a, b := Member(s, q, i), Member(s, r, i);
      HostnameDetermined(Me(s, m), Info(s, q), Me(s, n), Info(s, r), i);
      VolumeCountsDetermined(Me(s, m), Info(s, q), Me(s, n), Info(s, r), i);
      VolumeDetermined(Me(s, m), Info(s, q), Me(s, n), Info(s, r), i, 0);
      MinorDetermined(s.nodes[a].volumes[0].info, s.nodes[b].volumes[0].info);
    }
  }

  lemma InfoLength(s: State, r: nat)
    requires Linked(s) && r < |s.resources|
    ensures |Info(s, r).nodes| == |s.resources[r].members|
  {
  }

  lemma TouchIs(s: State, r: nat)
    requires Linked(s) && r < |s.resources|
    ensures var o := Next(s, On(r, Touch), false);
            o.ok && SameSettings(s, o.state) && AllMarked(o.state, s.resources[r].members)
            && forall m :: 0 <= m < |s.nodes| && s.nodes[m].marked ==> o.state.nodes[m].marked
  {
    assert MembersLinked(s, r);
    MembersIn(s, r);
    assert s.resources[r := s.resources[r]] == s.resources;
    assert WithResource(s, r, Assigned(s.resources[r], Touch)) == s;
  }

  lemma SettingsFile(s: State, t: State, m: nat, n: nat)
    requires Linked(s) && Linked(t) && SameSettings(s, t) && m < |s.nodes| && n < |s.nodes|
    ensures SameFile(s, m, n) <==> SameFile(t, m, n)
    ensures IsMember(s, m) <==> IsMember(t, m)
    ensures t.nodes[m].resource == s.nodes[m].resource
  {
    assert t.nodes[m].(marked := false) == s.nodes[m].(marked := false);
    assert t.nodes[n].(marked := false) == s.nodes[n].(marked := false);
    assert t.nodes[m].host == s.nodes[m].host && t.nodes[n].host == s.nodes[n].host;
    assert t.nodes[m].resource == s.nodes[m].resource && t.nodes[n].resource == s.nodes[n].resource;
  }

  /** A marked node runs a command. */
  lemma MarkedRuns(s: State, n: nat)
    requires Linked(s) && n < |s.nodes| && s.nodes[n].marked && CanWrite(s, n)
    ensures var o := Ran(s, n, true, false);
            o.ok && SameSettings(s, o.state) && Current(s, n).Some? && o.seen == Current(s, n) && !o.state.nodes[n].marked
            && (forall m :: 0 <= m < |s.nodes| && m != n ==> o.state.nodes[m] == s.nodes[m])
            && (forall m :: 0 <= m < |s.nodes| && SameFile(s, m, n) ==> Found(o.state, m) == Current(s, n))
  {
    hide Current, Found, Updated, CanWrite;
    UpdatedIs(s, n);
    CurrentAfterUpdate(s, n);
    UpdateIsOnlyCache(true, s, n, false);
    assert Fresh(s, n);
  }

  /** Of two nodes that share a file, the first does not notice when the second has
      written it. */
  lemma Overwrites(s: State, m: nat, n: nat)
    requires Linked(s) && m < |s.nodes| && n < |s.nodes| && m != n && SameFile(s, m, n)
    requires s.nodes[m].marked && s.nodes[n].marked && CanWrite(s, m) && CanWrite(s, n)
    ensures var a := Ran(s, m, true, false); var b := Ran(a.state, n, true, false); var c := Ran(b.state, m, true, false);
            a.ok && b.ok && c.ok && SameSettings(s, a.state) && SameSettings(s, b.state)
            && a.seen == Current(s, m) && b.seen == Current(s, n) && c.seen == Current(s, n)
  {
    hide Current, Found, CanWrite, Ran, SameSettings, SameFile;
    MarkedRuns(s, m);
    var a := Ran(s, m, true, false).state;
    SettingsSay(s, a, n);
    SettingsFile(s, a, m, n);
    assert SameFile(a, m, n);
    MarkedRuns(a, n);
    var b := Ran(a, n, true, false).state;
    SameIsTransitive(s, a, b);
    UnmarkedRuns(b, m);
  }

  lemma UnmarkedRuns(s: State, m: nat)
    requires Linked(s) && m < |s.nodes| && !s.nodes[m].marked
    ensures Ran(s, m, true, false) == Outcome(s, true, Found(s, m))
  {
  }

  predicate TouchOrRun(step: Step) {
    step.On? && (step.change.Touch? || step.change.Command?)
  }

  lemma SeenLater(s: State, step: Step, rest: seq<Step>)
    requires Linked(s) && TouchOrRun(step) && Next(s, step, false).ok
    ensures SeesCurrent(s, [step] + rest, {}) ==>
              CommandSees(s, step, {}) && SeesCurrent(Next(s, step, false).state, rest, {})
  {
    hide Next, CommandSees;
    assert ([step] + rest)[1..] == rest;
    assert NextStale(s, step, {}) == {};
  }

  lemma CommandIs(s: State, r: nat, k: nat)
    requires Linked(s) && r < |s.resources| && k < |s.resources[r].members|
    ensures Next(s, On(r, Command(k, true)), false) == Ran(s, Member(s, r, k), true, false)
  {
  }

  /** Two members that share a file and have different configurations: marking both and
      running a command on the first, the second and again the first shows the
      configuration of the second to the first. */
  lemma SharedFileRun(s: State, m: nat, n: nat) returns (steps: seq<Step>)
    requires Linked(s) && IsMember(s, m) && IsMember(s, n) && m != n && SameFile(s, m, n)
    requires CanWrite(s, m) && CanWrite(s, n) && Current(s, m) != Current(s, n)
    ensures forall i :: 0 <= i < |steps| ==> TouchOrRun(steps[i])
    ensures !SeesCurrent(s, steps, {})
  {
    hide Current, Found, CanWrite, Ran, SameSettings, SameFile, CommandSees, Next, SeesCurrent;
    var q, r := s.nodes[m].resource, s.nodes[n].resource;
    var j: nat :| j < |s.resources[q].members| && s.resources[q].members[j] == m;
    var k: nat :| k < |s.resources[r].members| && s.resources[r].members[k] == n;
    TouchIs(s, q);
    var t := Next(s, On(q, Touch), false).state;
    assert t.resources == s.resources by { SettingsResources(s, t); }
    TouchIs(t, r);
    var u := Next(t, On(r, Touch), false).state;
    SameIsTransitive(s, t, u);
    assert u.resources == s.resources by { SettingsResources(s, u); }
    SettingsSay(s, u, m);
    SettingsSay(s, u, n);
    SettingsFile(s, u, m, n);
    assert SameFile(u, m, n) && u.nodes[m].marked && u.nodes[n].marked;
    Overwrites(u, m, n);
    var a := Ran(u, m, true, false);
    SecondLook(u, a, Ran(a.state, n, true, false), q, j, r, k);
    var run := [On(q, Command(j, true)), On(r, Command(k, true)), On(q, Command(j, true))];
    SeenLater(t, On(r, Touch), run);
    SeenLater(s, On(q, Touch), [On(r, Touch)] + run);
    steps := [On(q, Touch)] + ([On(r, Touch)] + run);
  }

  lemma SettingsResources(s: State, t: State)
    requires SameSettings(s, t)
    ensures t.resources == s.resources && |t.nodes| == |s.nodes|
  {
  }

  /** What is wrong after a command is wrong in the run that starts with it. */
  lemma LookThrough(s: State, q: nat, j: nat, rest: seq<Step>)
    requires Linked(s) && q < |s.resources| && j < |s.resources[q].members|
    requires var o := Ran(s, Member(s, q, j), true, false); o.ok && !SeesCurrent(o.state, rest, {})
    ensures !SeesCurrent(s, [On(q, Command(j, true))] + rest, {})
  {
    hide Current, Found, Ran, Next, SeesCurrent;
    CommandIs(s, q, j);
    SeenLater(s, On(q, Command(j, true)), rest);
  }

  lemma SecondLook(u: State, a: Outcome, b: Outcome, q: nat, j: nat, r: nat, k: nat)
    requires Linked(u) && Linked(a.state) && Linked(b.state) && q < |u.resources| && r < |u.resources|
    requires j < |u.resources[q].members| && k < |u.resources[r].members|
    requires SameSettings(u, a.state) && SameSettings(u, b.state)
    requires a.ok && a == Ran(u, Member(u, q, j), true, false)
    requires b.ok && Member(u, r, k) < |a.state.nodes| && b == Ran(a.state, Member(u, r, k), true, false)
    requires Member(u, q, j) < |b.state.nodes|
             && var c := Ran(b.state, Member(u, q, j), true, false); c.ok && c.seen != Current(u, Member(u, q, j))
    ensures !SeesCurrent(u, [On(q, Command(j, true)), On(r, Command(k, true)), On(q, Command(j, true))], {})
  {
    hide Current, Found, Ran, SameSettings, SeesCurrent;
    var first, second := On(q, Command(j, true)), On(r, Command(k, true));
    SettingsResources(u, a.state);
    SettingsResources(u, b.state);
    SettingsSay(u, b.state, Member(u, q, j));
    LastLook(b.state, q, j);
    LookThrough(a.state, r, k, [first]);
    LookThrough(u, q, j, [second] + [first]);
    assert [first] + ([second] + [first]) == [first, second, first];
  }

  lemma LastLook(b: State, q: nat, j: nat)
    requires Linked(b) && q < |b.resources| && j < |b.resources[q].members|
    requires var o := Ran(b, Member(b, q, j), true, false); o.ok && o.seen != Current(b, Member(b, q, j))
    ensures !SeesCurrent(b, [On(q, Command(j, true))], {})
  {
    hide Current, Found, Ran, Next, SeesCurrent;
    CommandIs(b, q, j);
    SeenLater(b, On(q, Command(j, true)), []);
    assert [On(q, Command(j, true))] + [] == [On(q, Command(j, true))];
  }

  // ---- exactly when sharing does harm ----

  /** Names and options of all members are clean, host names are distinct, and at most one
      resource has no volumes. */
  ghost predicate Ordinary(s: State)
    requires Linked(s)
  {
    (forall n :: 0 <= n < |s.nodes| && IsMember(s, n) ==> CleanState(Me(s, n), Info(s, s.nodes[n].resource)))
    && HostnamesDistinct(s)
    && (forall q, r :: 0 <= q < |s.resources| && 0 <= r < |s.resources| && q != r ==> HasVolumes(s, q) || HasVolumes(s, r))
  }

  lemma CleanWrites(s: State, n: nat)
    requires Linked(s) && n < |s.nodes| && CleanState(Me(s, n), Info(s, s.nodes[n].resource))
    ensures CanWrite(s, n)
  {
    hide Config, WritableState, CleanState;
    ConfigRoundTrip(Me(s, n), Info(s, s.nodes[n].resource));
    ConfigRaisesIff(Me(s, n), Info(s, s.nodes[n].resource));
  }

  /** Members that share a file have one configuration only if they are of one resource and
      have one fencing mode. */
  lemma SharersDiffer(s: State, m: nat, n: nat)
    requires Linked(s) && MinorsOk(s) && Ordinary(s) && IsMember(s, m) && IsMember(s, n)
    requires s.nodes[m].resource != s.nodes[n].resource || s.nodes[m].fencing != s.nodes[n].fencing
    ensures Current(s, m) != Current(s, n)
  {
    hide Config, CleanState, Info, MinorsOk, HasVolumes, HostnamesDistinct;
    var q, r := s.nodes[m].resource, s.nodes[n].resource;
    if q != r {
      if HasVolumes(s, q) {
        ResourcesDiffer(s, m, n);
      } else {
        ResourcesDiffer(s, n, m);
      }
    } else if Current(s, m) == Current(s, n) {
      FencingDetermined(Me(s, m), Me(s, n), Info(s, q));
    }
  }

  lemma TouchOrRunSettings(s: State, step: Step)
    requires Linked(s) && TouchOrRun(step)
    ensures SameSettings(s, Next(s, step, false).state)
  {
    hide SameSettings, Set, Updated;
    SameIsSame(s);
    if step.r < |s.resources| {
      if step.change.Touch? {
        TouchIs(s, step.r);
      } else if step.change.k < |s.resources[step.r].members| {
        UpdateIsOnlyCache(step.change.update, s, Member(s, step.r, step.change.k), false);
      }
    }
  }

  lemma {:induction false} PlainRunsPrivate(s: State, steps: seq<Step>)
    requires Linked(s) && Private(s) && forall i :: 0 <= i < |steps| ==> TouchOrRun(steps[i])
    ensures PrivateThroughout(s, steps)
    decreases |steps|
  {
    hide Next, Private, SameSettings, SamePeers;
    if steps != [] {
      assert TouchOrRun(steps[0]) && forall i :: 0 <= i < |steps[1..]| ==> TouchOrRun(steps[1..][i]);
      var t := Next(s, steps[0], false).state;
      TouchOrRunSettings(s, steps[0]);
      SettingsPeers(s, t);
      StaysPrivate(s, t);
      PlainRunsPrivate(t, steps[1..]);
    }
  }

  /** All commands of all runs see the current file exactly when no two members on one host
      are of different resources of one name, or of one resource with different fencing
      modes. */
  lemma SharedFilesIff(s: State)
    requires Linked(s) && CoherentBut(s, {}) && MinorsOk(s) && Ordinary(s)
    ensures Private(s) <==>
            forall steps: seq<Step> :: (forall i :: 0 <= i < |steps| ==> TouchOrRun(steps[i])) ==> SeesCurrent(s, steps, {})
  {
    hide CoherentBut, SeesCurrent, PrivateThroughout, MinorsOk, Current, TouchOrRun, CanWrite;
    if Private(s) {
      forall steps: seq<Step> | forall i :: 0 <= i < |steps| ==> TouchOrRun(steps[i])
        ensures SeesCurrent(s, steps, {})
      {
        PlainRunsPrivate(s, steps);
        RunKeeps(s, steps, {});
      }
    } else {
      var m, n :| 0 <= m < |s.nodes| && 0 <= n < |s.nodes| && IsMember(s, m) && IsMember(s, n) && SameFile(s, m, n)
                  && !(s.nodes[m].resource == s.nodes[n].resource && s.nodes[m].fencing == s.nodes[n].fencing);
      SharersDiffer(s, m, n);
      CleanWrites(s, m);
      CleanWrites(s, n);
      var steps := SharedFileRun(s, m, n);
    }
  }
}
