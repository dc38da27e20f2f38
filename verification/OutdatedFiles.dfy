/** Runs of a test in which a command finds a file that is not current. */
module OutdatedFiles {
  import opened Wrappers
  import opened ConfigText
  import opened NodeConfig
  import opened ConfigErrors
  import opened ClusterState
  import opened ClusterAllocation
  import opened ConfigCache
  import opened SharedFiles
  import opened CacheFailures

  // ---- runs ----

  function NewHost(name: string, addr: string): HostState {
    HostState(name, name, [addr], "debian", "12", 0, 7789, map[])
  }

  /** Two hosts and no resources. */
  function Start(): State {
    State("tcp", "no", [NewHost("alpha", "10.0.0.1"), NewHost("beta", "10.0.0.2")], [], [])
  }

  lemma StartLinked()
    ensures Linked(Start()) && CoherentBut(Start(), {}) && OneEach(Start()) && Allocated(Start()) && InOrder(Start())
  {
  }


  /** After create_resource: a marked node on each host. */
  lemma FirstResource(name: string)
    ensures Linked(Start())
    ensures var s, t := Start(), ResourceCreated(Start(), name);
            t.resources == [ResourceState(name, "tcp", "no", "", "", "", "", [0, 1], 0)]
            && t.nodes == [NodeState(0, 0, 0, 7789, "", [], true), NodeState(1, 0, 1, 7789, "", [], true)]
            && t.hosts == [NewHost("alpha", "10.0.0.1").(port := 7790), NewHost("beta", "10.0.0.2").(port := 7790)]
  {
    hide ResourceCreated;
    StartLinked();
    var s := Start();
    ResourceCreatedIs(s, name);
    assert |s.hosts| == 2 && s.hosts[0].port == 7789 && s.hosts[1].port == 7789;
    assert Positions(0, 2) == [0, 1];
    assert NodesMade(s, 0, 0, 0) == [NodeState(0, 0, 0, 7789, "", [], true), NodeState(1, 0, 1, 7789, "", [], true)];
    assert PortsTaken(s.hosts, 0) == [s.hosts[0].(port := 7790), s.hosts[1].(port := 7790)];
  }

  /** One resource of clean names with two marked members on two hosts, of which the first
      has a volume. */
  ghost predicate Ready(s: State) {
    Linked(s) && |s.nodes| == 2 && |s.hosts| == 2 && |s.resources| == 1 && s.resources[0].members == [0, 1]
    && s.nodes[0].host == 0 && s.nodes[1].host == 1 && s.nodes[0].resource == s.nodes[1].resource == 0
    && |s.nodes[0].volumes| == 1
    && CleanState(Me(s, 0), Info(s, 0)) && CleanState(Me(s, 1), Info(s, 0))
  }

  lemma FirstVolume(name: string)
    requires CleanText(name)
    ensures Linked(Start())
    ensures var s := ResourceCreated(Start(), name);
            |s.nodes| == 2 && DiskAdded(s, 0, 0, None, false).ok && Ready(DiskAdded(s, 0, 0, None, false).state)
            && DiskAdded(s, 0, 0, None, false).state.nodes[0].marked && DiskAdded(s, 0, 0, None, false).state.nodes[1].marked
  {
    hide ResourceCreated, DiskAdded, Ready, CanWrite;
    FirstResource(name);
    var s := ResourceCreated(Start(), name);
    var t := DiskAdded(s, 0, 0, None, false).state;
    AdditionRaises(s, 0, 0, None);
    VolumeLiteral(s);
    LiteralReady(t, name);
  }

  lemma VolumeLiteral(s: State)
    requires Linked(s) && |s.nodes| == 2 && |s.hosts| == 2 && s.nodes[0].host == 0 && s.nodes[0].volumes == []
    ensures var t := DiskAdded(s, 0, 0, None, false).state;
            |t.nodes| == 2 && |t.hosts| == 2 && t.resources == s.resources
            && t.nodes[0] == s.nodes[0].(volumes := [NewVolume(0, s.hosts[0].minors + 1, None)], marked := true)
            && t.nodes[1] == s.nodes[1]
            && t.hosts[0] == s.hosts[0].(minors := s.hosts[0].minors + 1) && t.hosts[1] == s.hosts[1]
  {
    hide Updated;
    assert [] + [NewVolume(0, s.hosts[0].minors + 1, None)] == [NewVolume(0, s.hosts[0].minors + 1, None)];
  }

  lemma LiteralReady(t: State, name: string)
    requires Linked(t) && |t.nodes| == 2 && |t.hosts| == 2 && CleanText(name)
    requires t.resources == [ResourceState(name, "tcp", "no", "", "", "", "", [0, 1], 0)]
    requires t.nodes[0] == NodeState(0, 0, 0, 7789, "", [NewVolume(0, 1, None)], true)
    requires t.nodes[1] == NodeState(1, 0, 1, 7789, "", [], true)
    requires t.hosts[0] == NewHost("alpha", "10.0.0.1").(minors := 1, port := 7790)
    requires t.hosts[1] == NewHost("beta", "10.0.0.2").(port := 7790)
    ensures Ready(t)
  {
    hide CleanNode;
    InfoAt(t, 0, 0);
    InfoAt(t, 0, 1);
    assert Member(t, 0, 0) == 0 && Member(t, 0, 1) == 1;
    CleanHost(t.hosts[0], t.nodes[0], "alpha", "10.0.0.1");
    CleanHost(t.hosts[1], t.nodes[1], "beta", "10.0.0.2");
    assert forall i :: 0 <= i < |Info(t, 0).nodes| ==> CleanNode(Info(t, 0).nodes[i]);
  }

  lemma CleanNames()
    ensures CleanWord("alpha") && CleanWord("beta") && CleanWord("10.0.0.1") && CleanWord("10.0.0.2")
  {
  }

  lemma CleanHost(h: HostState, n: NodeState, name: string, addr: string)
    requires h.name == h.hostname == name && h.addrs == [addr] && CleanWord(name) && CleanWord(addr)
    requires forall k :: 0 <= k < |n.volumes| ==> n.volumes[k].info.disk == n.volumes[k].info.meta == None
    ensures CleanNode(InfoOf(h, n))
  {
  }

  lemma ReadyPrivate(s: State)
    requires Ready(s)
    ensures Private(s) && IsMember(s, 0) && IsMember(s, 1) && Member(s, 0, 0) == 0 && Member(s, 0, 1) == 1
  {
    hide CleanState, Info, Me;
  }

  lemma StaysReady(s: State, t: State)
    requires Ready(s) && Linked(t) && SameSettings(s, t)
    ensures Ready(t)
  {
    hide CleanState, Info;
    SameSettingsInfo(s, t, 0);
    SettingsMe(s, t, 0);
    SettingsMe(s, t, 1);
    assert t.nodes[0].(marked := false) == s.nodes[0].(marked := false) && t.nodes[1].(marked := false) == s.nodes[1].(marked := false);
    assert t.nodes[0].volumes == s.nodes[0].volumes && t.nodes[0].host == s.nodes[0].host && t.nodes[1].host == s.nodes[1].host;
    assert t.nodes[0].resource == s.nodes[0].resource && t.nodes[1].resource == s.nodes[1].resource;
  }

  /** A command on each member: both files are written. */
  lemma BothRun(s: State)
    requires Ready(s) && s.nodes[0].marked && s.nodes[1].marked && CoherentBut(s, {})
    ensures var a := Ran(s, 0, true, false);
            a.ok && |a.state.nodes| == 2 && var b := Ran(a.state, 1, true, false);
            b.ok && Ready(a.state) && Ready(b.state) && CoherentBut(b.state, {})
            && !b.state.nodes[0].marked && !b.state.nodes[1].marked
  {
    hide Ran, Ready, CoherentBut, Private, SameSettings, CanWrite, Current, Found;
    ReadyIs(s);
    CleanWrites(s, 0);
    MarkedRuns(s, 0);
    RunKeepsCoherent(s, 0);
    var a := Ran(s, 0, true, false).state;
    StaysReady(s, a);
    ReadyIs(a);
    CleanWrites(a, 1);
    MarkedRuns(a, 1);
    RunKeepsCoherent(a, 1);
    StaysReady(a, Ran(a, 1, true, false).state);
    ReadyIs(Ran(a, 1, true, false).state);
  }

  lemma ReadyIs(s: State)
    requires Ready(s)
    ensures Linked(s) && |s.nodes| == 2 && Private(s) && IsMember(s, 0) && IsMember(s, 1)
    ensures forall n :: 0 <= n < 2 ==> s.nodes[n].resource == 0 && CleanState(Me(s, n), Info(s, 0))
  {
    hide CleanState, Info, Me;
    ReadyPrivate(s);
  }

  lemma RunKeepsCoherent(s: State, n: nat)
    requires Linked(s) && Private(s) && CoherentBut(s, {}) && IsMember(s, n) && Ran(s, n, true, false).ok
    ensures CoherentBut(Ran(s, n, true, false).state, {})
  {
    hide CoherentBut, Private, Found, Updated;
    UpdateKeeps(true, s, n, {});
  }

  predicate Unannounced(change: Change) {
    change == Change.CreateNode(0) || change == AddDiskOn(0, 1, None) || change == RemoveDisksOn(0)
  }

  /** Then a new node, or a volume more or no volumes on one node, and a command on the
      other: it finds the configuration of before the change, and not the current one. */
  lemma OldFile(s: State, change: Change)
    requires Ready(s) && CoherentBut(s, {}) && !s.nodes[0].marked && !s.nodes[1].marked && Unannounced(change)
    ensures var t := Changed(s, 0, change, false);
            t.ok && |t.state.nodes| >= 2
            && |t.state.resources| == 1 && |t.state.resources[0].members| >= 2 && t.state.resources[0].members[..2] == [0, 1]
            && Ran(t.state, 1, true, false) == Outcome(t.state, true, Current(s, 1)) && Current(t.state, 1) != Current(s, 1)
  {
    hide Current, Found, CleanState, Info, Me, Private, DiskAdded, SameSettings;
    ReadyPrivate(s);
    var t := Changed(s, 0, change, false).state;
    assert Fresh(s, 1) && Unmarked(s, 1);
    if change.CreateNode? {
      NewShows(s, 0, 0, 1);
    } else if change.AddDiskOn? {
      AdditionRaises(s, 0, 1, None);
      DiskAddedIs(s, 0, 1, None, false);
      AdditionShows(s, 0, 1, None, 1);
    } else {
      RemovalShows(s, 0, 1);
    }
    FilesKept(s, change);
    UnmarkedRuns(t, 1);
  }

  lemma FilesKept(s: State, change: Change)
    requires Ready(s) && Unannounced(change)
    ensures var t := Changed(s, 0, change, false).state;
            |t.nodes| >= 2 && Found(t, 1) == Found(s, 1) && t.nodes[1] == s.nodes[1]
            && |t.resources| == 1 && |t.resources[0].members| >= 2 && t.resources[0].members[..2] == [0, 1]
  {
    hide CleanState, Info, Me, Updated;
    assert Member(s, 0, 0) == 0;
  }

  lemma Onward(s: State, step: Step, rest: seq<Step>)
    requires Linked(s) && Next(s, step, false).ok
    ensures var o := Next(s, step, false); var run := Replay(o.state, rest, false);
            Replay(s, [step] + rest, false) == Run(run.state, run.ok, [o.seen] + run.seen)
  {
    hide Next;
    assert ([step] + rest)[1..] == rest;
  }

  lemma Done(s: State, step: Step)
    requires Linked(s) && Next(s, step, false).ok
    ensures Replay(s, [step], false) == Run(Next(s, step, false).state, true, [Next(s, step, false).seen])
  {
    hide Next;
    Onward(s, step, []);
    assert [step] + [] == [step];
  }

  lemma StepIs(s: State, change: Change)
    requires Linked(s) && |s.resources| == 1
    ensures Next(s, On(0, change), false) == Changed(s, 0, change, false)
  {
    hide Changed;
  }

  lemma MemberStepIs(s: State, k: nat)
    requires Linked(s) && |s.resources| == 1 && k < 2 <= |s.resources[0].members| && s.resources[0].members[..2] == [0, 1]
    ensures k < |s.nodes|
    ensures Next(s, On(0, Command(k, true)), false) == Ran(s, k, true, false)
    ensures Next(s, On(0, AddDiskOn(k, 0, None)), false) == DiskAdded(s, k, 0, None, false)
  {
    hide DiskAdded, Ran;
    assert s.resources[0].members[k] == s.resources[0].members[..2][k] == k;
    assert Member(s, 0, k) == k;
  }

  lemma FirstCoherent(name: string)
    requires CleanText(name)
    ensures Linked(Start())
    ensures var s := ResourceCreated(Start(), name);
            |s.nodes| == 2 && |s.resources| == 1 && |s.resources[0].members| == 2 && s.resources[0].members[..2] == [0, 1]
            && CoherentBut(DiskAdded(s, 0, 0, None, false).state, {})
  {
    hide ResourceCreated, DiskAdded, CanWrite;
    FirstVolume(name);
    FirstResource(name);
    var t := DiskAdded(ResourceCreated(Start(), name), 0, 0, None, false).state;
    MarkedFresh(t, 0);
    MarkedFresh(t, 1);
  }

  lemma SecondSees(s: State)
    requires Ready(s) && CoherentBut(s, {}) && !s.nodes[1].marked
    ensures Found(s, 1) == Current(s, 1) && Current(s, 1).Some?
  {
    hide Current, Found, CleanState, Me, Info;
    ReadyPrivate(s);
    assert Fresh(s, 1);
  }

  lemma RanFound(s: State, n: nat)
    requires Linked(s) && n < |s.nodes| && Ran(s, n, true, false).ok
    ensures var o := Ran(s, n, true, false); o.seen == Found(o.state, n)
  {
    hide Updated, Found;
  }

  lemma ReadyMembers(s: State)
    requires Ready(s)
    ensures |s.resources| == 1 && |s.resources[0].members| == 2 && s.resources[0].members[..2] == [0, 1]
  {
    hide CleanState, Info, Me;
  }

  /** A resource, a volume on its first member, and a command on each. */
  lemma FourSteps(name: string) returns (s: State, t: State, a: State, b: State)
    requires CleanText(name)
    ensures Linked(Start()) && Linked(s) && Linked(t) && Linked(a) && Ready(b)
    ensures Next(Start(), CreateResource(name), false) == Outcome(s, true, None)
    ensures var o := Next(s, On(0, AddDiskOn(0, 0, None)), false); o.ok && o.state == t
    ensures var o := Next(t, On(0, Command(0, true)), false); o.ok && o.state == a
    ensures var o := Next(a, On(0, Command(1, true)), false); o == Outcome(b, true, Current(b, 1))
    ensures Current(b, 1).Some? && CoherentBut(b, {}) && !b.nodes[0].marked && !b.nodes[1].marked
  {
    hide ResourceCreated, DiskAdded, Changed, Ran, Current, CoherentBut, Next, Found;
    StartLinked();
    FirstVolume(name);
    FirstCoherent(name);
    s := ResourceCreated(Start(), name);
    t := DiskAdded(s, 0, 0, None, false).state;
    BothRun(t);
    a := Ran(t, 0, true, false).state;
    b := Ran(a, 1, true, false).state;
    RanFound(a, 1);
    SecondSees(b);
    ReadyMembers(t);
    ReadyMembers(a);
    MemberStepIs(s, 0);
    MemberStepIs(t, 0);
    MemberStepIs(a, 1);
    CreateIs(Start(), name);
  }

  lemma TwoSteps(b: State, change: Change) returns (c: State)
    requires Ready(b) && CoherentBut(b, {}) && !b.nodes[0].marked && !b.nodes[1].marked && Unannounced(change)
    ensures Linked(c) && |c.nodes| >= 2
    ensures var o := Next(b, On(0, change), false); o.ok && o.state == c
    ensures Next(c, On(0, Command(1, true)), false) == Outcome(c, true, Current(b, 1)) && Current(c, 1) != Current(b, 1)
  {
    hide Changed, Ran, Current, CoherentBut, Next, Found;
    OldFile(b, change);
    c := Changed(b, 0, change, false).state;
    ReadyMembers(b);
    StepIs(b, change);
    MemberStepIs(c, 1);
  }

  /** A run in which a new node, a volume more on one node, or no volumes any more on it,
      goes unannounced: the last command finds what the one before the change found, and
      not the current configuration. */
  lemma OutdatedRun(name: string, change: Change)
    requires CleanText(name) && Unannounced(change)
    ensures Linked(Start())
    ensures var run := Replay(Start(), [CreateResource(name), On(0, AddDiskOn(0, 0, None)), On(0, Command(0, true)),
                                        On(0, Command(1, true)), On(0, change), On(0, Command(1, true))], false);
            run.ok && |run.seen| == 6 && run.seen[5] == run.seen[3] && run.seen[3].Some?
            && |run.state.nodes| >= 2 && Current(run.state, 1) != run.seen[5]
  {
    hide *;
    var s, t, a, b := FourSteps(name);
    var c := TwoSteps(b, change);
    ReadyIs(b);
    SixSteps(Start(), [CreateResource(name), On(0, AddDiskOn(0, 0, None)), On(0, Command(0, true)),
                       On(0, Command(1, true)), On(0, change), On(0, Command(1, true))], [Start(), s, t, a, b, c]);
  }

  lemma CreateIs(s: State, name: string)
    requires Linked(s)
    ensures Next(s, CreateResource(name), false) == Outcome(ResourceCreated(s, name), true, None)
  {
    hide ResourceCreated;
  }

  /** A run of six steps that do not raise, state by state. */
  lemma SixSteps(s: State, steps: seq<Step>, at: seq<State>)
    requires |steps| == |at| == 6 && at[0] == s && forall i :: 0 <= i < 6 ==> Linked(at[i])
    requires forall i :: 0 <= i < 6 ==> Next(at[i], steps[i], false).ok
    requires forall i :: 0 <= i < 5 ==> Next(at[i], steps[i], false).state == at[i + 1]
    ensures var run := Replay(s, steps, false);
            run.ok && |run.seen| == 6 && run.state == Next(at[5], steps[5], false).state
            && forall i :: 0 <= i < 6 ==> run.seen[i] == Next(at[i], steps[i], false).seen
  {
    hide Next;
    ManySteps(s, steps, at);
  }

  lemma {:induction false} ManySteps(s: State, steps: seq<Step>, at: seq<State>)
    requires |steps| == |at| > 0 && at[0] == s && forall i :: 0 <= i < |at| ==> Linked(at[i])
    requires forall i :: 0 <= i < |at| ==> Next(at[i], steps[i], false).ok
    requires forall i :: 0 <= i < |at| - 1 ==> Next(at[i], steps[i], false).state == at[i + 1]
    ensures var run, last := Replay(s, steps, false), |at| - 1;
            run.ok && |run.seen| == |at| && run.state == Next(at[last], steps[last], false).state
            && forall i :: 0 <= i < |at| ==> run.seen[i] == Next(at[i], steps[i], false).seen
    decreases |steps|
  {
    hide Next;
    if |at| == 1 {
      assert steps == [steps[0]];
      Done(s, steps[0]);
    } else {
      var rest, later := steps[1..], at[1..];
      assert steps == [steps[0]] + rest;
      Onward(s, steps[0], rest);
      assert forall i :: 0 <= i < |later| ==> later[i] == at[i + 1] && rest[i] == steps[i + 1];
      ManySteps(at[1], rest, later);
    }
  }

  // ---- two resources of one name ----

  /** After create_resource has been called twice. */
  lemma SecondResource(name: string)
    ensures Linked(Start())
    ensures var t := ResourceCreated(ResourceCreated(Start(), name), name);
            t.resources == [ResourceState(name, "tcp", "no", "", "", "", "", [0, 1], 0),
                            ResourceState(name, "tcp", "no", "", "", "", "", [2, 3], 0)]
            && t.nodes == [NodeState(0, 0, 0, 7789, "", [], true), NodeState(1, 0, 1, 7789, "", [], true),
                           NodeState(0, 1, 0, 7790, "", [], true), NodeState(1, 1, 1, 7790, "", [], true)]
            && t.hosts == [NewHost("alpha", "10.0.0.1").(port := 7791), NewHost("beta", "10.0.0.2").(port := 7791)]
  {
    hide ResourceCreated;
    FirstResource(name);
    ResourceCreatedIs(Start(), name);
    var s := ResourceCreated(Start(), name);
    ResourceCreatedIs(s, name);
    assert Positions(2, 2) == [2, 3];
    assert NodesMade(s, 1, 0, 0) == [NodeState(0, 1, 0, 7790, "", [], true), NodeState(1, 1, 1, 7790, "", [], true)];
    assert PortsTaken(s.hosts, 0) == [s.hosts[0].(port := 7791), s.hosts[1].(port := 7791)];
  }

  /** Two resources of one clean name, with marked members on the first host, of which the
      second has a volume. */
  ghost predicate Namesakes(t: State) {
    Linked(t) && |t.nodes| == 4 && |t.hosts| == 2 && |t.resources| == 2
    && t.resources[0].members == [0, 1] && t.resources[1].members == [2, 3]
    && t.resources[0].name == t.resources[1].name && t.nodes[0].host == t.nodes[2].host == 0
    && t.nodes[0].resource == 0 && t.nodes[2].resource == 1 && t.nodes[0].marked && t.nodes[2].marked
    && |t.nodes[0].volumes| == 0 && |t.nodes[2].volumes| == 1
    && CleanState(Me(t, 0), Info(t, 0)) && CleanState(Me(t, 2), Info(t, 1))
  }

  lemma AdditionIs(s: State, n: nat)
    requires Linked(s) && n < |s.nodes| && s.nodes[n].volumes == []
    ensures var o, h := DiskAdded(s, n, 0, None, false), s.nodes[n].host;
            o.ok && o.state.resources == s.resources
            && o.state.nodes == s.nodes[n := s.nodes[n].(volumes := [NewVolume(0, s.hosts[h].minors + 1, None)], marked := true)]
            && o.state.hosts == s.hosts[h := s.hosts[h].(minors := s.hosts[h].minors + 1)]
  {
    hide Updated;
    assert [] + [NewVolume(0, s.hosts[s.nodes[n].host].minors + 1, None)] == [NewVolume(0, s.hosts[s.nodes[n].host].minors + 1, None)];
  }

  lemma LiteralNamesakes(t: State, name: string)
    requires Linked(t) && |t.nodes| == 4 && |t.hosts| == 2 && CleanText(name)
    requires t.resources == [ResourceState(name, "tcp", "no", "", "", "", "", [0, 1], 0),
                             ResourceState(name, "tcp", "no", "", "", "", "", [2, 3], 0)]
    requires t.nodes[0] == NodeState(0, 0, 0, 7789, "", [], true) && t.nodes[1] == NodeState(1, 0, 1, 7789, "", [], true)
    requires t.nodes[2] == NodeState(0, 1, 0, 7790, "", [NewVolume(0, 1, None)], true)
    requires t.nodes[3] == NodeState(1, 1, 1, 7790, "", [], true)
    requires t.hosts[0] == NewHost("alpha", "10.0.0.1").(minors := 1, port := 7791)
    requires t.hosts[1] == NewHost("beta", "10.0.0.2").(port := 7791)
    ensures Namesakes(t)
  {
    hide CleanState, Info, Me, CleanNode, CleanText, CleanPath;
    assert Member(t, 0, 0) == 0 && Member(t, 0, 1) == 1 && Member(t, 1, 0) == 2 && Member(t, 1, 1) == 3;
    CleanNames();
    CleanHost(t.hosts[0], t.nodes[0], "alpha", "10.0.0.1");
    CleanHost(t.hosts[1], t.nodes[1], "beta", "10.0.0.2");
    CleanHost(t.hosts[0], t.nodes[2], "alpha", "10.0.0.1");
    CleanHost(t.hosts[1], t.nodes[3], "beta", "10.0.0.2");
    CleanPairs(t);
  }

  lemma CleanPairs(t: State)
    requires Linked(t) && |t.nodes| == 4 && |t.resources| == 2
    requires forall r :: 0 <= r < 2 ==>
               var rs := t.resources[r];
               CleanText(rs.name) && rs.handlers == rs.options == rs.disk == rs.net == "" && rs.transport == "tcp" && |rs.members| == 2
    requires Member(t, 0, 0) == 0 && Member(t, 0, 1) == 1 && Member(t, 1, 0) == 2 && Member(t, 1, 1) == 3
    requires forall n :: 0 <= n < 4 ==> t.nodes[n].fencing == "" && CleanNode(InfoOf(t.hosts[t.nodes[n].host], t.nodes[n]))
    ensures CleanState(Me(t, 0), Info(t, 0)) && CleanState(Me(t, 2), Info(t, 1))
  {
    hide CleanState, Info, Me, CleanNode, InfoOf, CleanText;
    CleanPair(t, 0, 0);
    CleanPair(t, 1, 2);
  }

  lemma CleanPair(t: State, r: nat, n: nat)
    requires Linked(t) && r < |t.resources| && n < |t.nodes| && t.nodes[n].fencing == "" && |t.resources[r].members| == 2
    requires var rs := t.resources[r];
             CleanText(rs.name) && rs.handlers == rs.options == rs.disk == rs.net == "" && rs.transport == "tcp"
    requires forall k :: 0 <= k < 2 ==> CleanNode(InfoOf(t.hosts[t.nodes[Member(t, r, k)].host], t.nodes[Member(t, r, k)]))
    ensures CleanState(Me(t, n), Info(t, r))
  {
    hide CleanNode, InfoOf;
    InfoAt(t, r, 0);
    InfoAt(t, r, 1);
    assert forall i :: 0 <= i < |Info(t, r).nodes| ==> CleanNode(Info(t, r).nodes[i]);
  }

  lemma NamesakesRun(t: State)
    requires Namesakes(t)
    ensures var a := Ran(t, 0, true, false);
            a.ok && Linked(a.state) && |a.state.nodes| == 4 && a.state.resources == t.resources && a.seen == Current(t, 0)
    ensures var b := Ran(Ran(t, 0, true, false).state, 2, true, false);
            b.ok && Linked(b.state) && |b.state.nodes| == 4 && b.state.resources == t.resources && b.seen == Current(t, 2)
    ensures var b := Ran(Ran(t, 0, true, false).state, 2, true, false);
            Current(b.state, 0) == Current(t, 0) && Ran(b.state, 0, true, false) == Outcome(b.state, true, Current(t, 2))
    ensures Current(t, 0) != Current(t, 2)
  {
    hide Current, CleanState, Info, Me, CanWrite, Ran, SameSettings, Found;
    CleanWrites(t, 0);
    CleanWrites(t, 2);
    NamesakesDiffer(t);
    assert SameFile(t, 0, 2);
    Overwrites(t, 0, 2);
    var a := Ran(t, 0, true, false).state;
    SettingsResources(t, a);
    var b := Ran(a, 2, true, false).state;
    SettingsResources(t, b);
    SettingsSay(t, b, 0);
    MarkedRuns(t, 0);
    assert !a.nodes[0].marked;
    UpdatedLeaves(a, 2, 0);
    UnmarkedRuns(b, 0);
  }

  lemma UpdatedLeaves(s: State, n: nat, m: nat)
    requires Linked(s) && n < |s.nodes| && m < |s.nodes| && m != n
    ensures Ran(s, n, true, false).state.nodes[m] == s.nodes[m]
  {
    hide Current, Found;
  }

  lemma NamesakesDiffer(t: State)
    requires Namesakes(t)
    ensures Current(t, 0) != Current(t, 2)
  {
    hide Config, CleanState, Info, Me;
    if Current(t, 0) == Current(t, 2) {
      InfoAt(t, 0, 0);
      InfoAt(t, 1, 0);
      assert Member(t, 0, 0) == 0 && Member(t, 1, 0) == 2;
      VolumeCountsDetermined(Me(t, 0), Info(t, 0), Me(t, 2), Info(t, 1), 0);
    }
  }

  /** The start of the run below. */
  lemma NamesakesReached(name: string) returns (s: State, u: State, t: State)
    requires CleanText(name)
    ensures Linked(Start()) && Linked(s) && Linked(u) && Namesakes(t)
    ensures Next(Start(), CreateResource(name), false) == Outcome(s, true, None)
    ensures Next(s, CreateResource(name), false) == Outcome(u, true, None)
    ensures var o := Next(u, On(1, AddDiskOn(0, 0, None)), false); o.ok && o.state == t
  {
    hide ResourceCreated, DiskAdded, Namesakes;
    StartLinked();
    s := ResourceCreated(Start(), name);
    u := ResourceCreated(s, name);
    SecondResource(name);
    CreateIs(Start(), name);
    CreateIs(s, name);
    assert Member(u, 1, 0) == 2;
    AdditionIs(u, 2);
    t := DiskAdded(u, 2, 0, None, false).state;
    LiteralNamesakes(t, name);
  }

  lemma OtherStepIs(s: State, r: nat)
    requires Linked(s) && |s.resources| == 2 && r < 2 && s.resources[0].members == [0, 1] && s.resources[1].members == [2, 3]
    ensures 2 * r < |s.nodes| && Next(s, On(r, Command(0, true)), false) == Ran(s, 2 * r, true, false)
  {
    hide Ran;
    assert Member(s, r, 0) == 2 * r;
  }

  /** create_resource called twice without a name: the third command finds the file of the
      other resource, although nothing has changed since the first. */
  lemma SameNameRun(name: string)
    requires CleanText(name)
    ensures Linked(Start())
    ensures var run := Replay(Start(), [CreateResource(name), CreateResource(name), On(1, AddDiskOn(0, 0, None)),
                                        On(0, Command(0, true)), On(1, Command(0, true)), On(0, Command(0, true))], false);
            run.ok && |run.seen| == 6 && |run.state.nodes| == 4 && run.seen[3] == Current(run.state, 0)
            && run.seen[5] == run.seen[4] && run.seen[5] != Current(run.state, 0)
  {
    hide *;
    var s, u, t := NamesakesReached(name);
    NamesakesRun(t);
    NamesakesMembers(t);
    var a := Ran(t, 0, true, false).state;
    var b := Ran(a, 2, true, false).state;
    OtherStepIs(t, 0);
    OtherStepIs(a, 1);
    OtherStepIs(b, 0);
    SixSteps(Start(), [CreateResource(name), CreateResource(name), On(1, AddDiskOn(0, 0, None)),
                       On(0, Command(0, true)), On(1, Command(0, true)), On(0, Command(0, true))], [Start(), s, u, t, a, b]);
  }

  lemma NamesakesMembers(t: State)
    requires Namesakes(t)
    ensures Linked(t) && |t.nodes| == 4 && |t.resources| == 2 && t.resources[0].members == [0, 1] && t.resources[1].members == [2, 3]
  {
    hide CleanState, Info, Me;
  }

  // ---- an exception ----

  lemma OptionReached(name: string) returns (u: State, s: State)
    ensures Linked(Start()) && Linked(u) && Linked(s)
    ensures Next(Start(), CreateResource(name), false) == Outcome(u, true, None)
    ensures Next(u, On(0, SetNet("ping-timeout 50%;")), false) == Outcome(s, true, None)
    ensures |s.resources| == 1 && s.resources[0].net == "ping-timeout 50%;" && s.resources[0].members == [0, 1]
    ensures |s.nodes| == 2 && s.nodes[0].marked && s.nodes[0].resource == 0 && Found(s, 0) == None
  {
    hide ResourceCreated, Set, Found;
    StartLinked();
    FirstResource(name);
    u := ResourceCreated(Start(), name);
    CreateIs(Start(), name);
    StepIs(u, SetNet("ping-timeout 50%;"));
    s := Set(u, 0, SetNet("ping-timeout 50%;"));
    OptionSet(u);
  }

  /** The first command raises on an option with a percent sign, and the second one finds
      no file at all, although the option is still there. */
  lemma ForgottenRun(name: string)
    ensures Linked(Start())
    ensures var s := Replay(Start(), [CreateResource(name), On(0, SetNet("ping-timeout 50%;"))], false).state;
            |s.resources| == 1 && s.resources[0].net == "ping-timeout 50%;"
            && var first := Next(s, On(0, Command(0, true)), false);
               !first.ok && Next(first.state, On(0, Command(0, true)), false) == Outcome(first.state, true, None)
  {
    hide Next, Ran, CanWrite, Current, Found, Replay;
    var u, s := OptionReached(name);
    ManySteps(Start(), [CreateResource(name), On(0, SetNet("ping-timeout 50%;"))], [Start(), u]);
    MemberStepIs(s, 0);
    CannotWrite(s, 0);
    ExceptionForgotten(s, 0);
    FailedKeeps(s, 0);
    MemberStepIs(Ran(s, 0, true, false).state, 0);
  }

  lemma OptionSet(u: State)
    requires Linked(u) && |u.resources| == 1 && u.resources[0].members == [0, 1]
    requires |u.nodes| == 2 && u.nodes[0].resource == 0 && u.nodes[0].host == 0 && |u.hosts| == 2 && u.hosts[0].files == map[]
    ensures var s := Set(u, 0, SetNet("ping-timeout 50%;"));
            |s.resources| == 1 && s.resources[0].net == "ping-timeout 50%;" && s.resources[0].members == [0, 1]
            && |s.nodes| == 2 && s.nodes[0].marked && s.nodes[0].resource == 0 && Found(s, 0) == None
  {
  }

  lemma CannotWrite(s: State, n: nat)
    requires Linked(s) && n < |s.nodes| && s.resources[s.nodes[n].resource].net == "ping-timeout 50%;"
    ensures !CanWrite(s, n)
  {
    hide Config, WritableState;
    PercentOptionRaises(Me(s, n), Info(s, s.nodes[n].resource));
    ConfigRaisesIff(Me(s, n), Info(s, s.nodes[n].resource));
  }

  lemma FailedKeeps(s: State, n: nat)
    requires Linked(s) && n < |s.nodes|
    ensures Ran(s, n, true, false).state.resources == s.resources
  {
    hide Current, Found;
  }
}
