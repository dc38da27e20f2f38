/** Over every sequence of steps on a cluster: when the nodes of a resource have different
    node ids. */
module NodeIds {
  import opened Wrappers
  import opened ClusterState
  import opened ClusterAllocation
  import opened ConfigCache
  import OrderedSets

  /** No two members of a resource have the same id. */
  ghost predicate IdsDiffer(s: State) {
    forall r :: 0 <= r < |s.resources| ==> ListIdsDiffer(s, s.resources[r].members)
  }

  ghost predicate ListIdsDiffer(s: State, ms: seq<nat>) {
    forall m, n :: m in ms && n in ms && m < |s.nodes| && n < |s.nodes| && s.nodes[m].id == s.nodes[n].id ==> m == n
  }

  ghost predicate IdUsed(s: State, ms: seq<nat>, id: nat) {
    exists m :: m in ms && m < |s.nodes| && s.nodes[m].id == id
  }

  /** A step that gives a resource a member with an id that another one has: a new node gets
      the number of members as its id, one that comes back has the id it had. */
  ghost predicate Collides(s: State, step: Step) {
    step.On? && step.r < |s.resources|
    && var ms, change := s.resources[step.r].members, step.change;
       if change.CreateNode? then
         change.h < |s.hosts| && IdUsed(s, ms, |ms|)
       else
         change.AddNode? && change.p < |s.nodes| && s.nodes[change.p].resource == step.r
         && change.p !in ms && IdUsed(s, ms, s.nodes[change.p].id)
  }

  // ---- what a step does to ids ----

  /** The nodes that were there have the ids they had. */
  ghost predicate SameIds(s: State, t: State) {
    |t.nodes| >= |s.nodes| && forall n :: 0 <= n < |s.nodes| ==> t.nodes[n].id == s.nodes[n].id
  }

  /** Only one resource may have other members. */
  ghost predicate OthersMembers(s: State, t: State, r: nat) {
    |t.resources| == |s.resources|
    && forall q :: 0 <= q < |s.resources| && q != r ==> t.resources[q].members == s.resources[q].members
  }

  lemma OthersDiffer(s: State, t: State, r: nat)
    requires Linked(s) && SameIds(s, t) && OthersMembers(s, t, r) && r < |s.resources| && IdsDiffer(s)
    ensures IdsDiffer(t) <==> ListIdsDiffer(t, t.resources[r].members)
  {
    forall q | 0 <= q < |s.resources| && q != r
      ensures ListIdsDiffer(t, t.resources[q].members)
    {
      assert MembersLinked(s, q) && ListIdsDiffer(s, s.resources[q].members);
    }
  }

  lemma SameListsDiffer(s: State, t: State, ms: seq<nat>)
    requires SameIds(s, t) && forall m :: m in ms ==> m < |s.nodes|
    ensures ListIdsDiffer(t, ms) <==> ListIdsDiffer(s, ms)
    ensures forall id: nat :: IdUsed(t, ms, id) <==> IdUsed(s, ms, id)
  {
  }

  lemma OneMoreMember(s: State, ms: seq<nat>, n: nat)
    requires n < |s.nodes| && n !in ms && ListIdsDiffer(s, ms)
    ensures ListIdsDiffer(s, ms + [n]) <==> !IdUsed(s, ms, s.nodes[n].id)
  {
    if IdUsed(s, ms, s.nodes[n].id) {
      var m :| m in ms && m < |s.nodes| && s.nodes[m].id == s.nodes[n].id;
      assert m in ms + [n] && n in ms + [n];
    }
  }

  lemma SettingsKeepIds(s: State, t: State)
    requires SameSettings(s, t)
    ensures SameIds(s, t) && OthersMembers(s, t, |s.resources|)
  {
    forall n | 0 <= n < |s.nodes|
      ensures t.nodes[n].id == s.nodes[n].id
    {
      assert t.nodes[n].(marked := false) == s.nodes[n].(marked := false);
    }
  }

  lemma VolumeAddedIds(s: State, r: nat, backings: seq<Option<Backing>>, always: bool)
    requires Linked(s) && r < |s.resources| && |backings| == |s.resources[r].members|
    ensures SameIds(s, VolumeAdded(s, r, backings, always).state)
  {
    hide DisksAdded, MetadataCreated;
    var rs := s.resources[r];
    assert MembersLinked(s, r);
    var counted := WithResource(s, r, rs.(count := rs.count + 1));
    DisksAddedIds(counted, rs.members, rs.count, backings, always);
    var o := DisksAdded(counted, rs.members, rs.count, backings, always);
    if o.ok {
      MetadataIsOnlyCache(o.state, rs.members, backings, always);
      SettingsKeepIds(o.state, MetadataCreated(o.state, rs.members, backings, always).state);
    }
  }

  lemma DiskAddedIds(s: State, n: nat, number: nat, backing: Option<Backing>, always: bool)
    requires Linked(s) && n < |s.nodes|
    ensures SameIds(s, DiskAdded(s, n, number, backing, always).state)
  {
    hide DiskAdded;
    var o := DiskAdded(s, n, number, backing, always);
    DiskAddedIs(s, n, number, backing, always);
    OneGotVolume(s, n, number, backing, always);
    if o.ok {
      assert o.state.nodes[n].(volumes := [], marked := false) == s.nodes[n].(volumes := [], marked := false);
    }
  }

  lemma {:induction false} DisksAddedIds(s: State, ms: seq<nat>, number: nat, backings: seq<Option<Backing>>, always: bool)
    requires Linked(s) && Among(s, ms) && |backings| == |ms|
    ensures SameIds(s, DisksAdded(s, ms, number, backings, always).state)
    decreases |ms|
  {
    hide DiskAdded;
    if ms != [] {
      assert ms[0] in ms && forall n :: n in ms[1..] ==> n in ms;
      var o := DiskAdded(s, ms[0], number, backings[0], always);
      DiskAddedIds(s, ms[0], number, backings[0], always);
      if o.ok {
        DisksAddedIds(o.state, ms[1..], number, backings[1..], always);
      }
    }
  }

  /** Steps other than those on membership. */
  lemma OthersKeepIds(s: State, r: nat, change: Change, always: bool)
    requires Linked(s) && r < |s.resources| && !change.CreateNode? && !change.AddNode? && !change.RemoveNode?
    ensures var t := Changed(s, r, change, always).state;
            SameIds(s, t) && OthersMembers(s, t, |s.resources|)
  {
    hide VolumeAdded, DiskAdded, UpdatedIf, Changed;
    var ms := s.resources[r].members;
    DisksChanged(s, r, change, always);
    if change.AddDisk? {
      if |change.backings| == |ms| {
        VolumeAddedIds(s, r, change.backings, always);
        VolumeAddedIs(s, r, change.backings, always);
      }
    } else if change.AddDiskOn? {
      if change.k < |ms| {
        DiskAddedIds(s, Member(s, r, change.k), change.number, change.backing, always);
        DiskAddedIs(s, Member(s, r, change.k), change.number, change.backing, always);
      }
    } else if change.Command? {
      if change.k < |ms| {
        UpdateIsOnlyCache(change.update, s, Member(s, r, change.k), always);
        SettingsKeepIds(s, Changed(s, r, change, always).state);
      }
    } else {
      OptionsKeepIds(s, r, change, always);
    }
  }

  lemma DisksChanged(s: State, r: nat, change: Change, always: bool)
    requires Linked(s) && r < |s.resources|
    ensures var ms, t := s.resources[r].members, Changed(s, r, change, always).state;
            (change.AddDisk? ==> t == if |change.backings| == |ms| then VolumeAdded(s, r, change.backings, always).state else s)
            && (change.AddDiskOn? ==>
                  t == if change.k < |ms| then DiskAdded(s, Member(s, r, change.k), change.number, change.backing, always).state
                       else s)
            && (change.Command? ==>
                  t == if change.k < |ms| then UpdatedIf(change.update, s, Member(s, r, change.k), always).state else s)
  {
    hide VolumeAdded, DiskAdded, UpdatedIf;
  }

  lemma OptionsKeepIds(s: State, r: nat, change: Change, always: bool)
    requires Linked(s) && r < |s.resources|
    requires IsSetter(change) || change.SetFencing? || change.SetTiebreaker? || change.RemoveDisksOn?
    ensures var t := Changed(s, r, change, always).state;
            SameIds(s, t) && OthersMembers(s, t, |s.resources|)
  {
    hide VolumeAdded, DiskAdded, UpdatedIf;
  }

  lemma MembershipIds(s: State, r: nat, change: Change, always: bool)
    requires Linked(s) && r < |s.resources| && (change.CreateNode? || change.AddNode? || change.RemoveNode?)
    ensures var t := Changed(s, r, change, always).state;
            SameIds(s, t) && OthersMembers(s, t, r)
  {
    hide OrderedSets.RemoveFirst;
  }

  lemma OfOne(s: State, r: nat)
    requires Linked(s) && IdsDiffer(s) && r < |s.resources|
    ensures ListIdsDiffer(s, s.resources[r].members) && forall m :: m in s.resources[r].members ==> m < |s.nodes|
  {
    assert MembersLinked(s, r);
  }

  lemma CreateDiffers(s: State, r: nat, h: nat)
    requires Linked(s) && r < |s.resources| && h < |s.hosts| && IdsDiffer(s)
    ensures IdsDiffer(NodeCreated(s, r, h)) <==> !IdUsed(s, s.resources[r].members, |s.resources[r].members|)
  {
    hide IdsDiffer, ListIdsDiffer, IdUsed;
    var t, ms := NodeCreated(s, r, h), s.resources[r].members;
    OfOne(s, r);
    CreatedIs(s, r, h);
    OthersDiffer(s, t, r);
    SameListsDiffer(s, t, ms);
    OneMoreMember(t, ms, |s.nodes|);
  }

  lemma AddDiffers(s: State, r: nat, p: nat, always: bool)
    requires Linked(s) && r < |s.resources| && IdsDiffer(s)
    ensures IdsDiffer(Changed(s, r, AddNode(p), always).state) <==> !Collides(s, On(r, AddNode(p)))
  {
    hide IdsDiffer, ListIdsDiffer, IdUsed;
    var t, ms := Changed(s, r, AddNode(p), always).state, s.resources[r].members;
    OfOne(s, r);
    MembershipIds(s, r, AddNode(p), always);
    OthersDiffer(s, t, r);
    SameListsDiffer(s, t, ms);
    if p < |s.nodes| && s.nodes[p].resource == r && p !in ms {
      assert t.resources[r].members == ms + [p];
      OneMoreMember(t, ms, p);
    } else {
      assert t.resources[r].members == ms;
    }
  }

  lemma RemoveDiffers(s: State, r: nat, k: nat, always: bool)
    requires Linked(s) && r < |s.resources| && IdsDiffer(s)
    ensures IdsDiffer(Changed(s, r, RemoveNode(k), always).state)
  {
    hide IdsDiffer, OrderedSets.RemoveFirst;
    var t, ms := Changed(s, r, RemoveNode(k), always).state, s.resources[r].members;
    OfOne(s, r);
    MembershipIds(s, r, RemoveNode(k), always);
    OthersDiffer(s, t, r);
    if k < |ms| {
      assert MembersLinked(s, r);
      LeavingKeeps(ms, ms[k]);
      assert t.resources[r].members == OrderedSets.RemoveFirst(ms, ms[k]);
    }
  }

  // ---- create_resource ----

  /** The nodes of each resource that was ever listed have different ids, members or not. */
  ghost predicate AllIdsDiffer(s: State) {
    forall m, n :: 0 <= m < n < |s.nodes| && s.nodes[m].resource == s.nodes[n].resource ==> s.nodes[m].id != s.nodes[n].id
  }

  lemma ResourceIds(s: State, name: string)
    requires Linked(s)
    ensures var t := ResourceCreated(s, name);
            SameIds(s, t)
            && (forall q :: 0 <= q < |s.resources| ==> t.resources[q].members == s.resources[q].members)
            && |t.resources| == |s.resources| + 1
            && (forall m :: m in t.resources[|s.resources|].members ==> |s.nodes| <= m < |t.nodes|)
            && forall n :: |s.nodes| <= n < |t.nodes| ==>
                 t.nodes[n].resource == |s.resources| && t.nodes[n].id == n - |s.nodes|
  {
    hide ResourceCreated;
    ResourceCreatedIs(s, name);
  }

  lemma ResourceDiffers(s: State, name: string)
    requires Linked(s) && IdsDiffer(s)
    ensures IdsDiffer(ResourceCreated(s, name))
  {
    hide ResourceCreated, IdsDiffer;
    var t := ResourceCreated(s, name);
    ResourceIds(s, name);
    forall q | 0 <= q < |t.resources|
      ensures ListIdsDiffer(t, t.resources[q].members)
    {
      if q < |s.resources| {
        OfOne(s, q);
        SameListsDiffer(s, t, s.resources[q].members);
      }
    }
    Collected(t);
  }

  lemma Collected(s: State)
    requires forall r :: 0 <= r < |s.resources| ==> ListIdsDiffer(s, s.resources[r].members)
    ensures IdsDiffer(s)
  {
  }

  // ---- every step and every run ----

  /** From different ids, a step leaves them different iff it does not collide. */
  lemma NextIds(s: State, step: Step, always: bool)
    requires Linked(s) && IdsDiffer(s)
    ensures IdsDiffer(Next(s, step, always).state) <==> !Collides(s, step)
  {
    hide IdsDiffer, Changed, NodeCreated, ResourceCreated, IdUsed;
    match step
    case CreateResource(name) => ResourceDiffers(s, name);
    case On(r, change) =>
      if r < |s.resources| {
        if change.CreateNode? {
          CreateNodeIs(s, r, change.h, always);
          if change.h < |s.hosts| {
            CreateDiffers(s, r, change.h);
          }
        } else if change.AddNode? {
          AddDiffers(s, r, change.p, always);
        } else if change.RemoveNode? {
          RemoveDiffers(s, r, change.k, always);
        } else {
          OthersKeepIds(s, r, change, always);
          StayDifferent(s, Changed(s, r, change, always).state);
        }
      }
  }

  lemma CreateNodeIs(s: State, r: nat, h: nat, always: bool)
    requires Linked(s) && r < |s.resources|
    ensures Changed(s, r, CreateNode(h), always).state == if h < |s.hosts| then NodeCreated(s, r, h) else s
  {
  }

  lemma StayDifferent(s: State, t: State)
    requires Linked(s) && IdsDiffer(s) && SameIds(s, t) && OthersMembers(s, t, |s.resources|)
    ensures IdsDiffer(t)
  {
    hide ListIdsDiffer, IdUsed;
    forall q | 0 <= q < |t.resources|
      ensures ListIdsDiffer(t, t.resources[q].members)
    {
      OfOne(s, q);
      SameListsDiffer(s, t, s.resources[q].members);
    }
  }

  /** Some step of a run collides. */
  ghost predicate SomeCollides(s: State, steps: seq<Step>, always: bool)
    requires Linked(s)
    decreases |steps|
  {
    steps != []
    && (Collides(s, steps[0])
        || (Next(s, steps[0], always).ok && SomeCollides(Next(s, steps[0], always).state, steps[1..], always)))
  }

  /** Ids differ in every state of a run iff no step collides. */
  ghost predicate DifferThroughout(s: State, steps: seq<Step>, always: bool)
    requires Linked(s)
    decreases |steps|
  {
    IdsDiffer(s)
    && (steps != [] ==>
          var o := Next(s, steps[0], always);
          IdsDiffer(o.state) && (o.ok ==> DifferThroughout(o.state, steps[1..], always)))
  }

  lemma {:induction false} ThroughoutIff(s: State, steps: seq<Step>, always: bool)
    requires Linked(s) && IdsDiffer(s)
    ensures DifferThroughout(s, steps, always) <==> !SomeCollides(s, steps, always)
    decreases |steps|
  {
    hide IdsDiffer, Collides, Next;
    if steps != [] {
      NextIds(s, steps[0], always);
      var o := Next(s, steps[0], always);
      if o.ok && IdsDiffer(o.state) {
        ThroughoutIff(o.state, steps[1..], always);
      }
    }
  }

  // ---- a condition on the steps alone ----

  lemma NextAllIds(s: State, step: Step, always: bool)
    requires Linked(s) && AllIdsDiffer(s) && !(step.On? && step.change.CreateNode?)
    ensures AllIdsDiffer(Next(s, step, always).state)
  {
    hide Changed, ResourceCreated;
    match step
    case CreateResource(name) => ResourceIds(s, name);
    case On(r, change) =>
      if r < |s.resources| {
        if change.AddNode? || change.RemoveNode? {
          MembershipIds(s, r, change, always);
        } else {
          OthersKeepIds(s, r, change, always);
        }
        SameNodes(s, r, change, always);
      }
  }

  lemma SameNodes(s: State, r: nat, change: Change, always: bool)
    requires Linked(s) && r < |s.resources| && !change.CreateNode?
    ensures |Changed(s, r, change, always).state.nodes| == |s.nodes|
  {
    hide OrderedSets.RemoveFirst, UpdatedIf, DiskAdded, VolumeAdded;
  }

  /** Where nodes are made by create_resource only, as in all tests, the nodes of a resource
      have different ids throughout, however they leave and come back. */
  lemma {:induction false} RunIds(s: State, steps: seq<Step>, always: bool)
    requires Linked(s) && AllIdsDiffer(s)
    requires forall i :: 0 <= i < |steps| ==> !(steps[i].On? && steps[i].change.CreateNode?)
    ensures var t := Replay(s, steps, always).state; AllIdsDiffer(t) && IdsDiffer(t)
    decreases |steps|
  {
    hide AllIdsDiffer, IdsDiffer, Next;
    if steps == [] {
      AllAndSome(s);
    } else {
      NextAllIds(s, steps[0], always);
      var o := Next(s, steps[0], always);
      if o.ok {
        assert forall i :: 0 <= i < |steps| - 1 ==> steps[1..][i] == steps[i + 1];
        RunIds(o.state, steps[1..], always);
      } else {
        AllAndSome(o.state);
      }
    }
  }

  lemma AllAndSome(s: State)
    requires Linked(s) && AllIdsDiffer(s)
    ensures IdsDiffer(s)
  {
    forall r | 0 <= r < |s.resources|
      ensures ListIdsDiffer(s, s.resources[r].members)
    {
      assert MembersLinked(s, r);
    }
  }

  /** A node that is made after the first one has left gets the id of the last. */
  lemma MadeAfterRemoval(s: State, name: string, h: nat)
    requires Linked(s) && |s.hosts| >= 2 && h < |s.hosts| && IdsDiffer(s)
    ensures var r := |s.resources|;
            var run := Replay(s, [CreateResource(name), On(r, RemoveNode(0)), On(r, CreateNode(h))], false);
            run.ok && !IdsDiffer(run.state)
  {
    hide IdsDiffer, Next, Replay;
    var r := |s.resources|;
    var steps := [CreateResource(name), On(r, RemoveNode(0)), On(r, CreateNode(h))];
    var t := Next(s, steps[0], false).state;
    var u := Next(t, steps[1], false).state;
    NextIds(s, steps[0], false);
    NextIds(t, steps[1], false);
    FirstLeaves(s, name);
    NextIds(u, steps[2], false);
    ThreeSteps(s, steps);
    MembershipSucceeds(u, steps[2]);
  }

  lemma MembershipSucceeds(s: State, step: Step)
    requires Linked(s) && (step.CreateResource? || step.change.RemoveNode? || step.change.CreateNode?)
    ensures Next(s, step, false).ok
  {
  }

  lemma ThreeSteps(s: State, steps: seq<Step>)
    requires Linked(s) && |steps| == 3
    requires forall i :: 0 <= i < 3 ==> steps[i].CreateResource? || steps[i].change.RemoveNode? || steps[i].change.CreateNode?
    ensures var t := Next(s, steps[0], false).state;
            var u := Next(t, steps[1], false).state;
            var run := Replay(s, steps, false);
            run.ok && run.state == Next(u, steps[2], false).state
  {
    hide Next, Replay;
    var t := Next(s, steps[0], false).state;
    var u := Next(t, steps[1], false).state;
    MembershipSucceeds(s, steps[0]);
    MembershipSucceeds(t, steps[1]);
    MembershipSucceeds(u, steps[2]);
    OneStep(s, steps);
    OneStep(t, steps[1..]);
    OneStep(u, steps[1..][1..]);
    NoStep(Next(u, steps[2], false).state, steps[1..][1..][1..]);
  }

  lemma OneStep(s: State, steps: seq<Step>)
    requires Linked(s) && steps != [] && Next(s, steps[0], false).ok
    ensures var run, rest := Replay(s, steps, false), Replay(Next(s, steps[0], false).state, steps[1..], false);
            run.ok == rest.ok && run.state == rest.state
  {
  }

  lemma NoStep(s: State, steps: seq<Step>)
    requires Linked(s) && steps == []
    ensures Replay(s, steps, false).ok && Replay(s, steps, false).state == s
  {
  }

  lemma FirstLeaves(s: State, name: string)
    requires Linked(s) && |s.hosts| >= 2
    ensures var r := |s.resources|;
            var u := Next(Next(s, CreateResource(name), false).state, On(r, RemoveNode(0)), false).state;
            r < |u.resources| && |u.hosts| == |s.hosts|
            && var ms := u.resources[r].members; IdUsed(u, ms, |ms|)
  {
    hide Changed, ResourceCreated;
    var r, last := |s.resources|, |s.nodes| + |s.hosts| - 1;
    ResourceCreatedIs(s, name);
    var t := ResourceCreated(s, name);
    var ms := t.resources[r].members;
    RemovedIs(t, r);
    var u := Next(t, On(r, RemoveNode(0)), false).state;
    assert ms[1..][|s.hosts| - 2] == last;
    assert u.nodes[last].id == t.nodes[last].id == |s.hosts| - 1;
  }

  lemma RemovedIs(s: State, r: nat)
    requires Linked(s) && r < |s.resources| && s.resources[r].members != []
    ensures var t := Changed(s, r, RemoveNode(0), false).state;
            SameIds(s, t) && |t.resources| == |s.resources| && |t.hosts| == |s.hosts|
            && t.resources[r].members == s.resources[r].members[1..]
  {
  }
}
