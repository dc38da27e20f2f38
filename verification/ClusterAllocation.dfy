/** Over every sequence of steps on a cluster: minors and ports are distinct on each host
    over all resources, and which volumes stand at the positions of their numbers. */
module ClusterAllocation {
  import opened Wrappers
  import opened NodeConfig
  import opened ClusterState
  import OrderedSets

  // ---- what adding volumes does ----

  /** Apart from the flag of one node and the files, nothing changes. */
  lemma UpdateIsOnlyCache(update: bool, s: State, n: nat, always: bool)
    requires Linked(s) && n < |s.nodes|
    ensures SameSettings(s, UpdatedIf(update, s, n, always).state)
    ensures forall m :: 0 <= m < |s.nodes| && m != n ==> UpdatedIf(update, s, n, always).state.nodes[m] == s.nodes[m]
  {
    hide Config;
  }

  /** The same settings, whatever the flags and the files are. */
  ghost predicate SameSettings(s: State, t: State) {
    |t.hosts| == |s.hosts| && |t.nodes| == |s.nodes| && t.resources == s.resources
    && t.transport == s.transport && t.tls == s.tls
    && (forall h :: 0 <= h < |s.hosts| ==> t.hosts[h].(files := map[]) == s.hosts[h].(files := map[]))
    && (forall n :: 0 <= n < |s.nodes| ==> t.nodes[n].(marked := false) == s.nodes[n].(marked := false))
  }

  /** One node's addition: a volume more or replaced if it succeeds, none otherwise, and
      nothing on the other nodes. */
  lemma DiskAddedIs(s: State, n: nat, number: nat, backing: Option<Backing>, always: bool)
    requires Linked(s) && n < |s.nodes|
    ensures var o := DiskAdded(s, n, number, backing, always);
            SameSettings(if o.ok then VolumeListed(MinorTaken(s, n, number), n, NewVolume(number, MinorFor(s, n, number), backing))
                         else MinorTaken(s, n, number), o.state)
            && (forall m :: 0 <= m < |s.nodes| && m != n ==> o.state.nodes[m] == s.nodes[m])
            && (o.ok ==> o.state.nodes[n].marked)
  {
    hide Updated, Config;
    var taken := MinorTaken(s, n, number);
    UpdateIsOnlyCache(backing.Some? && backing.value.zeroOut, taken, n, always);
  }

  // ---- minors and ports ----

  /** Live minors on a host are pairwise distinct and not above the host's counter. */
  ghost predicate MinorsOk(s: State)
    requires Linked(s)
  {
    (forall n, k :: 0 <= n < |s.nodes| && 0 <= k < |s.nodes[n].volumes| ==>
       s.nodes[n].volumes[k].info.minor <= s.hosts[s.nodes[n].host].minors)
    && (forall m, n, j, k ::
          0 <= m < |s.nodes| && 0 <= n < |s.nodes| && s.nodes[m].host == s.nodes[n].host
          && 0 <= j < |s.nodes[m].volumes| && 0 <= k < |s.nodes[n].volumes|
          && s.nodes[m].volumes[j].info.minor == s.nodes[n].volumes[k].info.minor
          ==> m == n && j == k)
  }

  /** Ports on a host are pairwise distinct and below the host's counter. */
  ghost predicate PortsOk(s: State)
    requires Linked(s)
  {
    (forall n :: 0 <= n < |s.nodes| ==> s.nodes[n].port < s.hosts[s.nodes[n].host].port)
    && (forall m, n :: 0 <= m < |s.nodes| && 0 <= n < |s.nodes|
          && s.nodes[m].host == s.nodes[n].host && s.nodes[m].port == s.nodes[n].port
          ==> m == n)
  }

  ghost predicate Allocated(s: State)
    requires Linked(s)
  {
    MinorsOk(s) && PortsOk(s)
  }

  /** The same volumes, but for paths and tiebreakers. */
  ghost predicate SameMinors(s: State, t: State) {
    |t.hosts| == |s.hosts| && |t.nodes| == |s.nodes|
    && (forall h :: 0 <= h < |s.hosts| ==> t.hosts[h].minors == s.hosts[h].minors && t.hosts[h].port == s.hosts[h].port)
    && (forall n :: 0 <= n < |s.nodes| ==>
          t.nodes[n].host == s.nodes[n].host && t.nodes[n].port == s.nodes[n].port && |t.nodes[n].volumes| == |s.nodes[n].volumes|
          && forall k :: 0 <= k < |s.nodes[n].volumes| ==>
               t.nodes[n].volumes[k].info.minor == s.nodes[n].volumes[k].info.minor
               && t.nodes[n].volumes[k].number == s.nodes[n].volumes[k].number)
  }

  lemma StaysAllocated(s: State, t: State)
    requires Linked(s) && Linked(t) && SameMinors(s, t) && Allocated(s)
    ensures Allocated(t)
  {
  }

  lemma SettingsAllocate(s: State, t: State)
    requires SameSettings(s, t)
    ensures SameMinors(s, t)
  {
    forall h | 0 <= h < |s.hosts|
      ensures t.hosts[h].minors == s.hosts[h].minors && t.hosts[h].port == s.hosts[h].port
    {
      assert t.hosts[h].(files := map[]) == s.hosts[h].(files := map[]);
    }
    forall n | 0 <= n < |s.nodes|
      ensures t.nodes[n].host == s.nodes[n].host && t.nodes[n].port == s.nodes[n].port
      ensures t.nodes[n].volumes == s.nodes[n].volumes
    {
      assert t.nodes[n].(marked := false) == s.nodes[n].(marked := false);
    }
  }

  /** A volume that takes over the minor of the one it replaces, or has one that no other
      has. */
  ghost predicate MinorFits(s: State, n: nat, v: VolumeState)
    requires Linked(s) && n < |s.nodes|
  {
    if v.number < |s.nodes[n].volumes| then v.info.minor == s.nodes[n].volumes[v.number].info.minor
    else
      v.info.minor <= s.hosts[s.nodes[n].host].minors
      && forall m, k :: 0 <= m < |s.nodes| && s.nodes[m].host == s.nodes[n].host && 0 <= k < |s.nodes[m].volumes| ==>
                          s.nodes[m].volumes[k].info.minor != v.info.minor
  }

  lemma TakingKeepsMinors(s: State, n: nat, number: nat, backing: Option<Backing>)
    requires Linked(s) && n < |s.nodes| && Allocated(s)
    ensures Allocated(MinorTaken(s, n, number))
    ensures MinorFits(MinorTaken(s, n, number), n, NewVolume(number, MinorFor(s, n, number), backing))
  {
  }

  lemma ListingKeepsMinors(s: State, n: nat, v: VolumeState)
    requires Linked(s) && n < |s.nodes| && MinorsOk(s) && MinorFits(s, n, v)
    ensures MinorsOk(VolumeListed(s, n, v))
  {
    var t := VolumeListed(s, n, v);
    assert forall m :: 0 <= m < |s.nodes| && m != n ==> t.nodes[m] == s.nodes[m];
    assert forall k :: 0 <= k < |t.nodes[n].volumes| ==>
        t.nodes[n].volumes[k].info.minor ==
        if v.number < |s.nodes[n].volumes| || k < |s.nodes[n].volumes| then s.nodes[n].volumes[k].info.minor else v.info.minor;
  }

  lemma ListingKeepsPorts(s: State, n: nat, v: VolumeState)
    requires Linked(s) && n < |s.nodes| && PortsOk(s)
    ensures PortsOk(VolumeListed(s, n, v))
  {
  }

  lemma ListingKeeps(s: State, n: nat, v: VolumeState)
    requires Linked(s) && n < |s.nodes| && Allocated(s) && MinorFits(s, n, v)
    ensures Allocated(VolumeListed(s, n, v))
  {
    hide MinorFits;
    ListingKeepsMinors(s, n, v);
    ListingKeepsPorts(s, n, v);
  }

  lemma DiskAddedAllocated(s: State, n: nat, number: nat, backing: Option<Backing>, always: bool)
    requires Linked(s) && n < |s.nodes| && Allocated(s)
    ensures Allocated(DiskAdded(s, n, number, backing, always).state)
  {
    hide Allocated, DiskAdded, VolumeListed, MinorTaken, SameSettings, SameMinors, MinorFits;
    var o := DiskAdded(s, n, number, backing, always);
    var t := if o.ok then VolumeListed(MinorTaken(s, n, number), n, NewVolume(number, MinorFor(s, n, number), backing))
             else MinorTaken(s, n, number);
    TakingKeepsMinors(s, n, number, backing);
    ListingKeeps(MinorTaken(s, n, number), n, NewVolume(number, MinorFor(s, n, number), backing));
    DiskAddedIs(s, n, number, backing, always);
    SettingsAllocate(t, o.state);
    StaysAllocated(t, o.state);
  }

  lemma {:induction false} DisksAddedAllocated(s: State, ms: seq<nat>, number: nat, backings: seq<Option<Backing>>, always: bool)
    requires Linked(s) && Among(s, ms) && |backings| == |ms| && Allocated(s)
    ensures Allocated(DisksAdded(s, ms, number, backings, always).state)
    decreases |ms|
  {
    hide Allocated, DiskAdded;
    if ms != [] {
      assert ms[0] in ms && forall n :: n in ms[1..] ==> n in ms;
      var o := DiskAdded(s, ms[0], number, backings[0], always);
      DiskAddedAllocated(s, ms[0], number, backings[0], always);
      if o.ok {
        DisksAddedAllocated(o.state, ms[1..], number, backings[1..], always);
      }
    }
  }

  lemma {:induction false} MetadataIsOnlyCache(s: State, ms: seq<nat>, backings: seq<Option<Backing>>, always: bool)
    requires Linked(s) && Among(s, ms) && |backings| == |ms|
    ensures SameSettings(s, MetadataCreated(s, ms, backings, always).state)
    decreases |ms|
  {
    hide SameSettings, UpdatedIf;
    if ms == [] {
      SameIsSame(s);
    } else {
      assert ms[0] in ms && forall n :: n in ms[1..] ==> n in ms;
      var o := UpdatedIf(backings[0].Some?, s, ms[0], always);
      UpdateIsOnlyCache(backings[0].Some?, s, ms[0], always);
      if o.ok {
        MetadataIsOnlyCache(o.state, ms[1..], backings[1..], always);
        SameIsTransitive(s, o.state, MetadataCreated(s, ms, backings, always).state);
      }
    }
  }

  lemma SameIsSame(s: State)
    ensures SameSettings(s, s)
  {
  }

  lemma SameIsTransitive(s: State, t: State, u: State)
    requires SameSettings(s, t) && SameSettings(t, u)
    ensures SameSettings(s, u)
  {
  }

  // ---- every step ----

  lemma NodeCreatedAllocated(s: State, r: nat, h: nat)
    requires Linked(s) && r < |s.resources| && h < |s.hosts| && Allocated(s)
    ensures Allocated(NodeCreated(s, r, h))
  {
    var t := NodeCreated(s, r, h);
    assert forall n :: 0 <= n < |t.nodes| ==> n == |s.nodes| || (n < |s.nodes| && t.nodes[n] == s.nodes[n]);
    assert t.nodes[|s.nodes|].volumes == [] && t.nodes[|s.nodes|].port == s.hosts[h].port;
  }

  lemma {:induction false} NodesCreatedAllocated(s: State, r: nat, from: nat)
    requires Linked(s) && r < |s.resources| && from <= |s.hosts| && Allocated(s)
    ensures Allocated(NodesCreated(s, r, from))
    decreases |s.hosts| - from
  {
    hide Allocated, NodeCreated;
    if from < |s.hosts| {
      NodeCreatedAllocated(s, r, from);
      NodesCreatedAllocated(NodeCreated(s, r, from), r, from + 1);
    }
  }

  lemma OptionsKeepMinors(s: State, r: nat, change: Change, always: bool)
    requires Linked(s) && r < |s.resources|
    requires IsSetter(change) || change.SetFencing? || change.SetTiebreaker?
    ensures SameMinors(s, Changed(s, r, change, always).state)
  {
    hide Assigned;
  }

  lemma MembershipKeepsMinors(s: State, r: nat, change: Change, always: bool)
    requires Linked(s) && r < |s.resources|
    requires change.AddNode? || change.RemoveNode?
    ensures SameMinors(s, Changed(s, r, change, always).state)
  {
    hide OrderedSets.RemoveFirst;
  }

  lemma DisksRemovedAllocated(s: State, n: nat)
    requires Linked(s) && n < |s.nodes| && Allocated(s)
    ensures Allocated(DisksRemoved(s, n))
  {
    var t := DisksRemoved(s, n);
    assert forall m :: 0 <= m < |s.nodes| ==> t.nodes[m] == if m == n then s.nodes[n].(volumes := []) else s.nodes[m];
  }

  lemma VolumeAddedAllocated(s: State, r: nat, backings: seq<Option<Backing>>, always: bool)
    requires Linked(s) && r < |s.resources| && |backings| == |s.resources[r].members| && Allocated(s)
    ensures Allocated(VolumeAdded(s, r, backings, always).state)
  {
    hide Allocated, DisksAdded, MetadataCreated, SameSettings, SameMinors;
    var rs := s.resources[r];
    assert MembersLinked(s, r);
    var counted := WithResource(s, r, rs.(count := rs.count + 1));
    assert SameMinors(s, counted) by { CountingKeeps(s, counted); }
    StaysAllocated(s, counted);
    DisksAddedAllocated(counted, rs.members, rs.count, backings, always);
    var o := DisksAdded(counted, rs.members, rs.count, backings, always);
    if o.ok {
      var t := MetadataCreated(o.state, rs.members, backings, always).state;
      MetadataIsOnlyCache(o.state, rs.members, backings, always);
      SettingsAllocate(o.state, t);
      StaysAllocated(o.state, t);
    }
  }

  lemma CountingKeeps(s: State, t: State)
    requires t.hosts == s.hosts && t.nodes == s.nodes
    ensures SameMinors(s, t)
  {
  }

  lemma ChangeAllocated(s: State, r: nat, change: Change, always: bool)
    requires Linked(s) && r < |s.resources| && Allocated(s)
    ensures Allocated(Changed(s, r, change, always).state)
  {
    hide Allocated, DiskAdded, DisksRemoved, VolumeAdded, NodeCreated, Set, Fenced, Touched, Joined, Left, TiebreakerSet, UpdatedIf;
    hide SameSettings, SameMinors;
    var t := Changed(s, r, change, always).state;
    var ms := s.resources[r].members;
    if change.CreateNode? {
      if change.h < |s.hosts| {
        NodeCreatedAllocated(s, r, change.h);
      }
    } else if change.AddDisk? {
      if |change.backings| == |ms| {
        VolumeAddedAllocated(s, r, change.backings, always);
      }
    } else if change.AddDiskOn? {
      if change.k < |ms| {
        DiskAddedAllocated(s, Member(s, r, change.k), change.number, change.backing, always);
      }
    } else if change.RemoveDisksOn? {
      if change.k < |ms| {
        DisksRemovedAllocated(s, Member(s, r, change.k));
      }
    } else if change.Command? {
      if change.k < |ms| {
        UpdateIsOnlyCache(change.update, s, Member(s, r, change.k), always);
        SettingsAllocate(s, t);
        StaysAllocated(s, t);
      }
    } else {
      if change.AddNode? || change.RemoveNode? {
        MembershipKeepsMinors(s, r, change, always);
      } else {
        OptionsKeepMinors(s, r, change, always);
      }
      StaysAllocated(s, t);
    }
  }

  /** Every step keeps minors and ports distinct on each host, those that raise
      included. */
  lemma NextAllocated(s: State, step: Step, always: bool)
    requires Linked(s) && Allocated(s)
    ensures Allocated(Next(s, step, always).state)
  {
    hide Allocated, Changed, SameMinors, NodesCreated;
    match step
    case CreateResource(name) =>
      assert SameMinors(s, ResourceListed(s, name)) by { CountingKeeps(s, ResourceListed(s, name)); }
      StaysAllocated(s, ResourceListed(s, name));
      NodesCreatedAllocated(ResourceListed(s, name), |s.resources|, 0);
    case On(r, change) =>
      if r < |s.resources| {
        ChangeAllocated(s, r, change, always);
      }
  }

  /** Over every sequence of steps on any number of resources, minors and ports are
      distinct on each host. */
  lemma {:induction false} RunAllocated(s: State, steps: seq<Step>, always: bool)
    requires Linked(s) && Allocated(s)
    ensures Allocated(Replay(s, steps, always).state)
    decreases |steps|
  {
    hide Allocated, Next;
    if steps != [] {
      var o := Next(s, steps[0], always);
      NextAllocated(s, steps[0], always);
      if o.ok {
        RunAllocated(o.state, steps[1..], always);
      }
    }
  }

  // ---- positions ----

  /** One volume more, or one replaced, which keeps its minor. */
  ghost predicate GotVolume(a: NodeState, b: NodeState, number: nat, backing: Option<Backing>) {
    var at := if number < |a.volumes| then number else |a.volumes|;
    b.(volumes := a.volumes, marked := a.marked) == a && at < |b.volumes|
    && b.volumes == Placed(a.volumes, NewVolume(number, b.volumes[at].info.minor, backing))
    && (number < |a.volumes| ==> b.volumes[at].info.minor == a.volumes[number].info.minor)
  }

  /** The volume has its number and its storage, no tiebreaker setting yet, and stands at that
      position if there is one, otherwise at the end; the others stay. */
  lemma VolumeGot(a: NodeState, b: NodeState, number: nat, backing: Option<Backing>)
    requires GotVolume(a, b, number, backing)
    ensures var at, vs, ws := if number < |a.volumes| then number else |a.volumes|, a.volumes, b.volumes;
            |ws| == (if at < |vs| then |vs| else |vs| + 1)
            && (forall k :: 0 <= k < |vs| && k != at ==> ws[k] == vs[k])
            && ws[at].number == number && ws[at].info.tiebreaker == None
            && ws[at].info.disk == (if backing.Some? then Some(backing.value.disk) else None)
            && ws[at].info.meta == (if backing.Some? then backing.value.meta else None)
            && (at < |vs| ==> ws[at].info.minor == vs[at].info.minor)
  {
  }

  lemma OneGotVolume(s: State, n: nat, number: nat, backing: Option<Backing>, always: bool)
    requires Linked(s) && n < |s.nodes|
    ensures var o := DiskAdded(s, n, number, backing, always);
            (o.ok ==> GotVolume(s.nodes[n], o.state.nodes[n], number, backing))
            && (!o.ok ==> o.state.nodes[n].(marked := false) == s.nodes[n].(marked := false))
            && (forall h :: 0 <= h < |s.hosts| ==>
                  o.state.hosts[h].(files := map[], minors := 0) == s.hosts[h].(files := map[], minors := 0))
  {
    hide DiskAdded;
    var o := DiskAdded(s, n, number, backing, always);
    DiskAddedIs(s, n, number, backing, always);
    var v := NewVolume(number, MinorFor(s, n, number), backing);
    if o.ok {
      var t := VolumeListed(MinorTaken(s, n, number), n, v);
      assert o.state.nodes[n].(marked := false) == t.nodes[n].(marked := false);
      assert o.state.nodes[n].volumes == t.nodes[n].volumes == Placed(s.nodes[n].volumes, v);
    }
    forall h | 0 <= h < |s.hosts|
      ensures o.state.hosts[h].(files := map[], minors := 0) == s.hosts[h].(files := map[], minors := 0)
    {
      assert o.state.hosts[h].(files := map[]) == MinorTaken(s, n, number).hosts[h].(files := map[]);
      assert MinorTaken(s, n, number).hosts[h].(minors := 0) == s.hosts[h].(minors := 0);
    }
  }

  /** A volume more or replaced on each of some nodes. */
  ghost predicate GotVolumes(s: State, t: State, ms: seq<nat>, number: nat, backings: seq<Option<Backing>>) {
    |backings| == |ms| && |t.nodes| == |s.nodes|
    && forall i :: 0 <= i < |ms| ==>
         ms[i] < |s.nodes| && GotVolume(s.nodes[ms[i]], t.nodes[ms[i]], number, backings[i])
  }

  ghost predicate AllMarked(s: State, ms: seq<nat>) {
    forall i :: 0 <= i < |ms| ==> ms[i] < |s.nodes| && s.nodes[ms[i]].marked
  }

  ghost predicate OthersSame(s: State, t: State, ms: seq<nat>) {
    |t.nodes| == |s.nodes| && forall n :: 0 <= n < |s.nodes| && n !in ms ==> t.nodes[n] == s.nodes[n]
  }

  /** The first loop of Resource.add_disk: a volume on every member, nothing elsewhere. */
  lemma {:induction false} DisksAddedIs(s: State, ms: seq<nat>, number: nat, backings: seq<Option<Backing>>, always: bool)
    requires Linked(s) && Among(s, ms) && |backings| == |ms| && OrderedSets.NoDup(ms)
    ensures var o := DisksAdded(s, ms, number, backings, always);
            OthersSame(s, o.state, ms) && (o.ok ==> GotVolumes(s, o.state, ms, number, backings) && AllMarked(o.state, ms))
    decreases |ms|
  {
    hide DiskAdded, GotVolume, Placed, NewVolume, SameSettings;
    if ms != [] {
      assert ms[0] in ms && forall n :: n in ms[1..] ==> n in ms;
      var o := DiskAdded(s, ms[0], number, backings[0], always);
      OneGotVolume(s, ms[0], number, backings[0], always);
      DiskAddedIs(s, ms[0], number, backings[0], always);
      if o.ok {
        DisksAddedIs(o.state, ms[1..], number, backings[1..], always);
        FirstAndRest(s, o.state, DisksAdded(o.state, ms[1..], number, backings[1..], always), ms, number, backings);
      }
    }
  }

  lemma FirstAndRest(s: State, t: State, u: Outcome, ms: seq<nat>, number: nat, backings: seq<Option<Backing>>)
    requires ms != [] && |backings| == |ms| && OrderedSets.NoDup(ms) && ms[0] < |s.nodes|
    requires OthersSame(s, t, [ms[0]]) && GotVolume(s.nodes[ms[0]], t.nodes[ms[0]], number, backings[0]) && t.nodes[ms[0]].marked
    requires OthersSame(t, u.state, ms[1..])
    requires u.ok ==> GotVolumes(t, u.state, ms[1..], number, backings[1..]) && AllMarked(u.state, ms[1..])
    ensures OthersSame(s, u.state, ms)
    ensures u.ok ==> GotVolumes(s, u.state, ms, number, backings) && AllMarked(u.state, ms)
  {
    hide GotVolume;
    assert ms[0] !in ms[1..];
    forall i | u.ok && 0 <= i < |ms|
      ensures ms[i] < |s.nodes| && GotVolume(s.nodes[ms[i]], u.state.nodes[ms[i]], number, backings[i])
      ensures u.state.nodes[ms[i]].marked
    {
      if i > 0 {
        assert ms[1..][i - 1] == ms[i] && ms[i] != ms[0];
        assert backings[1..][i - 1] == backings[i];
      }
    }
  }

  /** Resource.add_disk. */
  lemma VolumeAddedIs(s: State, r: nat, backings: seq<Option<Backing>>, always: bool)
    requires Linked(s) && r < |s.resources| && |backings| == |s.resources[r].members|
    ensures var o, ms := VolumeAdded(s, r, backings, always), s.resources[r].members;
            o.state.resources == s.resources[r := s.resources[r].(count := s.resources[r].count + 1)]
            && (o.ok ==> GotVolumes(s, o.state, ms, s.resources[r].count, backings))
            && (forall n :: 0 <= n < |s.nodes| && n !in ms ==>
                  o.state.nodes[n].(marked := false) == s.nodes[n].(marked := false))
  {
    hide DisksAdded, MetadataCreated, GotVolume;
    var rs := s.resources[r];
    assert MembersLinked(s, r);
    assert forall i :: 0 <= i < |rs.members| ==> rs.members[i] in rs.members;
    var counted := WithResource(s, r, rs.(count := rs.count + 1));
    DisksAddedIs(counted, rs.members, rs.count, backings, always);
    var o := DisksAdded(counted, rs.members, rs.count, backings, always);
    if o.ok {
      var t := MetadataCreated(o.state, rs.members, backings, always);
      MetadataIsOnlyCache(o.state, rs.members, backings, always);
      forall i | 0 <= i < |rs.members|
        ensures GotVolume(s.nodes[rs.members[i]], t.state.nodes[rs.members[i]], rs.count, backings[i])
      {
        var n := rs.members[i];
        FlagsAside(s.nodes[n], o.state.nodes[n], t.state.nodes[n], rs.count, backings[i]);
      }
    }
  }

  lemma FlagsAside(a: NodeState, b: NodeState, c: NodeState, number: nat, backing: Option<Backing>)
    requires GotVolume(a, b, number, backing) && c.(marked := false) == b.(marked := false)
    ensures GotVolume(a, c, number, backing)
  {
    assert c.(marked := false).volumes == b.(marked := false).volumes;
  }

  /** The disk at position i has volume number i. */
  ghost predicate InPlace(vs: seq<VolumeState>) {
    forall i :: 0 <= i < |vs| ==> vs[i].number == i
  }

  ghost predicate InOrder(s: State) {
    forall n :: 0 <= n < |s.nodes| ==> InPlace(s.nodes[n].volumes)
  }

  function OutOfPlace(vs: seq<VolumeState>): set<nat> {
    set i | 0 <= i < |vs| && vs[i].number != i
  }

  /** Adding a number beyond the end puts a volume out of place, adding one within the
      list puts that position right. */
  lemma PlacedAfter(vs: seq<VolumeState>, v: VolumeState)
    ensures OutOfPlace(Placed(vs, v)) == if v.number > |vs| then OutOfPlace(vs) + {|vs|} else OutOfPlace(vs) - {v.number}
  {
  }

  lemma InPlaceAfter(vs: seq<VolumeState>, v: VolumeState)
    requires InPlace(vs)
    ensures InPlace(Placed(vs, v)) <==> v.number <= |vs|
  {
    if v.number > |vs| {
      assert Placed(vs, v)[|vs|] == v;
    }
  }

  /** The list after several additions. */
  function PlacedAll(vs: seq<VolumeState>, more: seq<VolumeState>): seq<VolumeState> {
    if more == [] then vs else Placed(PlacedAll(vs, more[..|more| - 1]), more[|more| - 1])
  }

  /** The additions that appended beyond the end, by the position they took. */
  ghost predicate AppendedBeyond(vs: seq<VolumeState>, more: seq<VolumeState>, j: nat, i: nat)
    requires j < |more|
  {
    |PlacedAll(vs, more[..j])| == i && more[j].number > i
  }

  /** Over any sequence of additions to an empty list, the disk at position i has number i
      unless it was appended with a number beyond the end and not replaced since. */
  lemma {:induction false} PlacedAllExact(more: seq<VolumeState>, i: nat)
    requires i < |PlacedAll([], more)|
    ensures PlacedAll([], more)[i].number != i <==>
            exists j :: 0 <= j < |more| && AppendedBeyond([], more, j, i) && forall k :: j < k < |more| ==> more[k].number != i
  {
    var last := |more| - 1;
    var vs, v := PlacedAll([], more[..last]), more[last];
    assert forall j :: 0 <= j < last ==> more[..last][..j] == more[..j] && more[..last][j] == more[j];
    assert forall j :: 0 <= j < last ==> (AppendedBeyond([], more, j, i) <==> AppendedBeyond([], more[..last], j, i));
    if i < |vs| {
      PlacedAllExact(more[..last], i);
    } else {
      assert Placed(vs, v) == vs + [v] && i == |vs|;
      BeyondOnce(more, last, i);
      assert AppendedBeyond([], more, last, i) <==> v.number > i;
    }
  }

  lemma BeyondOnce(more: seq<VolumeState>, last: nat, i: nat)
    requires last < |more| && |PlacedAll([], more[..last])| <= i
    ensures forall j :: 0 <= j < last ==> !AppendedBeyond([], more, j, i)
  {
    forall j | 0 <= j < last
      ensures !AppendedBeyond([], more, j, i)
    {
      if AppendedBeyond([], more, j, i) {
        PlacedGrows(more, j, last);
      }
    }
  }

  lemma {:induction false} PlacedGrows(more: seq<VolumeState>, j: nat, last: nat)
    requires j < last <= |more|
    ensures |PlacedAll([], more[..last])| >= |PlacedAll([], more[..j])|
    ensures more[j].number > |PlacedAll([], more[..j])| ==> |PlacedAll([], more[..last])| > |PlacedAll([], more[..j])|
    decreases last
  {
    assert more[..last][..last - 1] == more[..last - 1];
    if j < last - 1 {
      PlacedGrows(more, j, last - 1);
    }
  }

  /** A step that adds a volume number beyond the end of a member's list. */
  ghost predicate Exceeds(s: State, step: Step)
    requires Linked(s)
  {
    step.On? && step.r < |s.resources|
    && var ms := s.resources[step.r].members;
       if step.change.AddDisk? then
         |step.change.backings| == |ms|
         && exists n :: n in ms && n < |s.nodes| && s.resources[step.r].count > |s.nodes[n].volumes|
       else
         step.change.AddDiskOn? && step.change.k < |ms|
         && step.change.number > |s.nodes[Member(s, step.r, step.change.k)].volumes|
  }

  lemma StaysInOrder(s: State, t: State)
    requires SameMinors(s, t)
    ensures InOrder(s) <==> InOrder(t)
  {
    forall n | 0 <= n < |s.nodes|
      ensures InPlace(s.nodes[n].volumes) <==> InPlace(t.nodes[n].volumes)
    {
      assert forall k :: 0 <= k < |s.nodes[n].volumes| ==> t.nodes[n].volumes[k].number == s.nodes[n].volumes[k].number;
    }
  }

  lemma OneInOrder(a: NodeState, b: NodeState, number: nat, backing: Option<Backing>)
    requires InPlace(a.volumes) && GotVolume(a, b, number, backing)
    ensures InPlace(b.volumes) <==> number <= |a.volumes|
    ensures number == |a.volumes| ==> |b.volumes| == number + 1
  {
    hide InPlace;
    var at := if number < |a.volumes| then number else |a.volumes|;
    InPlaceAfter(a.volumes, NewVolume(number, b.volumes[at].info.minor, backing));
  }

  lemma VolumeAddedInOrder(s: State, r: nat, backings: seq<Option<Backing>>, always: bool)
    requires Linked(s) && r < |s.resources| && |backings| == |s.resources[r].members| && InOrder(s)
    requires VolumeAdded(s, r, backings, always).ok
    ensures InOrder(VolumeAdded(s, r, backings, always).state) <==> !Exceeds(s, On(r, AddDisk(backings)))
  {
    hide VolumeAdded, InPlace, GotVolume;
    var t, ms := VolumeAdded(s, r, backings, always).state, s.resources[r].members;
    VolumeAddedIs(s, r, backings, always);
    forall i | 0 <= i < |ms|
      ensures ms[i] < |s.nodes| && (InPlace(t.nodes[ms[i]].volumes) <==> s.resources[r].count <= |s.nodes[ms[i]].volumes|)
    {
      assert InPlace(s.nodes[ms[i]].volumes);
      OneInOrder(s.nodes[ms[i]], t.nodes[ms[i]], s.resources[r].count, backings[i]);
    }
    forall n | 0 <= n < |s.nodes| && n !in ms
      ensures t.nodes[n].volumes == s.nodes[n].volumes
    {
      assert t.nodes[n].(marked := false).volumes == s.nodes[n].(marked := false).volumes;
    }
    assert forall n :: n in ms ==> exists i :: 0 <= i < |ms| && ms[i] == n;
  }

  lemma DiskAddedInOrder(s: State, r: nat, k: nat, number: nat, backing: Option<Backing>, always: bool)
    requires Linked(s) && r < |s.resources| && k < |s.resources[r].members| && InOrder(s)
    requires DiskAdded(s, Member(s, r, k), number, backing, always).ok
    ensures InOrder(DiskAdded(s, Member(s, r, k), number, backing, always).state)
       <==> !Exceeds(s, On(r, AddDiskOn(k, number, backing)))
  {
    hide DiskAdded, InPlace, GotVolume, SameSettings;
    var n := Member(s, r, k);
    var t := DiskAdded(s, n, number, backing, always).state;
    DiskAddedIs(s, n, number, backing, always);
    OneGotVolume(s, n, number, backing, always);
    assert InPlace(s.nodes[n].volumes);
    OneInOrder(s.nodes[n], t.nodes[n], number, backing);
  }

  lemma NodeCreatedInOrder(s: State, r: nat, h: nat)
    requires Linked(s) && r < |s.resources| && h < |s.hosts| && InOrder(s)
    ensures InOrder(NodeCreated(s, r, h))
  {
  }

  lemma {:induction false} NodesCreatedInOrder(s: State, r: nat, from: nat)
    requires Linked(s) && r < |s.resources| && from <= |s.hosts| && InOrder(s)
    ensures InOrder(NodesCreated(s, r, from))
    decreases |s.hosts| - from
  {
    hide InOrder, NodeCreated;
    if from < |s.hosts| {
      NodeCreatedInOrder(s, r, from);
      NodesCreatedInOrder(NodeCreated(s, r, from), r, from + 1);
    }
  }

  lemma ChangeInOrder(s: State, r: nat, change: Change, always: bool)
    requires Linked(s) && r < |s.resources| && InOrder(s)
    requires Changed(s, r, change, always).ok
    ensures InOrder(Changed(s, r, change, always).state) <==> !Exceeds(s, On(r, change))
  {
    hide InOrder, DiskAdded, DisksRemoved, VolumeAdded, NodeCreated, Set, Fenced, Touched, Joined, Left, TiebreakerSet, UpdatedIf;
    hide SameSettings, SameMinors;
    var t := Changed(s, r, change, always).state;
    var ms := s.resources[r].members;
    if change.CreateNode? {
      if change.h < |s.hosts| {
        NodeCreatedInOrder(s, r, change.h);
      }
    } else if change.AddDisk? {
      if |change.backings| == |ms| {
        VolumeAddedInOrder(s, r, change.backings, always);
      }
    } else if change.AddDiskOn? {
      if change.k < |ms| {
        DiskAddedInOrder(s, r, change.k, change.number, change.backing, always);
      }
    } else if change.RemoveDisksOn? {
      if change.k < |ms| {
        DisksRemovedInOrder(s, Member(s, r, change.k));
      }
    } else if change.Command? {
      if change.k < |ms| {
        UpdateIsOnlyCache(change.update, s, Member(s, r, change.k), always);
        SettingsAllocate(s, t);
        StaysInOrder(s, t);
      }
    } else {
      if change.AddNode? || change.RemoveNode? {
        MembershipKeepsMinors(s, r, change, always);
      } else {
        OptionsKeepMinors(s, r, change, always);
      }
      StaysInOrder(s, t);
    }
  }

  lemma DisksRemovedInOrder(s: State, n: nat)
    requires Linked(s) && n < |s.nodes| && InOrder(s)
    ensures InOrder(DisksRemoved(s, n))
  {
  }

  /** From disks in order, a step leaves them in order iff it adds no number beyond the end
      of a member's list. */
  lemma NextInOrder(s: State, step: Step, always: bool)
    requires Linked(s) && InOrder(s) && Next(s, step, always).ok
    ensures InOrder(Next(s, step, always).state) <==> !Exceeds(s, step)
  {
    hide InOrder, Changed, SameMinors, NodesCreated;
    match step
    case CreateResource(name) =>
      assert SameMinors(s, ResourceListed(s, name)) by { CountingKeeps(s, ResourceListed(s, name)); }
      StaysInOrder(s, ResourceListed(s, name));
      NodesCreatedInOrder(ResourceListed(s, name), |s.resources|, 0);
    case On(r, change) =>
      if r < |s.resources| {
        ChangeInOrder(s, r, change, always);
      }
  }

  /** No step of a run adds a number beyond the end of a list. */
  ghost predicate NeverExceeds(s: State, steps: seq<Step>, always: bool)
    requires Linked(s)
    decreases |steps|
  {
    steps == []
    || (!Exceeds(s, steps[0])
        && (Next(s, steps[0], always).ok ==> NeverExceeds(Next(s, steps[0], always).state, steps[1..], always)))
  }

  lemma {:induction false} RunInOrder(s: State, steps: seq<Step>, always: bool)
    requires Linked(s) && InOrder(s) && NeverExceeds(s, steps, always) && Replay(s, steps, always).ok
    ensures InOrder(Replay(s, steps, always).state)
    decreases |steps|
  {
    hide InOrder, Next, Exceeds;
    if steps != [] {
      var o := Next(s, steps[0], always);
      NextInOrder(s, steps[0], always);
      RunInOrder(o.state, steps[1..], always);
    }
  }

  // ---- a condition on the steps alone ----

  /** Members have as many volumes as their resource counts. */
  ghost predicate Counted(s: State)
    requires Linked(s)
  {
    forall r :: 0 <= r < |s.resources| ==> MembersCounted(s, r)
  }

  ghost predicate MembersCounted(s: State, r: nat)
    requires r < |s.resources|
  {
    forall n :: n in s.resources[r].members ==> n < |s.nodes| && |s.nodes[n].volumes| == s.resources[r].count
  }

  /** Volumes come and go for whole resources only, and members do not come back. */
  predicate Regular(step: Step) {
    step.On? ==> !step.change.AddDiskOn? && !step.change.RemoveDisksOn? && !step.change.CreateNode? && !step.change.AddNode?
  }

  lemma CountedNeverExceeds(s: State, step: Step)
    requires Linked(s) && Counted(s) && Regular(step)
    ensures !Exceeds(s, step)
  {
    if step.On? && step.r < |s.resources| {
      assert MembersCounted(s, step.r);
    }
  }

  lemma VolumeAddedCounted(s: State, r: nat, backings: seq<Option<Backing>>, always: bool)
    requires Linked(s) && r < |s.resources| && |backings| == |s.resources[r].members| && Counted(s)
    requires VolumeAdded(s, r, backings, always).ok
    ensures Counted(VolumeAdded(s, r, backings, always).state)
  {
    hide VolumeAdded, GotVolume;
    var t, ms := VolumeAdded(s, r, backings, always).state, s.resources[r].members;
    VolumeAddedIs(s, r, backings, always);
    forall q | 0 <= q < |t.resources|
      ensures MembersCounted(t, q)
    {
      assert MembersLinked(s, q) && MembersLinked(s, r) && MembersCounted(s, q);
      forall n | n in t.resources[q].members
        ensures n < |t.nodes| && |t.nodes[n].volumes| == t.resources[q].count
      {
        if q == r {
          var i :| 0 <= i < |ms| && ms[i] == n;
          GotOne(s.nodes[n], t.nodes[n], s.resources[r].count, backings[i]);
        } else {
          assert t.nodes[n].(marked := false).volumes == s.nodes[n].(marked := false).volumes;
        }
      }
    }
  }

  lemma GotOne(a: NodeState, b: NodeState, number: nat, backing: Option<Backing>)
    requires GotVolume(a, b, number, backing) && |a.volumes| == number
    ensures |b.volumes| == number + 1
  {
  }

  lemma NodeCreatedCounted(s: State, r: nat, h: nat)
    requires Linked(s) && r < |s.resources| && h < |s.hosts| && Counted(s) && s.resources[r].count == 0
    ensures Counted(NodeCreated(s, r, h)) && NodeCreated(s, r, h).resources[r].count == 0
  {
    var t := NodeCreated(s, r, h);
    forall q | 0 <= q < |t.resources|
      ensures MembersCounted(t, q)
    {
      assert MembersCounted(s, q);
    }
  }

  lemma {:induction false} NodesCreatedCounted(s: State, r: nat, from: nat)
    requires Linked(s) && r < |s.resources| && from <= |s.hosts| && Counted(s) && s.resources[r].count == 0
    ensures Counted(NodesCreated(s, r, from))
    decreases |s.hosts| - from
  {
    hide Counted, NodeCreated;
    if from < |s.hosts| {
      NodeCreatedCounted(s, r, from);
      NodesCreatedCounted(NodeCreated(s, r, from), r, from + 1);
    }
  }

  /** The same volumes, and no more members. */
  lemma StaysCounted(s: State, t: State)
    requires Linked(s) && Linked(t) && SameMinors(s, t) && |t.resources| == |s.resources| && Counted(s)
    requires forall r, n :: 0 <= r < |s.resources| && n in t.resources[r].members ==> n in s.resources[r].members
    requires forall r :: 0 <= r < |s.resources| ==> t.resources[r].count == s.resources[r].count
    ensures Counted(t)
  {
    forall q | 0 <= q < |t.resources|
      ensures MembersCounted(t, q)
    {
      assert MembersCounted(s, q);
    }
  }

  lemma FewerMembers(s: State, r: nat, change: Change, always: bool)
    requires Linked(s) && r < |s.resources|
    requires IsSetter(change) || change.SetFencing? || change.SetTiebreaker? || change.RemoveNode?
    ensures var t := Changed(s, r, change, always).state;
            |t.resources| == |s.resources|
            && (forall q, n :: 0 <= q < |s.resources| && n in t.resources[q].members ==> n in s.resources[q].members)
            && (forall q :: 0 <= q < |s.resources| ==> t.resources[q].count == s.resources[q].count)
  {
    if change.RemoveNode? && change.k < |s.resources[r].members| {
      assert MembersLinked(s, r);
      LeavingKeeps(s.resources[r].members, s.resources[r].members[change.k]);
    }
  }

  lemma NextCounted(s: State, step: Step, always: bool)
    requires Linked(s) && Counted(s) && Regular(step) && Next(s, step, always).ok
    ensures Counted(Next(s, step, always).state)
  {
    hide Counted, VolumeAdded, Set, Fenced, Touched, Left, TiebreakerSet, UpdatedIf, SameSettings, SameMinors, NodesCreated;
    match step
    case CreateResource(name) =>
      assert Counted(ResourceListed(s, name)) by { ListedCounted(s, name); }
      NodesCreatedCounted(ResourceListed(s, name), |s.resources|, 0);
    case On(r, change) =>
      if r < |s.resources| {
        var t := Changed(s, r, change, always).state;
        if change.AddDisk? {
          if |change.backings| == |s.resources[r].members| {
            VolumeAddedCounted(s, r, change.backings, always);
          }
        } else if change.Command? {
          if change.k < |s.resources[r].members| {
            UpdateIsOnlyCache(change.update, s, Member(s, r, change.k), always);
            SettingsAllocate(s, t);
            StaysCounted(s, t);
          }
        } else {
          if change.RemoveNode? {
            MembershipKeepsMinors(s, r, change, always);
          } else {
            OptionsKeepMinors(s, r, change, always);
          }
          FewerMembers(s, r, change, always);
          StaysCounted(s, t);
        }
      }
  }

  lemma ListedCounted(s: State, name: string)
    requires Linked(s) && Counted(s)
    ensures Counted(ResourceListed(s, name))
  {
    forall q | 0 <= q < |s.resources|
      ensures MembersCounted(ResourceListed(s, name), q)
    {
      assert MembersCounted(s, q);
    }
  }

  /** So whatever a test does to whole resources, the disk at position i has number i on
      every node. */
  lemma {:induction false} RegularRunInOrder(s: State, steps: seq<Step>, always: bool)
    requires Linked(s) && InOrder(s) && Counted(s) && (forall i :: 0 <= i < |steps| ==> Regular(steps[i]))
    requires Replay(s, steps, always).ok
    ensures InOrder(Replay(s, steps, always).state) && Counted(Replay(s, steps, always).state)
    decreases |steps|
  {
    hide InOrder, Counted, Next, Exceeds, Regular;
    if steps != [] {
      assert Regular(steps[0]) && forall i :: 0 <= i < |steps[1..]| ==> Regular(steps[1..][i]);
      var o := Next(s, steps[0], always);
      CountedNeverExceeds(s, steps[0]);
      NextInOrder(s, steps[0], always);
      NextCounted(s, steps[0], always);
      RegularRunInOrder(o.state, steps[1..], always);
    }
  }
}
