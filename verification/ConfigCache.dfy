/** The flag `config_changed` as a cache: which steps keep every member's file current or
    its node marked, and that the cache cannot then be noticed. */
module ConfigCache {
  import opened Wrappers
  import opened NodeConfig
  import opened ConfigErrors
  import opened ConfigSizes
  import opened ClusterState
  import opened ClusterAllocation
  import OrderedSets

  // ---- current files ----

  ghost predicate IsMember(s: State, n: nat)
    requires Linked(s)
  {
    n < |s.nodes| && n in s.resources[s.nodes[n].resource].members
  }

  /** The node is marked, or its file is what config() returns now. */
  ghost predicate Fresh(s: State, n: nat)
    requires Linked(s) && n < |s.nodes|
  {
    s.nodes[n].marked || (Found(s, n).Some? && Found(s, n) == Current(s, n))
  }

  /** Every member is, but for those of some resources. */
  ghost predicate CoherentBut(s: State, stale: set<nat>)
    requires Linked(s)
  {
    forall n :: 0 <= n < |s.nodes| && IsMember(s, n) && s.nodes[n].resource !in stale ==> Fresh(s, n)
  }

  /** Two nodes whose files have the same path. */
  ghost predicate SameFile(s: State, m: nat, n: nat)
    requires Linked(s) && m < |s.nodes| && n < |s.nodes|
  {
    s.nodes[m].host == s.nodes[n].host
    && s.resources[s.nodes[m].resource].name == s.resources[s.nodes[n].resource].name
  }

  /** No two members share a file, unless they are of one resource and have one fencing
      mode, so that their configurations are equal. */
  ghost predicate Private(s: State)
    requires Linked(s)
  {
    forall m, n :: 0 <= m < |s.nodes| && 0 <= n < |s.nodes| && IsMember(s, m) && IsMember(s, n) && SameFile(s, m, n) ==>
                     s.nodes[m].resource == s.nodes[n].resource && s.nodes[m].fencing == s.nodes[n].fencing
  }

  lemma PrivateSame(s: State, m: nat, n: nat)
    requires Linked(s) && Private(s) && IsMember(s, m) && IsMember(s, n) && SameFile(s, m, n)
    ensures Current(s, m) == Current(s, n) && s.nodes[m].resource == s.nodes[n].resource
  {
    hide Config, Info;
  }

  // ---- what is the same ----

  /** Nothing that the members of resource q write has changed. */
  ghost predicate Untouched(s: State, t: State, q: nat) {
    q < |s.resources| <= |t.resources| && |s.nodes| <= |t.nodes| && |t.hosts| == |s.hosts|
    && t.resources[q].(count := 0) == s.resources[q].(count := 0)
    && (forall n :: 0 <= n < |s.nodes| && s.nodes[n].resource == q ==> t.nodes[n] == s.nodes[n])
    && (forall h :: 0 <= h < |s.hosts| ==> SameHost(s.hosts[h], t.hosts[h]))
  }

  ghost predicate SameHost(a: HostState, b: HostState) {
    b.(files := map[], minors := 0, port := 0) == a.(files := map[], minors := 0, port := 0)
  }

  ghost predicate SameFiles(s: State, t: State) {
    |t.hosts| == |s.hosts| && forall h :: 0 <= h < |s.hosts| ==> t.hosts[h].files == s.hosts[h].files
  }

  lemma SameHostInfo(a: HostState, b: HostState, n: NodeState)
    requires SameHost(a, b)
    ensures InfoOf(a, n) == InfoOf(b, n) && a.osId == b.osId && a.osVersion == b.osVersion
  {
    hide VolumeInfos;
    var c, d := a.(files := map[], minors := 0, port := 0), b.(files := map[], minors := 0, port := 0);
    assert c.name == d.name && c.hostname == d.hostname && c.addrs == d.addrs && c.osId == d.osId && c.osVersion == d.osVersion;
  }

  lemma UntouchedInfo(s: State, t: State, q: nat)
    requires Linked(s) && Linked(t) && Untouched(s, t, q)
    ensures Info(s, q) == Info(t, q)
  {
    hide InfoOf, SameHost;
    var a, b := s.resources[q], t.resources[q];
    assert a.(count := 0).members == b.(count := 0).members && a.(count := 0).name == b.(count := 0).name;
    assert MembersLinked(s, q);
    forall i | 0 <= i < |a.members|
      ensures Info(s, q).nodes[i] == Info(t, q).nodes[i]
    {
      var n := a.members[i];
      assert n in a.members;
      SameHostInfo(s.hosts[s.nodes[n].host], t.hosts[s.nodes[n].host], s.nodes[n]);
    }
    assert Info(s, q).nodes == Info(t, q).nodes;
  }

  /** So what they write is the same, and a node is as current as it was if its file is the
      same. */
  lemma UntouchedFresh(s: State, t: State, n: nat)
    requires Linked(s) && Linked(t) && n < |s.nodes| && Untouched(s, t, s.nodes[n].resource)
    ensures Current(s, n) == Current(t, n)
    ensures Found(s, n) == Found(t, n) ==> (Fresh(s, n) <==> Fresh(t, n))
    ensures IsMember(s, n) <==> IsMember(t, n)
  {
    hide Config, Info;
    UntouchedInfo(s, t, s.nodes[n].resource);
    SameHostInfo(s.hosts[s.nodes[n].host], t.hosts[s.nodes[n].host], s.nodes[n]);
    var a, b := s.resources[s.nodes[n].resource], t.resources[s.nodes[n].resource];
    assert a.(count := 0).members == b.(count := 0).members;
  }

  lemma UntouchedFound(s: State, t: State, n: nat)
    requires Linked(s) && Linked(t) && n < |s.nodes| && Untouched(s, t, s.nodes[n].resource) && SameFiles(s, t)
    ensures Found(s, n) == Found(t, n)
  {
    var a, b := s.resources[s.nodes[n].resource], t.resources[s.nodes[n].resource];
    assert a.(count := 0).name == b.(count := 0).name;
  }

  // ---- writing a file ----

  lemma SettingsSay(s: State, t: State, n: nat)
    requires Linked(s) && Linked(t) && SameSettings(s, t) && n < |s.nodes|
    ensures Current(s, n) == Current(t, n) && (CanWrite(s, n) <==> CanWrite(t, n))
  {
    hide Config, WritableState;
    SameSettingsInfo(s, t, s.nodes[n].resource);
    assert t.nodes[n].(marked := false) == s.nodes[n].(marked := false);
    assert t.nodes[n].fencing == s.nodes[n].fencing && t.nodes[n].host == s.nodes[n].host && t.nodes[n].resource == s.nodes[n].resource;
    SameHostInfo(s.hosts[s.nodes[n].host], t.hosts[s.nodes[n].host], s.nodes[n]);
  }

  lemma SameSettingsInfo(s: State, t: State, q: nat)
    requires Linked(s) && Linked(t) && SameSettings(s, t) && q < |s.resources|
    ensures Info(s, q) == Info(t, q)
  {
    hide InfoOf, SameHost;
    var ms := s.resources[q].members;
    assert MembersLinked(s, q);
    forall i | 0 <= i < |ms|
      ensures Info(s, q).nodes[i] == Info(t, q).nodes[i]
    {
      var n := ms[i];
      assert n in ms;
      SettingsInfoOf(s, t, n);
    }
    assert Info(s, q).nodes == Info(t, q).nodes;
  }

  lemma SettingsInfoOf(s: State, t: State, n: nat)
    requires Linked(s) && Linked(t) && SameSettings(s, t) && n < |s.nodes|
    ensures InfoOf(s.hosts[s.nodes[n].host], s.nodes[n]) == InfoOf(t.hosts[t.nodes[n].host], t.nodes[n])
  {
    var a, b := s.nodes[n], t.nodes[n];
    assert a.(marked := false) == b.(marked := false);
    assert a.id == b.id && a.port == b.port && a.volumes == b.volumes && a.host == b.host;
    SameHostInfo(s.hosts[a.host], t.hosts[a.host], a);
  }

  /** Which updates raise, and which file everybody finds afterwards. */
  lemma UpdatedIs(s: State, n: nat)
    requires Linked(s) && n < |s.nodes|
    ensures var o := Updated(s, n, false);
            (o.ok <==> !s.nodes[n].marked || CanWrite(s, n))
            && !o.state.nodes[n].marked
            && (forall m :: 0 <= m < |s.nodes| && m != n ==> o.state.nodes[m] == s.nodes[m])
            && (forall m :: 0 <= m < |s.nodes| ==>
                  Found(o.state, m) == if s.nodes[n].marked && o.ok && SameFile(s, m, n) then Current(s, n) else Found(s, m))
  {
    hide Config, WritableState;
    ConfigRaisesIff(Me(s, n), Info(s, s.nodes[n].resource));
  }

  /** Another node is current after the update iff it was, and its file was not
      overwritten with another text. */
  lemma FreshAfterUpdate(s: State, n: nat, m: nat)
    requires Linked(s) && n < |s.nodes| && m < |s.nodes| && m != n && Updated(s, n, false).ok
    ensures Fresh(Updated(s, n, false).state, m) <==>
            if s.nodes[n].marked && SameFile(s, m, n)
            then s.nodes[m].marked || (Current(s, m) == Current(s, n) && Current(s, m).Some?)
            else Fresh(s, m)
  {
    hide Config, WritableState, SameSettings, Updated;
    var t := Updated(s, n, false).state;
    UpdatedIs(s, n);
    assert Updated(s, n, false) == UpdatedIf(true, s, n, false);
    UpdateIsOnlyCache(true, s, n, false);
    SettingsSay(s, t, m);
  }

  /** An updated node's file is current: the update has just written it, or it was. */
  lemma CurrentAfterUpdate(s: State, n: nat)
    requires Linked(s) && n < |s.nodes| && Updated(s, n, false).ok
    ensures Fresh(Updated(s, n, false).state, n) <==> Fresh(s, n)
    ensures Fresh(s, n) ==> Found(Updated(s, n, false).state, n) == Current(s, n) && Current(s, n).Some?
    ensures Current(Updated(s, n, false).state, n) == Current(s, n)
  {
    hide Config, WritableState, SameSettings, Updated;
    var t := Updated(s, n, false).state;
    UpdatedIs(s, n);
    assert Updated(s, n, false) == UpdatedIf(true, s, n, false);
    UpdateIsOnlyCache(true, s, n, false);
    SettingsSay(s, t, n);
    ConfigRaisesIff(Me(s, n), Info(s, s.nodes[n].resource));
  }

  // ---- what steps keep ----

  /** The same members of the same resources, by name, on the same hosts, with the same
      fencing modes. */
  ghost predicate SamePeers(s: State, t: State) {
    |t.nodes| == |s.nodes| && |t.resources| == |s.resources|
    && (forall n :: 0 <= n < |s.nodes| ==> t.nodes[n].host == s.nodes[n].host && t.nodes[n].resource == s.nodes[n].resource
                                           && t.nodes[n].fencing == s.nodes[n].fencing)
    && (forall r :: 0 <= r < |s.resources| ==>
          t.resources[r].name == s.resources[r].name && t.resources[r].members == s.resources[r].members)
  }

  lemma StaysPrivate(s: State, t: State)
    requires Linked(s) && Linked(t) && SamePeers(s, t) && Private(s)
    ensures Private(t)
  {
    forall m, n | 0 <= m < |t.nodes| && 0 <= n < |t.nodes| && IsMember(t, m) && IsMember(t, n) && SameFile(t, m, n)
      ensures t.nodes[m].resource == t.nodes[n].resource && t.nodes[m].fencing == t.nodes[n].fencing
    {
      assert IsMember(s, m) && IsMember(s, n) && SameFile(s, m, n);
    }
  }

  lemma SettingsPeers(s: State, t: State)
    requires SameSettings(s, t)
    ensures SamePeers(s, t)
  {
    forall n | 0 <= n < |s.nodes|
      ensures t.nodes[n].host == s.nodes[n].host && t.nodes[n].resource == s.nodes[n].resource
      ensures t.nodes[n].fencing == s.nodes[n].fencing
    {
      assert t.nodes[n].(marked := false) == s.nodes[n].(marked := false);
    }
  }

  /** While members do not share files, updating one leaves the others as current as they
      were. */
  lemma UpdateKeeps(update: bool, s: State, n: nat, stale: set<nat>)
    requires Linked(s) && Private(s) && CoherentBut(s, stale) && IsMember(s, n)
    requires UpdatedIf(update, s, n, false).ok
    ensures var t := UpdatedIf(update, s, n, false).state;
            Private(t) && CoherentBut(t, stale) && IsMember(t, n)
  {
    hide Config, WritableState, SameSettings, Updated, Private, Fresh;
    var t := UpdatedIf(update, s, n, false).state;
    UpdateIsOnlyCache(update, s, n, false);
    SettingsPeers(s, t);
    StaysPrivate(s, t);
    if update {
      UpdatedIs(s, n);
      CurrentAfterUpdate(s, n);
      ConfigRaisesIff(Me(s, n), Info(s, s.nodes[n].resource));
      forall m | 0 <= m < |t.nodes| && IsMember(t, m) && t.nodes[m].resource !in stale
        ensures Fresh(t, m)
      {
        OtherStaysFresh(s, n, m);
      }
    }
  }

  lemma OtherStaysFresh(s: State, n: nat, m: nat)
    requires Linked(s) && Private(s) && IsMember(s, n) && IsMember(s, m) && Fresh(s, m) && Updated(s, n, false).ok
    ensures Fresh(Updated(s, n, false).state, m)
  {
    hide Config, WritableState, Updated, Private;
    if m == n {
      CurrentAfterUpdate(s, n);
    } else {
      FreshAfterUpdate(s, n, m);
      if s.nodes[n].marked && SameFile(s, m, n) {
        PrivateSame(s, m, n);
        UpdatedIs(s, n);
        ConfigRaisesIff(Me(s, n), Info(s, s.nodes[n].resource));
      }
    }
  }

  /** Nothing has changed but resource r and its nodes, files aside. */
  ghost predicate OnlyOn(s: State, t: State, r: nat) {
    Extends(s, t) && (forall n :: |s.nodes| <= n < |t.nodes| ==> t.nodes[n].resource == r)
    && (forall q :: 0 <= q < |s.resources| && q != r ==> Untouched(s, t, q))
  }

  /** A step without commands leaves the other resources as current as they were. */
  lemma OthersKeep(s: State, t: State, r: nat, stale: set<nat>)
    requires Linked(s) && Linked(t) && CoherentBut(s, stale) && SameFiles(s, t) && OnlyOn(s, t, r)
    ensures CoherentBut(t, stale + {r})
  {
    hide Fresh, Untouched, SameFiles;
    forall n | 0 <= n < |t.nodes| && IsMember(t, n) && t.nodes[n].resource !in stale + {r}
      ensures Fresh(t, n)
    {
      UntouchedFound(s, t, n);
      UntouchedFresh(s, t, n);
    }
  }

  /** Marking all members of a resource makes it current, whatever was wrong before. */
  lemma MarkingHeals(t: State, r: nat, stale: set<nat>)
    requires Linked(t) && r < |t.resources| && CoherentBut(t, stale + {r}) && AllMarked(t, t.resources[r].members)
    ensures CoherentBut(t, stale - {r})
  {
    forall n | 0 <= n < |t.nodes| && IsMember(t, n) && t.nodes[n].resource == r
      ensures t.nodes[n].marked
    {
      var i :| 0 <= i < |t.resources[r].members| && t.resources[r].members[i] == n;
    }
  }

  // ---- each step on one resource ----

  lemma SetMarks(s: State, r: nat, change: Change)
    requires Linked(s) && r < |s.resources| && IsSetter(change)
    ensures var t := Set(s, r, change);
            OnlyOn(s, t, r) && SameFiles(s, t) && AllMarked(t, t.resources[r].members)
  {
    assert MembersLinked(s, r);
    MembersIn(s, r);
  }

  lemma MembersIn(s: State, r: nat)
    requires Linked(s) && r < |s.resources|
    ensures var ms := s.resources[r].members;
            forall i :: 0 <= i < |ms| ==> ms[i] in ms && ms[i] < |s.nodes| && s.nodes[ms[i]].resource == r
  {
    assert MembersLinked(s, r);
    var ms := s.resources[r].members;
    assert forall i :: 0 <= i < |ms| ==> ms[i] in ms;
  }

  lemma FencedMarks(s: State, r: nat, mode: string)
    requires Linked(s) && r < |s.resources|
    ensures var t := Fenced(s, s.resources[r].members, mode);
            OnlyOn(s, t, r) && SameFiles(s, t) && AllMarked(t, t.resources[r].members)
  {
    assert MembersLinked(s, r);
    MembersIn(s, r);
  }

  lemma TouchedMarks(s: State, r: nat)
    requires Linked(s) && r < |s.resources|
    ensures var t := Touched(s, s.resources[r].members);
            OnlyOn(s, t, r) && SameFiles(s, t) && AllMarked(t, t.resources[r].members)
  {
    assert MembersLinked(s, r);
    MembersIn(s, r);
  }

  lemma OnlyOnThen(s: State, t: State, u: State, r: nat)
    requires OnlyOn(s, t, r) && OnlyOn(t, u, r)
    ensures OnlyOn(s, u, r)
  {
    forall q | 0 <= q < |s.resources| && q != r
      ensures Untouched(s, u, q)
    {
      assert Untouched(s, t, q) && Untouched(t, u, q);
      assert forall h :: 0 <= h < |s.hosts| ==> SameHost(s.hosts[h], t.hosts[h]) && SameHost(t.hosts[h], u.hosts[h]);
    }
  }

  lemma TiebreakerMarks(s: State, r: nat, k: nat, position: nat, answer: Option<bool>)
    requires Linked(s) && r < |s.resources| && k < |s.resources[r].members|
    requires position < |s.nodes[Member(s, r, k)].volumes|
    ensures var t := Touched(TiebreakerSet(s, Member(s, r, k), position, answer), s.resources[r].members);
            OnlyOn(s, t, r) && SameFiles(s, t) && AllMarked(t, t.resources[r].members)
  {
    hide Touched;
    var t := TiebreakerSet(s, Member(s, r, k), position, answer);
    assert OnlyOn(s, t, r) && SameFiles(s, t);
    TouchedMarks(t, r);
    OnlyOnThen(s, t, Touched(t, s.resources[r].members), r);
  }

  lemma JoinedMarks(s: State, r: nat, n: nat)
    requires Linked(s) && r < |s.resources| && n < |s.nodes| && s.nodes[n].resource == r
    ensures var t := Joined(s, r, n); var u := Touched(t, t.resources[r].members);
            OnlyOn(s, u, r) && SameFiles(s, u) && AllMarked(u, u.resources[r].members)
  {
    hide Touched;
    var t := Joined(s, r, n);
    assert OnlyOn(s, t, r) && SameFiles(s, t);
    TouchedMarks(t, r);
    OnlyOnThen(s, t, Touched(t, t.resources[r].members), r);
  }

  lemma LeftMarks(s: State, r: nat, n: nat)
    requires Linked(s) && r < |s.resources|
    ensures var t := Left(s, r, n); var u := Touched(t, t.resources[r].members);
            OnlyOn(s, u, r) && SameFiles(s, u) && AllMarked(u, u.resources[r].members)
  {
    hide Touched, OrderedSets.RemoveFirst;
    var t := Left(s, r, n);
    assert OnlyOn(s, t, r) && SameFiles(s, t);
    TouchedMarks(t, r);
    OnlyOnThen(s, t, Touched(t, t.resources[r].members), r);
  }

  lemma CreatedOnly(s: State, r: nat, h: nat)
    requires Linked(s) && r < |s.resources| && h < |s.hosts|
    ensures var t := NodeCreated(s, r, h); OnlyOn(s, t, r) && SameFiles(s, t)
  {
  }

  lemma RemovedOnly(s: State, n: nat)
    requires Linked(s) && n < |s.nodes|
    ensures var t := DisksRemoved(s, n); OnlyOn(s, t, s.nodes[n].resource) && SameFiles(s, t)
  {
  }

  lemma ListedOnly(s: State, n: nat, v: VolumeState)
    requires Linked(s) && n < |s.nodes|
    ensures var t := VolumeListed(s, n, v); OnlyOn(s, t, s.nodes[n].resource) && SameFiles(s, t)
  {
    hide Placed;
  }

  lemma TakenOnly(s: State, n: nat, number: nat)
    requires Linked(s) && n < |s.nodes|
    ensures var t := MinorTaken(s, n, number); OnlyOn(s, t, s.nodes[n].resource) && SameFiles(s, t)
    ensures forall m :: 0 <= m < |s.nodes| ==> Untouched(s, MinorTaken(s, n, number), s.nodes[m].resource)
  {
  }

  lemma UpdatedOnly(update: bool, s: State, n: nat, always: bool)
    requires Linked(s) && n < |s.nodes|
    ensures OnlyOn(s, UpdatedIf(update, s, n, always).state, s.nodes[n].resource)
  {
    hide Config;
  }

  // ---- Resource.add_disk ----

  lemma DiskAddedKeeps(s: State, n: nat, number: nat, backing: Option<Backing>, stale: set<nat>)
    requires Linked(s) && Private(s) && CoherentBut(s, stale) && IsMember(s, n) && s.nodes[n].resource in stale
    requires DiskAdded(s, n, number, backing, false).ok
    ensures var t := DiskAdded(s, n, number, backing, false).state;
            Private(t) && CoherentBut(t, stale) && SamePeers(s, t)
  {
    hide Private, Fresh, UpdatedIf, VolumeListed, MinorTaken, OnlyOn, SameFiles, SameSettings, CoherentBut;
    var r := s.nodes[n].resource;
    var taken := MinorTaken(s, n, number);
    TakenOnly(s, n, number);
    OthersKeep(s, taken, r, stale);
    assert stale + {r} == stale;
    assert SamePeers(s, taken) by { TakenPeers(s, n, number); }
    StaysPrivate(s, taken);
    var zero := backing.Some? && backing.value.zeroOut;
    var u := UpdatedIf(zero, taken, n, false).state;
    UpdateKeeps(zero, taken, n, stale);
    UpdateIsOnlyCache(zero, taken, n, false);
    SettingsPeers(taken, u);
    var v := NewVolume(number, MinorFor(s, n, number), backing);
    ListedOnly(u, n, v);
    OthersKeep(u, VolumeListed(u, n, v), r, stale);
    assert SamePeers(u, VolumeListed(u, n, v)) by { ListedPeers(u, n, v); }
    StaysPrivate(u, VolumeListed(u, n, v));
  }

  lemma TakenPeers(s: State, n: nat, number: nat)
    requires Linked(s) && n < |s.nodes|
    ensures SamePeers(s, MinorTaken(s, n, number)) && IsMember(s, n) == IsMember(MinorTaken(s, n, number), n)
  {
  }

  lemma ListedPeers(s: State, n: nat, v: VolumeState)
    requires Linked(s) && n < |s.nodes|
    ensures SamePeers(s, VolumeListed(s, n, v))
  {
    hide Placed;
  }

  ghost predicate MembersOf(s: State, ms: seq<nat>, r: nat)
    requires Linked(s)
  {
    forall n :: n in ms ==> IsMember(s, n) && s.nodes[n].resource == r
  }

  lemma {:induction false} DisksAddedKeeps(s: State, ms: seq<nat>, number: nat, backings: seq<Option<Backing>>, r: nat, stale: set<nat>)
    requires Linked(s) && Private(s) && CoherentBut(s, stale) && MembersOf(s, ms, r) && r in stale && |backings| == |ms|
    requires DisksAdded(s, ms, number, backings, false).ok
    ensures var t := DisksAdded(s, ms, number, backings, false).state;
            Private(t) && CoherentBut(t, stale)
    decreases |ms|
  {
    hide Private, CoherentBut, DiskAdded;
    if ms != [] {
      assert ms[0] in ms && forall n :: n in ms[1..] ==> n in ms;
      var t := DiskAdded(s, ms[0], number, backings[0], false).state;
      DiskAddedKeeps(s, ms[0], number, backings[0], stale);
      assert MembersOf(t, ms[1..], r);
      DisksAddedKeeps(t, ms[1..], number, backings[1..], r, stale);
    }
  }

  lemma {:induction false} MetadataKeeps(s: State, ms: seq<nat>, backings: seq<Option<Backing>>, r: nat, stale: set<nat>)
    requires Linked(s) && Private(s) && CoherentBut(s, stale) && MembersOf(s, ms, r) && |backings| == |ms|
    requires MetadataCreated(s, ms, backings, false).ok
    ensures var t := MetadataCreated(s, ms, backings, false).state;
            Private(t) && CoherentBut(t, stale)
    decreases |ms|
  {
    hide Private, CoherentBut, UpdatedIf, SameSettings;
    if ms != [] {
      assert ms[0] in ms && forall n :: n in ms[1..] ==> n in ms;
      var t := UpdatedIf(backings[0].Some?, s, ms[0], false).state;
      UpdateKeeps(backings[0].Some?, s, ms[0], stale);
      UpdateIsOnlyCache(backings[0].Some?, s, ms[0], false);
      SettingsPeers(s, t);
      assert MembersOf(t, ms[1..], r);
      MetadataKeeps(t, ms[1..], backings[1..], r, stale);
    }
  }

  /** Adding a volume to all members leaves the resource current. */
  lemma VolumeAddedKeeps(s: State, r: nat, backings: seq<Option<Backing>>, stale: set<nat>)
    requires Linked(s) && r < |s.resources| && |backings| == |s.resources[r].members|
    requires Private(s) && CoherentBut(s, stale) && VolumeAdded(s, r, backings, false).ok
    ensures var t := VolumeAdded(s, r, backings, false).state;
            Private(t) && CoherentBut(t, stale - {r})
  {
    hide Private, CoherentBut, DisksAdded, MetadataCreated, OnlyOn, SameFiles, GotVolumes, AllMarked;
    var rs := s.resources[r];
    assert MembersLinked(s, r);
    var counted := WithResource(s, r, rs.(count := rs.count + 1));
    assert OnlyOn(s, counted, r) && SameFiles(s, counted) by { CountedOnly(s, r); }
    OthersKeep(s, counted, r, stale);
    assert SamePeers(s, counted);
    StaysPrivate(s, counted);
    assert MembersOf(counted, rs.members, r);
    DisksAddedIs(counted, rs.members, rs.count, backings, false);
    DisksAddedKeeps(counted, rs.members, rs.count, backings, r, stale + {r});
    var t := DisksAdded(counted, rs.members, rs.count, backings, false).state;
    MarkingHeals(t, r, stale);
    assert MembersOf(t, rs.members, r);
    MetadataKeeps(t, rs.members, backings, r, stale - {r});
  }

  lemma CountedOnly(s: State, r: nat)
    requires Linked(s) && r < |s.resources|
    ensures var t := s.(resources := s.resources[r := s.resources[r].(count := s.resources[r].count + 1)]);
            OnlyOn(s, t, r) && SameFiles(s, t)
  {
  }

  // ---- what add_disk has written ----

  /** The node is one of these, and gets storage. */
  ghost predicate WithStorage(ms: seq<nat>, backings: seq<Option<Backing>>, n: nat)
    requires |backings| == |ms|
  {
    exists i :: 0 <= i < |ms| && ms[i] == n && backings[i].Some?
  }

  lemma {:induction false} MetadataMarks(s: State, ms: seq<nat>, backings: seq<Option<Backing>>, n: nat)
    requires Linked(s) && Among(s, ms) && |backings| == |ms| && n < |s.nodes|
    requires MetadataCreated(s, ms, backings, false).ok
    ensures var t := MetadataCreated(s, ms, backings, false).state;
            |t.nodes| == |s.nodes| && (t.nodes[n].marked <==> s.nodes[n].marked && !WithStorage(ms, backings, n))
    decreases |ms|
  {
    hide Updated;
    if ms != [] {
      assert ms[0] in ms && forall m :: m in ms[1..] ==> m in ms;
      var o := UpdatedIf(backings[0].Some?, s, ms[0], false);
      if backings[0].Some? {
        UpdateClears(s, ms[0], n);
      }
      MetadataMarks(o.state, ms[1..], backings[1..], n);
      FirstOrRest(ms, backings, n);
    }
  }

  lemma FirstOrRest(ms: seq<nat>, backings: seq<Option<Backing>>, n: nat)
    requires |backings| == |ms| > 0
    ensures WithStorage(ms, backings, n) <==> (ms[0] == n && backings[0].Some?) || WithStorage(ms[1..], backings[1..], n)
  {
    if WithStorage(ms[1..], backings[1..], n) {
      var i :| 0 <= i < |ms| - 1 && ms[1..][i] == n && backings[1..][i].Some?;
      assert ms[i + 1] == n && backings[i + 1].Some?;
    }
    if WithStorage(ms, backings, n) {
      var i :| 0 <= i < |ms| && ms[i] == n && backings[i].Some?;
      assert i > 0 ==> ms[1..][i - 1] == n && backings[1..][i - 1].Some?;
    }
  }

  lemma UpdateClears(s: State, n: nat, m: nat)
    requires Linked(s) && n < |s.nodes| && m < |s.nodes| && Updated(s, n, false).ok
    ensures Updated(s, n, false).state.nodes[m].marked <==> s.nodes[m].marked && m != n
  {
    hide Current;
  }

  /** After add_disk the files of exactly the diskless members are still to be written: the
      metadata of the others was created with the new configuration. */
  lemma VolumeAddedMarks(s: State, r: nat, backings: seq<Option<Backing>>, n: nat)
    requires Linked(s) && r < |s.resources| && |backings| == |s.resources[r].members| && n < |s.nodes|
    requires VolumeAdded(s, r, backings, false).ok
    ensures var t, ms := VolumeAdded(s, r, backings, false).state, s.resources[r].members;
            |t.nodes| == |s.nodes| && (t.nodes[n].marked <==> if n in ms then !WithStorage(ms, backings, n) else s.nodes[n].marked)
  {
    hide DisksAdded, MetadataCreated, GotVolumes;
    var rs := s.resources[r];
    assert MembersLinked(s, r);
    var counted := WithResource(s, r, rs.(count := rs.count + 1));
    DisksAddedIs(counted, rs.members, rs.count, backings, false);
    MetadataMarks(DisksAdded(counted, rs.members, rs.count, backings, false).state, rs.members, backings, n);
    if WithStorage(rs.members, backings, n) {
      assert n in rs.members;
    }
  }

  // ---- which changes show in the text ----

  lemma LongerText(me: Own, r: ResourceInfo, r': ResourceInfo, i: nat)
    requires i < |r.nodes| && |r'.nodes| == |r.nodes| && r' == r.(nodes := r.nodes[i := r'.nodes[i]])
    requires var n, m := r.nodes[i], r'.nodes[i];
             n.(volumes := []) == m.(volumes := []) && |n.volumes| < |m.volumes| && m.volumes[..|n.volumes|] == n.volumes
    ensures Config(me, r).Some? || Config(me, r').Some? ==> Config(me, r) != Config(me, r')
  {
    hide Config;
    if Config(me, r).Some? && Config(me, r').Some? {
      VolumesChangeText(me, r, r', i);
    }
  }

  lemma WiderText(me: Own, r: ResourceInfo, r': ResourceInfo, m: NodeInfo)
    requires r' == r.(nodes := r.nodes + [m])
    ensures Config(me, r).Some? ==> Config(me, r) != Config(me, r')
  {
    hide Config;
    if Config(me, r).Some? && Config(me, r').Some? {
      NodeChangesText(me, r, r', m);
    }
  }

  lemma ReplacedText(me: Own, r: ResourceInfo, r': ResourceInfo, i: nat, k: nat)
    requires CleanState(me, r) && CleanState(me, r')
    requires i < |r.nodes| && |r'.nodes| == |r.nodes| && r' == r.(nodes := r.nodes[i := r'.nodes[i]])
    requires var n, m := r.nodes[i], r'.nodes[i];
             k < |n.volumes| && |m.volumes| == |n.volumes| && m == n.(volumes := n.volumes[k := m.volumes[k]])
             && m.volumes[k].minor == n.volumes[k].minor
    ensures Config(me, r) == Config(me, r') <==> SameVolume(r.nodes[i].volumes[k], r'.nodes[i].volumes[k])
  {
    hide Config, CleanState, VolumeLines, SameVolume;
    var v, w := r.nodes[i].volumes[k], r'.nodes[i].volumes[k];
    SameVolumeIff(v, w);
    if Config(me, r) == Config(me, r') {
      VolumeDetermined(me, r, me, r', i, k);
    }
    if SameVolume(v, w) {
      assert forall j :: 0 <= j < |r.nodes| ==> SameNode(r.nodes[j], r'.nodes[j]);
      SameConfig(me, r, r');
    }
  }

  /** One member's volumes have changed, and nothing else that is written. */
  ghost predicate OtherVolumes(s: State, t: State, n: nat) {
    n < |s.nodes| && n < |t.nodes| && t == s.(nodes := s.nodes[n := t.nodes[n]])
    && t.nodes[n].(volumes := [], marked := false) == s.nodes[n].(volumes := [], marked := false)
  }

  lemma InfoOfOther(s: State, t: State, n: nat) returns (i: nat)
    requires Linked(s) && Linked(t) && OtherVolumes(s, t, n) && IsMember(s, n)
    ensures var r := s.nodes[n].resource;
            i < |Info(s, r).nodes|
            && Info(s, r).nodes[i] == InfoOf(s.hosts[s.nodes[n].host], s.nodes[n])
            && Info(t, r) == Info(s, r).(nodes := Info(s, r).nodes[i := InfoOf(s.hosts[s.nodes[n].host], t.nodes[n])])
    ensures t.nodes[n].host == s.nodes[n].host && t.nodes[n].resource == s.nodes[n].resource
    ensures InfoOf(s.hosts[s.nodes[n].host], t.nodes[n])
         == InfoOf(s.hosts[s.nodes[n].host], s.nodes[n]).(volumes := VolumeInfos(t.nodes[n].volumes))
  {
    hide VolumeInfos;
    var r := s.nodes[n].resource;
    var ms := s.resources[r].members;
    i :| 0 <= i < |ms| && ms[i] == n;
    var a, b := s.nodes[n].(volumes := [], marked := false), t.nodes[n].(volumes := [], marked := false);
    assert a.host == b.host && a.resource == b.resource && a.id == b.id && a.port == b.port;
    MembersIn(s, r);
    assert MembersLinked(s, r);
    forall j | 0 <= j < |ms|
      ensures Info(t, r).nodes[j] == if j == i then InfoOf(s.hosts[s.nodes[n].host], t.nodes[n]) else Info(s, r).nodes[j]
    {
      assert j != i ==> t.nodes[ms[j]] == s.nodes[ms[j]];
    }
    assert Info(t, r).nodes == Info(s, r).nodes[i := InfoOf(s.hosts[s.nodes[n].host], t.nodes[n])];
  }

  lemma OtherMember(s: State, t: State, n: nat, m: nat)
    requires Linked(s) && Linked(t) && OtherVolumes(s, t, n) && m < |s.nodes|
    ensures Me(t, m) == Me(s, m) && Found(t, m) == Found(s, m) && (m != n ==> t.nodes[m] == s.nodes[m])
    ensures t.nodes[m].resource == s.nodes[m].resource
  {
    var a, b := s.nodes[n].(volumes := [], marked := false), t.nodes[n].(volumes := [], marked := false);
    assert a.host == b.host && a.resource == b.resource && a.fencing == b.fencing;
  }

  /** A volume more or fewer volumes on a member leave every member stale that is not
      marked. */
  lemma LengthShows(s: State, t: State, n: nat, m: nat)
    requires Linked(s) && Linked(t) && OtherVolumes(s, t, n) && IsMember(s, n)
    requires m < |s.nodes| && s.nodes[m].resource == s.nodes[n].resource
    requires Found(s, m).Some? && Found(s, m) == Current(s, m)
    requires var a, b := s.nodes[n].volumes, t.nodes[n].volumes;
             (|a| < |b| && b[..|a|] == a) || (|b| < |a| && a[..|b|] == b)
    ensures Found(t, m) != Current(t, m)
  {
    hide Config, Info, InfoOf;
    var r := s.nodes[n].resource;
    var a, b := s.nodes[n].volumes, t.nodes[n].volumes;
    var i := InfoOfOther(s, t, n);
    OtherMember(s, t, n, m);
    assert |a| < |b| ==> VolumeInfos(b)[..|a|] == VolumeInfos(a);
    assert |b| < |a| ==> VolumeInfos(a)[..|b|] == VolumeInfos(b);
    assert InfoOf(s.hosts[s.nodes[n].host], s.nodes[n]).volumes == VolumeInfos(a) by { VolumesIn(s.hosts[s.nodes[n].host], s.nodes[n]); }
    if |a| < |b| {
      LongerText(Me(s, m), Info(s, r), Info(t, r), i);
    } else {
      LongerText(Me(s, m), Info(t, r), Info(s, r), i);
    }
  }

  lemma VolumesIn(h: HostState, n: NodeState)
    ensures InfoOf(h, n).volumes == VolumeInfos(n.volumes)
  {
  }

  /** With clean names, a replaced volume shows iff the configuration says something else
      of it. */
  lemma ReplacementShows(s: State, t: State, n: nat, m: nat, k: nat)
    requires Linked(s) && Linked(t) && OtherVolumes(s, t, n) && IsMember(s, n)
    requires m < |s.nodes| && s.nodes[m].resource == s.nodes[n].resource
    requires Found(s, m).Some? && Found(s, m) == Current(s, m)
    requires CleanState(Me(s, m), Info(s, s.nodes[n].resource)) && CleanState(Me(t, m), Info(t, s.nodes[n].resource))
    requires k < |s.nodes[n].volumes| == |t.nodes[n].volumes|
    requires t.nodes[n].volumes == s.nodes[n].volumes[k := t.nodes[n].volumes[k]]
    requires t.nodes[n].volumes[k].info.minor == s.nodes[n].volumes[k].info.minor
    ensures Found(t, m) == Current(t, m) <==> SameVolume(s.nodes[n].volumes[k].info, t.nodes[n].volumes[k].info)
  {
    hide Config, Info, InfoOf, CleanState, SameVolume;
    var r := s.nodes[n].resource;
    var a, b := s.nodes[n].volumes, t.nodes[n].volumes;
    var i := InfoOfOther(s, t, n);
    OtherMember(s, t, n, m);
    VolumesIn(s.hosts[s.nodes[n].host], s.nodes[n]);
    assert VolumeInfos(b) == VolumeInfos(a)[k := b[k].info];
    ReplacedText(Me(s, m), Info(s, r), Info(t, r), i, k);
  }

  /** A node more leaves every older member stale that is not marked. */
  lemma CreationShows(s: State, r: nat, h: nat, m: nat)
    requires Linked(s) && r < |s.resources| && h < |s.hosts| && m < |s.nodes| && s.nodes[m].resource == r
    requires Found(s, m).Some? && Found(s, m) == Current(s, m)
    ensures Found(NodeCreated(s, r, h), m) != Current(NodeCreated(s, r, h), m)
  {
    hide Config, InfoOf;
    var t := NodeCreated(s, r, h);
    var ms := s.resources[r].members;
    assert MembersLinked(s, r);
    MembersIn(s, r);
    forall j | 0 <= j < |ms|
      ensures Info(t, r).nodes[j] == Info(s, r).nodes[j]
    {
      SameHostInfo(s.hosts[s.nodes[ms[j]].host], t.hosts[s.nodes[ms[j]].host], s.nodes[ms[j]]);
    }
    var last := Info(t, r).nodes[|ms|];
    assert Info(t, r) == Info(s, r).(nodes := Info(s, r).nodes + [last]);
    WiderText(Me(s, m), Info(s, r), Info(t, r), last);
  }

  // ---- which resources are left stale ----

  /** The step marks every member of its resource. */
  ghost predicate Heals(s: State, r: nat, change: Change)
    requires Linked(s) && r < |s.resources|
  {
    var ms := s.resources[r].members;
    IsSetter(change) || change.SetFencing?
    || (change.SetTiebreaker? && change.k < |ms| && change.position < |s.nodes[Member(s, r, change.k)].volumes|)
    || (change.AddNode? && change.p < |s.nodes| && s.nodes[change.p].resource == r)
    || (change.RemoveNode? && change.k < |ms|)
    || (change.AddDisk? && |change.backings| == |ms|)
  }

  ghost predicate Unmarked(s: State, m: nat)
    requires Linked(s)
  {
    m < |s.nodes| && !s.nodes[m].marked
  }

  ghost predicate SomeUnmarked(s: State, ms: seq<nat>)
    requires Linked(s)
  {
    exists m :: m in ms && Unmarked(s, m)
  }

  ghost predicate OtherUnmarked(s: State, ms: seq<nat>, n: nat)
    requires Linked(s)
  {
    exists m :: m in ms && m != n && Unmarked(s, m)
  }

  /** The configuration says of the new volume what it said of the one it replaces. */
  ghost predicate ReplacesSame(s: State, n: nat, number: nat, backing: Option<Backing>)
    requires Linked(s) && n < |s.nodes|
  {
    number < |s.nodes[n].volumes|
    && SameVolume(s.nodes[n].volumes[number].info, NewVolume(number, MinorFor(s, n, number), backing).info)
  }

  /** The step changes what is written, and a member is not marked. */
  ghost predicate LeavesStale(s: State, r: nat, change: Change)
    requires Linked(s) && r < |s.resources|
  {
    var ms := s.resources[r].members;
    (change.CreateNode? && change.h < |s.hosts| && SomeUnmarked(s, ms))
    || (change.RemoveDisksOn? && change.k < |ms| && s.nodes[Member(s, r, change.k)].volumes != [] && SomeUnmarked(s, ms))
    || (change.AddDiskOn? && change.k < |ms|
        && !ReplacesSame(s, Member(s, r, change.k), change.number, change.backing) && OtherUnmarked(s, ms, ms[change.k]))
  }

  /** The resources that may be stale after a step. */
  ghost function NextStale(s: State, step: Step, stale: set<nat>): set<nat>
    requires Linked(s)
  {
    match step
    case CreateResource(_) => stale - {|s.resources|}
    case On(r, change) =>
      if r >= |s.resources| then stale
      else if Heals(s, r, change) then stale - {r}
      else if LeavesStale(s, r, change) then stale + {r}
      else stale
  }

  lemma HealingMarks(s: State, r: nat, change: Change)
    requires Linked(s) && r < |s.resources| && Heals(s, r, change) && !change.AddDisk?
    ensures var t := Changed(s, r, change, false).state;
            OnlyOn(s, t, r) && SameFiles(s, t) && r < |t.resources| && AllMarked(t, t.resources[r].members)
  {
    hide OnlyOn, SameFiles, AllMarked, Set, Fenced, Touched, Joined, Left, TiebreakerSet;
    if change.SetTiebreaker? {
      TiebreakerMarks(s, r, change.k, change.position, change.answer);
    } else if change.AddNode? {
      JoinedMarks(s, r, change.p);
    } else if change.RemoveNode? {
      LeftMarks(s, r, s.resources[r].members[change.k]);
    } else if change.SetFencing? {
      FencedMarks(s, r, change.mode);
    } else {
      SetMarks(s, r, change);
    }
  }

  lemma HealingKeeps(s: State, r: nat, change: Change, stale: set<nat>)
    requires Linked(s) && r < |s.resources| && Private(s) && CoherentBut(s, stale) && Heals(s, r, change)
    requires Changed(s, r, change, false).ok
    ensures CoherentBut(Changed(s, r, change, false).state, stale - {r})
  {
    hide Private, CoherentBut, OnlyOn, SameFiles, AllMarked, VolumeAdded, Set, Fenced, Touched, Joined, Left, TiebreakerSet;
    var t := Changed(s, r, change, false).state;
    if change.AddDisk? {
      VolumeAddedKeeps(s, r, change.backings, stale);
    } else {
      HealingMarks(s, r, change);
      OthersKeep(s, t, r, stale);
      MarkingHeals(t, r, stale);
    }
  }

  /** From one resource's members to all. */
  lemma AlsoOn(t: State, r: nat, stale: set<nat>)
    requires Linked(t) && CoherentBut(t, stale + {r})
    requires r !in stale ==> forall n :: 0 <= n < |t.nodes| && IsMember(t, n) && t.nodes[n].resource == r ==> Fresh(t, n)
    ensures CoherentBut(t, stale)
  {
  }

  lemma CreationKeeps(s: State, r: nat, h: nat, stale: set<nat>)
    requires Linked(s) && r < |s.resources| && h < |s.hosts| && CoherentBut(s, stale)
    ensures CoherentBut(NodeCreated(s, r, h), stale + {r})
    ensures !SomeUnmarked(s, s.resources[r].members) ==> CoherentBut(NodeCreated(s, r, h), stale)
  {
    var t := NodeCreated(s, r, h);
    CreatedOnly(s, r, h);
    OthersKeep(s, t, r, stale);
    if !SomeUnmarked(s, s.resources[r].members) {
      assert MembersLinked(s, r);
      AlsoOn(t, r, stale);
    }
  }

  lemma RemovalKeeps(s: State, n: nat, stale: set<nat>)
    requires Linked(s) && IsMember(s, n) && CoherentBut(s, stale)
    ensures var t, r := DisksRemoved(s, n), s.nodes[n].resource;
            CoherentBut(t, stale + {r})
            && (s.nodes[n].volumes == [] || !SomeUnmarked(s, s.resources[r].members) ==> CoherentBut(t, stale))
  {
    hide Current, Found;
    var t, r := DisksRemoved(s, n), s.nodes[n].resource;
    RemovedOnly(s, n);
    OthersKeep(s, t, r, stale);
    if s.nodes[n].volumes == [] {
      assert t.nodes == s.nodes;
      assert t == s;
    } else if !SomeUnmarked(s, s.resources[r].members) {
      AlsoOn(t, r, stale);
    }
  }

  lemma AdditionKeeps(s: State, n: nat, number: nat, backing: Option<Backing>, stale: set<nat>)
    requires Linked(s) && IsMember(s, n) && Private(s) && CoherentBut(s, stale) && DiskAdded(s, n, number, backing, false).ok
    ensures var t, r := DiskAdded(s, n, number, backing, false).state, s.nodes[n].resource;
            CoherentBut(t, stale + {r})
            && (ReplacesSame(s, n, number, backing) || !OtherUnmarked(s, s.resources[r].members, n) ==> CoherentBut(t, stale))
  {
    hide DiskAdded, Private, Fresh, ReplacesSame, SameSettings;
    var t, r := DiskAdded(s, n, number, backing, false).state, s.nodes[n].resource;
    DiskAddedKeeps(s, n, number, backing, stale + {r});
    DiskAddedIs(s, n, number, backing, false);
    assert t.nodes[n].marked;
    if r !in stale && (ReplacesSame(s, n, number, backing) || !OtherUnmarked(s, s.resources[r].members, n)) {
      forall m | 0 <= m < |t.nodes| && IsMember(t, m) && t.nodes[m].resource == r
        ensures Fresh(t, m)
      {
        if m != n {
          assert t.nodes[m] == s.nodes[m] && IsMember(s, m) && Fresh(s, m);
          if Unmarked(s, m) {
            assert ReplacesSame(s, n, number, backing);
            SameStaysFresh(s, n, number, backing, m);
          } else {
            MarkedFresh(t, m);
          }
        } else {
          MarkedFresh(t, m);
        }
      }
    }
    AlsoOnUnless(t, r, stale, ReplacesSame(s, n, number, backing) || !OtherUnmarked(s, s.resources[r].members, n));
  }

  lemma AlsoOnUnless(t: State, r: nat, stale: set<nat>, c: bool)
    requires Linked(t) && CoherentBut(t, stale + {r})
    requires c && r !in stale ==> forall n :: 0 <= n < |t.nodes| && IsMember(t, n) && t.nodes[n].resource == r ==> Fresh(t, n)
    ensures c ==> CoherentBut(t, stale)
  {
    hide Fresh;
  }

  lemma MarkedFresh(t: State, m: nat)
    requires Linked(t) && m < |t.nodes| && t.nodes[m].marked
    ensures Fresh(t, m)
  {
  }

  /** The states inside of Node.add_disk: before the volume is listed, and after. */
  lemma BeforeListing(s: State, n: nat, number: nat, backing: Option<Backing>, m: nat) returns (u: State, v: VolumeState)
    requires Linked(s) && Private(s) && IsMember(s, n) && IsMember(s, m) && m != n && Fresh(s, m)
    requires DiskAdded(s, n, number, backing, false).ok
    ensures Linked(u) && n < |u.nodes| && m < |u.nodes| && v == NewVolume(number, MinorFor(s, n, number), backing)
    ensures DiskAdded(s, n, number, backing, false).state == VolumeListed(u, n, v)
    ensures Fresh(u, m) && u.nodes[m] == s.nodes[m]
    ensures u.nodes[n].(marked := false) == s.nodes[n].(marked := false) && IsMember(u, n) && IsMember(u, m)
    ensures Current(u, m) == Current(s, m) && Info(u, s.nodes[n].resource) == Info(s, s.nodes[n].resource) && Me(u, m) == Me(s, m)
  {
    hide Private, Fresh, UpdatedIf, VolumeListed, MinorTaken, OnlyOn, SameFiles, SameSettings, Untouched, Current, Info, Found, Me;
    var taken := MinorTaken(s, n, number);
    TakenOnly(s, n, number);
    TakenPeers(s, n, number);
    assert |taken.nodes| == |s.nodes|;
    StaysPrivate(s, taken);
    UntouchedFound(s, taken, m);
    UntouchedFresh(s, taken, m);
    UntouchedFresh(s, taken, n);
    UntouchedInfo(s, taken, s.nodes[n].resource);
    TakenNodes(s, n, number);
    var zero := backing.Some? && backing.value.zeroOut;
    u := UpdatedIf(zero, taken, n, false).state;
    v := NewVolume(number, MinorFor(s, n, number), backing);
    UpdateIsOnlyCache(zero, taken, n, false);
    SettingsSay(taken, u, m);
    MemberAfterUpdate(zero, taken, n, m);
  }

  /** A volume of which the configuration says what it said of the replaced one. */
  lemma SameText(s: State, t: State, n: nat, m: nat, k: nat)
    requires Linked(s) && Linked(t) && OtherVolumes(s, t, n) && IsMember(s, n)
    requires m < |s.nodes| && s.nodes[m].resource == s.nodes[n].resource
    requires k < |s.nodes[n].volumes| == |t.nodes[n].volumes|
    requires t.nodes[n].volumes == s.nodes[n].volumes[k := t.nodes[n].volumes[k]]
    requires t.nodes[n].volumes[k].info.minor == s.nodes[n].volumes[k].info.minor
    requires SameVolume(s.nodes[n].volumes[k].info, t.nodes[n].volumes[k].info)
    ensures Current(t, m) == Current(s, m)
  {
    hide Config, Info, InfoOf, SameVolume, VolumeLines;
    var r := s.nodes[n].resource;
    var a, b := s.nodes[n].volumes, t.nodes[n].volumes;
    var i := InfoOfOther(s, t, n);
    OtherMember(s, t, n, m);
    VolumesIn(s.hosts[s.nodes[n].host], s.nodes[n]);
    assert VolumeInfos(b) == VolumeInfos(a)[k := b[k].info];
    SameVolumeIff(a[k].info, b[k].info);
    assert forall j :: 0 <= j < |Info(s, r).nodes| ==> SameNode(Info(s, r).nodes[j], Info(t, r).nodes[j]);
    SameConfig(Me(s, m), Info(s, r), Info(t, r));
  }

  lemma ListedVolumes(u: State, n: nat, v: VolumeState)
    requires Linked(u) && n < |u.nodes|
    ensures var t := VolumeListed(u, n, v);
            OtherVolumes(u, t, n) && t.nodes[n].volumes == Placed(u.nodes[n].volumes, v)
  {
    hide Placed;
  }

  lemma SameStaysFresh(s: State, n: nat, number: nat, backing: Option<Backing>, m: nat)
    requires Linked(s) && Private(s) && IsMember(s, n) && IsMember(s, m) && m != n && Fresh(s, m)
    requires s.nodes[m].resource == s.nodes[n].resource
    requires DiskAdded(s, n, number, backing, false).ok && ReplacesSame(s, n, number, backing)
    ensures Fresh(DiskAdded(s, n, number, backing, false).state, m)
  {
    hide DiskAdded, Private, VolumeListed, OtherVolumes, SameVolume, Current, Found, Info, Me;
    var u, v := BeforeListing(s, n, number, backing, m);
    var t := VolumeListed(u, n, v);
    ListedVolumes(u, n, v);
    assert u.nodes[n].(marked := false).volumes == s.nodes[n].(marked := false).volumes;
    assert u.nodes[n].(marked := false).resource == s.nodes[n].(marked := false).resource;
    SameText(u, t, n, m, number);
    OtherMember(u, t, n, m);
  }

  /** A lone Node.add_disk leaves every other member of the resource stale that is not
      marked when the volume is a new one, and, for clean names, when it replaces one of
      which the configuration said something else. */
  lemma AdditionShows(s: State, n: nat, number: nat, backing: Option<Backing>, m: nat)
    requires Linked(s) && Private(s) && IsMember(s, n) && IsMember(s, m) && m != n && Fresh(s, m) && Unmarked(s, m)
    requires s.nodes[m].resource == s.nodes[n].resource
    requires DiskAdded(s, n, number, backing, false).ok && !ReplacesSame(s, n, number, backing)
    requires number < |s.nodes[n].volumes| ==>
               var t, r := DiskAdded(s, n, number, backing, false).state, s.nodes[n].resource;
               CleanState(Me(s, m), Info(s, r)) && CleanState(Me(t, m), Info(t, r))
    ensures !Fresh(DiskAdded(s, n, number, backing, false).state, m)
  {
    hide DiskAdded, Private, VolumeListed, OtherVolumes, SameVolume, Current, Found, Info, Me, CleanState;
    var u, v := BeforeListing(s, n, number, backing, m);
    var t := VolumeListed(u, n, v);
    ListedVolumes(u, n, v);
    assert u.nodes[n].(marked := false).volumes == s.nodes[n].(marked := false).volumes;
    assert u.nodes[n].(marked := false).resource == s.nodes[n].(marked := false).resource;
    if number < |s.nodes[n].volumes| {
      ReplacementShows(u, t, n, m, number);
    } else {
      LengthShows(u, t, n, m);
    }
    OtherMember(u, t, n, m);
  }

  lemma RemovalShows(s: State, n: nat, m: nat)
    requires Linked(s) && IsMember(s, n) && IsMember(s, m) && Fresh(s, m) && Unmarked(s, m)
    requires s.nodes[m].resource == s.nodes[n].resource && s.nodes[n].volumes != []
    ensures !Fresh(DisksRemoved(s, n), m)
  {
    hide Current, Found, Info, Me;
    var t := DisksRemoved(s, n);
    assert OtherVolumes(s, t, n);
    LengthShows(s, t, n, m);
    OtherMember(s, t, n, m);
  }

  lemma TakenNodes(s: State, n: nat, number: nat)
    requires Linked(s) && n < |s.nodes|
    ensures MinorTaken(s, n, number).nodes == s.nodes
    ensures forall m :: 0 <= m < |s.nodes| ==> Me(MinorTaken(s, n, number), m) == Me(s, m)
  {
  }

  lemma MemberAfterUpdate(update: bool, s: State, n: nat, m: nat)
    requires Linked(s) && Private(s) && IsMember(s, n) && IsMember(s, m) && m != n && Fresh(s, m)
    requires UpdatedIf(update, s, n, false).ok
    ensures var u := UpdatedIf(update, s, n, false).state;
            Fresh(u, m) && u.nodes[m] == s.nodes[m] && u.nodes[n].(marked := false) == s.nodes[n].(marked := false)
            && IsMember(u, n) && IsMember(u, m) && Info(u, s.nodes[n].resource) == Info(s, s.nodes[n].resource) && Me(u, m) == Me(s, m)
  {
    hide Fresh, Private, Updated, Info;
    var u := UpdatedIf(update, s, n, false).state;
    UpdateIsOnlyCache(update, s, n, false);
    SameSettingsInfo(s, u, s.nodes[n].resource);
    SettingsMe(s, u, m);
    if update {
      OtherStaysFresh(s, n, m);
    }
  }

  lemma SettingsMe(s: State, t: State, m: nat)
    requires Linked(s) && Linked(t) && SameSettings(s, t) && m < |s.nodes|
    ensures Me(s, m) == Me(t, m)
  {
    var a, b := s.nodes[m], t.nodes[m];
    assert a.(marked := false) == b.(marked := false);
    assert a.host == b.host && a.fencing == b.fencing;
    SameHostInfo(s.hosts[a.host], t.hosts[a.host], a);
  }

  lemma ChangeKeeps(s: State, r: nat, change: Change, stale: set<nat>)
    requires Linked(s) && r < |s.resources| && Private(s) && CoherentBut(s, stale)
    requires Changed(s, r, change, false).ok
    ensures CoherentBut(Changed(s, r, change, false).state, NextStale(s, On(r, change), stale))
  {
    hide Private, CoherentBut, Heals, DiskAdded, DisksRemoved, NodeCreated, ReplacesSame, SomeUnmarked, OtherUnmarked, VolumeAdded;
    hide Set, Fenced, Touched, Joined, Left, TiebreakerSet, Updated;
    var ms := s.resources[r].members;
    if Heals(s, r, change) {
      HealingKeeps(s, r, change, stale);
    } else if change.CreateNode? && change.h < |s.hosts| {
      CreationKeeps(s, r, change.h, stale);
    } else if change.RemoveDisksOn? && change.k < |ms| {
      RemovalKeeps(s, Member(s, r, change.k), stale);
    } else if change.AddDiskOn? && change.k < |ms| {
      AdditionKeeps(s, Member(s, r, change.k), change.number, change.backing, stale);
    } else if change.Command? && change.k < |ms| {
      UpdateKeeps(change.update, s, Member(s, r, change.k), stale);
    } else {
      assert Changed(s, r, change, false).state == s by { OutOfRange(s, r, change); }
    }
  }

  lemma OutOfRange(s: State, r: nat, change: Change)
    requires Linked(s) && r < |s.resources| && !Heals(s, r, change)
    requires change.CreateNode? ==> change.h >= |s.hosts|
    requires change.RemoveDisksOn? || change.AddDiskOn? || change.Command? ==> change.k >= |s.resources[r].members|
    ensures Changed(s, r, change, false).state == s
  {
  }

  // ---- creating a resource ----

  lemma {:induction false} NodesCreatedMarks(s: State, r: nat, from: nat)
    requires Linked(s) && r < |s.resources| && from <= |s.hosts| && AllMarked(s, s.resources[r].members)
    ensures var t := NodesCreated(s, r, from);
            OnlyOn(s, t, r) && SameFiles(s, t) && AllMarked(t, t.resources[r].members)
    decreases |s.hosts| - from
  {
    hide NodeCreated, OnlyOn, AllMarked;
    if from == |s.hosts| {
      assert OnlyOn(s, s, r) by { NothingOnly(s, r); }
    } else {
      var t := NodeCreated(s, r, from);
      CreatedOnly(s, r, from);
      assert AllMarked(t, t.resources[r].members) by { CreatedMarks(s, r, from); }
      NodesCreatedMarks(t, r, from + 1);
      OnlyOnThen(s, t, NodesCreated(t, r, from + 1), r);
    }
  }

  lemma NothingOnly(s: State, r: nat)
    ensures OnlyOn(s, s, r) && SameFiles(s, s)
  {
  }

  lemma CreatedMarks(s: State, r: nat, h: nat)
    requires Linked(s) && r < |s.resources| && h < |s.hosts| && AllMarked(s, s.resources[r].members)
    ensures var t := NodeCreated(s, r, h); AllMarked(t, t.resources[r].members)
  {
    MembersIn(s, r);
  }

  /** The nodes made for a resource on the hosts from some position on. */
  function NodesMade(s: State, r: nat, from: nat, before: nat): seq<NodeState>
    requires from <= |s.hosts|
  {
    seq(|s.hosts| - from, i requires 0 <= i < |s.hosts| - from =>
      NodeState(from + i, r, before + i, s.hosts[from + i].port, "", [], true))
  }

  function Positions(first: nat, count: nat): seq<nat> {
    seq(count, i => first + i)
  }

  function PortsTaken(hosts: seq<HostState>, from: nat): seq<HostState> {
    seq(|hosts|, h requires 0 <= h < |hosts| => if h < from then hosts[h] else hosts[h].(port := hosts[h].port + 1))
  }

  lemma CreatedIs(s: State, r: nat, h: nat)
    requires Linked(s) && r < |s.resources| && h < |s.hosts|
    ensures var t, rs := NodeCreated(s, r, h), s.resources[r];
            t.nodes == s.nodes + [NodeState(h, r, |rs.members|, s.hosts[h].port, "", [], true)]
            && t.resources == s.resources[r := rs.(members := rs.members + [|s.nodes|])]
            && t.hosts == s.hosts[h := s.hosts[h].(port := s.hosts[h].port + 1)]
            && t.transport == s.transport && t.tls == s.tls
  {
  }

  lemma {:induction false} NodesCreatedIs(s: State, r: nat, from: nat)
    requires Linked(s) && r < |s.resources| && from <= |s.hosts|
    ensures var t, rs := NodesCreated(s, r, from), s.resources[r];
            t.nodes == s.nodes + NodesMade(s, r, from, |rs.members|)
            && t.resources == s.resources[r := rs.(members := rs.members + Positions(|s.nodes|, |s.hosts| - from))]
            && t.hosts == PortsTaken(s.hosts, from)
            && t.transport == s.transport && t.tls == s.tls
    decreases |s.hosts| - from
  {
    hide NodeCreated;
    var rs := s.resources[r];
    if from == |s.hosts| {
      assert Positions(|s.nodes|, 0) == [] && NodesMade(s, r, from, |rs.members|) == [];
      assert s.nodes + [] == s.nodes && rs.members + [] == rs.members;
      assert PortsTaken(s.hosts, from) == s.hosts;
      assert s.resources[r := rs] == s.resources;
    } else {
      CreatedIs(s, r, from);
      var t := NodeCreated(s, r, from);
      NodesCreatedIs(t, r, from + 1);
      MadeAndRest(s, t, r, from);
    }
  }

  lemma MadeAndRest(s: State, t: State, r: nat, from: nat)
    requires r < |s.resources| && from < |s.hosts|
    requires var rs := s.resources[r];
             t.nodes == s.nodes + [NodeState(from, r, |rs.members|, s.hosts[from].port, "", [], true)]
             && t.resources == s.resources[r := rs.(members := rs.members + [|s.nodes|])]
             && t.hosts == s.hosts[from := s.hosts[from].(port := s.hosts[from].port + 1)]
    ensures var rs, ts := s.resources[r], t.resources[r];
            t.nodes + NodesMade(t, r, from + 1, |ts.members|) == s.nodes + NodesMade(s, r, from, |rs.members|)
            && t.resources[r := ts.(members := ts.members + Positions(|t.nodes|, |t.hosts| - (from + 1)))]
               == s.resources[r := rs.(members := rs.members + Positions(|s.nodes|, |s.hosts| - from))]
            && PortsTaken(t.hosts, from + 1) == PortsTaken(s.hosts, from)
  {
    var rs, ts := s.resources[r], t.resources[r];
    var count := |s.hosts| - from;
    assert NodesMade(s, r, from, |rs.members|)
        == [NodeState(from, r, |rs.members|, s.hosts[from].port, "", [], true)] + NodesMade(t, r, from + 1, |ts.members|);
    assert Positions(|s.nodes|, count) == [|s.nodes|] + Positions(|t.nodes|, count - 1);
    assert rs.members + [|s.nodes|] + Positions(|t.nodes|, count - 1) == rs.members + Positions(|s.nodes|, count);
  }

  /** create_resource makes one marked node on each host, with ids in order and the next port
      of each host. */
  lemma ResourceCreatedIs(s: State, name: string)
    requires Linked(s)
    ensures var t := ResourceCreated(s, name);
            t.resources == s.resources + [ResourceState(name, s.transport, s.tls, "", "", "", "",
                                                        Positions(|s.nodes|, |s.hosts|), 0)]
            && t.nodes == s.nodes + NodesMade(s, |s.resources|, 0, 0) && t.hosts == PortsTaken(s.hosts, 0)
            && t.transport == s.transport && t.tls == s.tls
  {
    hide NodesCreated;
    var u := ResourceListed(s, name);
    NodesCreatedIs(u, |s.resources|, 0);
    assert [] + Positions(|s.nodes|, |s.hosts|) == Positions(|s.nodes|, |s.hosts|);
  }

  lemma ResourceKeeps(s: State, name: string, stale: set<nat>)
    requires Linked(s) && CoherentBut(s, stale)
    ensures CoherentBut(ResourceCreated(s, name), stale - {|s.resources|})
    ensures OnlyOn(s, ResourceCreated(s, name), |s.resources|) && SameFiles(s, ResourceCreated(s, name))
  {
    hide CoherentBut, OnlyOn, NodesCreated, SameFiles;
    var r := |s.resources|;
    var t := ResourceListed(s, name);
    var u := NodesCreated(t, r, 0);
    assert OnlyOn(s, t, r) && SameFiles(s, t) by { NewlyListed(s, name); }
    NodesCreatedMarks(t, r, 0);
    OnlyOnThen(s, t, u, r);
    assert SameFiles(s, u) by { FilesThen(s, t, u); }
    OthersKeep(s, u, r, stale);
    MarkingHeals(u, r, stale);
  }

  lemma FilesThen(s: State, t: State, u: State)
    requires SameFiles(s, t) && SameFiles(t, u)
    ensures SameFiles(s, u)
  {
  }

  lemma NewlyListed(s: State, name: string)
    requires Linked(s)
    ensures OnlyOn(s, ResourceListed(s, name), |s.resources|) && SameFiles(s, ResourceListed(s, name))
  {
  }

  // ---- every step ----

  /** After any step that raises nothing, the members of the resources that are not
      counted as stale are marked or up to date. */
  lemma NextKeeps(s: State, step: Step, stale: set<nat>)
    requires Linked(s) && Private(s) && CoherentBut(s, stale) && Next(s, step, false).ok
    ensures CoherentBut(Next(s, step, false).state, NextStale(s, step, stale))
  {
    hide Private, CoherentBut, Changed, Heals, LeavesStale, ResourceCreated;
    match step
    case CreateResource(name) =>
      ResourceKeeps(s, name, stale);
    case On(r, change) =>
      if r < |s.resources| {
        ChangeKeeps(s, r, change, stale);
      }
  }

  ghost predicate AllClean(s: State, r: nat)
    requires Linked(s) && r < |s.resources|
  {
    forall m :: m in s.resources[r].members && m < |s.nodes| ==> CleanState(Me(s, m), Info(s, r))
  }

  /** Where a volume is replaced, names and options are clean before and after. */
  ghost predicate CleanReplacement(s: State, r: nat, change: Change)
    requires Linked(s) && r < |s.resources|
  {
    change.AddDiskOn? && change.k < |s.resources[r].members|
    && change.number < |s.nodes[Member(s, r, change.k)].volumes|
    ==> AllClean(s, r) && AllClean(Changed(s, r, change, false).state, r)
  }

  /** A step leaves a current resource stale exactly when it changes what is written while
      a member that it does not mark is not marked. */
  lemma LeftStaleIff(s: State, r: nat, change: Change, stale: set<nat>)
    requires Linked(s) && r < |s.resources| && r !in stale && Private(s) && CoherentBut(s, stale)
    requires Changed(s, r, change, false).ok && CleanReplacement(s, r, change)
    ensures CoherentBut(Changed(s, r, change, false).state, stale) <==> !LeavesStale(s, r, change)
  {
    hide Private, Heals, Changed, LeavesStale;
    if LeavesStale(s, r, change) {
      var m := LeftStale(s, r, change, stale);
    } else {
      ChangeKeeps(s, r, change, stale);
      assert stale - {r} == stale;
    }
  }

  /** A member that is left stale. */
  lemma LeftStale(s: State, r: nat, change: Change, stale: set<nat>) returns (m: nat)
    requires Linked(s) && r < |s.resources| && r !in stale && Private(s) && CoherentBut(s, stale) && LeavesStale(s, r, change)
    requires Changed(s, r, change, false).ok && CleanReplacement(s, r, change)
    ensures var t := Changed(s, r, change, false).state;
            IsMember(t, m) && t.nodes[m].resource == r && !Fresh(t, m)
  {
    hide Private, DiskAdded, DisksRemoved, ReplacesSame, Fresh, CleanState, Current, Info, Me, GotVolume;
    var ms := s.resources[r].members;
    assert MembersLinked(s, r);
    if change.CreateNode? {
      m :| m in ms && Unmarked(s, m);
      assert IsMember(s, m) && Fresh(s, m);
      NewShows(s, r, change.h, m);
    } else if change.RemoveDisksOn? {
      m :| m in ms && Unmarked(s, m);
      assert IsMember(s, m) && Fresh(s, m);
      var n := Member(s, r, change.k);
      RemovalShows(s, n, m);
      RemovedOnly(s, n);
    } else {
      m :| m in ms && m != ms[change.k] && Unmarked(s, m);
      assert IsMember(s, m) && Fresh(s, m);
      var n := Member(s, r, change.k);
      AdditionShows(s, n, change.number, change.backing, m);
      DiskAddedKeeps(s, n, change.number, change.backing, stale + {r});
    }
  }

  lemma NewShows(s: State, r: nat, h: nat, m: nat)
    requires Linked(s) && r < |s.resources| && h < |s.hosts| && IsMember(s, m) && s.nodes[m].resource == r
    requires Fresh(s, m) && Unmarked(s, m)
    ensures var t := NodeCreated(s, r, h); IsMember(t, m) && t.nodes[m].resource == r && !Fresh(t, m)
  {
    hide Current, Found;
    CreationShows(s, r, h, m);
  }

  // ---- every run ----

  /** No two members share a file, at any time of a run. */
  ghost predicate PrivateThroughout(s: State, steps: seq<Step>)
    requires Linked(s)
    decreases |steps|
  {
    Private(s)
    && (steps != [] && Next(s, steps[0], false).ok ==> PrivateThroughout(Next(s, steps[0], false).state, steps[1..]))
  }

  /** The resources that may be stale after a run. */
  ghost function StaleAfter(s: State, steps: seq<Step>, stale: set<nat>): set<nat>
    requires Linked(s)
    decreases |steps|
  {
    if steps == [] || !Next(s, steps[0], false).ok then stale
    else StaleAfter(Next(s, steps[0], false).state, steps[1..], NextStale(s, steps[0], stale))
  }

  predicate Updating(step: Step) {
    step.On? && step.change.Command? && step.change.update
  }

  /** Every command with update_config on a member finds what config() gives at that
      moment, if its resource is not counted as stale. */
  ghost predicate SeesCurrent(s: State, steps: seq<Step>, stale: set<nat>)
    requires Linked(s)
    decreases |steps|
  {
    steps != [] && Next(s, steps[0], false).ok ==>
      CommandSees(s, steps[0], stale)
      && SeesCurrent(Next(s, steps[0], false).state, steps[1..], NextStale(s, steps[0], stale))
  }

  ghost predicate CommandSees(s: State, step: Step, stale: set<nat>)
    requires Linked(s)
  {
    Updating(step) && step.r < |s.resources| && step.change.k < |s.resources[step.r].members| && step.r !in stale ==>
      var current := Current(s, Member(s, step.r, step.change.k));
      current.Some? && Next(s, step, false).seen == current
  }

  lemma CommandSeesCurrent(s: State, step: Step, stale: set<nat>)
    requires Linked(s) && CoherentBut(s, stale) && Next(s, step, false).ok
    ensures CommandSees(s, step, stale)
  {
    hide Current, Found, Updated;
    if Updating(step) && step.r < |s.resources| && step.change.k < |s.resources[step.r].members| && step.r !in stale {
      var n := Member(s, step.r, step.change.k);
      assert IsMember(s, n) && Fresh(s, n);
      CurrentAfterUpdate(s, n);
    }
  }

  /** Over every sequence of steps on any number of resources whose members share no
      files: which resources are current in the end, and what each command sees. */
  lemma {:induction false} RunKeeps(s: State, steps: seq<Step>, stale: set<nat>)
    requires Linked(s) && PrivateThroughout(s, steps) && CoherentBut(s, stale)
    ensures SeesCurrent(s, steps, stale)
    ensures Replay(s, steps, false).ok ==> CoherentBut(Replay(s, steps, false).state, StaleAfter(s, steps, stale))
    decreases |steps|
  {
    hide Private, CoherentBut, Next, CommandSees, NextStale;
    if steps != [] {
      var o := Next(s, steps[0], false);
      if o.ok {
        CommandSeesCurrent(s, steps[0], stale);
        NextKeeps(s, steps[0], stale);
        RunKeeps(o.state, steps[1..], NextStale(s, steps[0], stale));
      }
    }
  }

  /** The steps that never leave a resource stale. */
  predicate Orderly(step: Step) {
    step.On? ==> !step.change.CreateNode? && !step.change.AddDiskOn? && !step.change.RemoveDisksOn?
  }

  /** Setters, members that come and go, volumes for whole resources, new resources and
      commands leave nothing stale. */
  lemma {:induction false} OrderlyRunsStay(s: State, steps: seq<Step>, stale: set<nat>)
    requires Linked(s) && forall i :: 0 <= i < |steps| ==> Orderly(steps[i])
    ensures StaleAfter(s, steps, stale) <= stale
    decreases |steps|
  {
    hide Next, Heals;
    if steps != [] && Next(s, steps[0], false).ok {
      assert Orderly(steps[0]) && forall i :: 0 <= i < |steps[1..]| ==> Orderly(steps[1..][i]);
      assert NextStale(s, steps[0], stale) <= stale;
      OrderlyRunsStay(Next(s, steps[0], false).state, steps[1..], NextStale(s, steps[0], stale));
    }
  }

  // ---- what a step leaves alone ----

  /** Only files of one name have changed. */
  ghost predicate OnlyFile(s: State, t: State, name: string) {
    |t.hosts| == |s.hosts|
    && forall h, x :: 0 <= h < |s.hosts| && x != name ==> SameEntry(s.hosts[h].files, t.hosts[h].files, x)
  }

  ghost predicate SameEntry(a: map<string, string>, b: map<string, string>, x: string) {
    (x in a <==> x in b) && (x in a ==> a[x] == b[x])
  }

  /** Nothing but one resource, its nodes and the files of its name. */
  ghost predicate Within(s: State, t: State, r: nat, name: string) {
    OnlyOn(s, t, r) && OnlyFile(s, t, name)
  }

  lemma WithinThen(s: State, t: State, u: State, r: nat, name: string)
    requires Within(s, t, r, name) && Within(t, u, r, name)
    ensures Within(s, u, r, name)
  {
    hide OnlyOn;
    OnlyOnThen(s, t, u, r);
    forall h, x | 0 <= h < |s.hosts| && x != name
      ensures SameEntry(s.hosts[h].files, u.hosts[h].files, x)
    {
      assert SameEntry(s.hosts[h].files, t.hosts[h].files, x) && SameEntry(t.hosts[h].files, u.hosts[h].files, x);
    }
  }

  lemma WithinOf(s: State, t: State, r: nat, name: string)
    requires OnlyOn(s, t, r) && SameFiles(s, t)
    ensures Within(s, t, r, name)
  {
  }

  lemma UpdatedWithin(update: bool, s: State, n: nat, always: bool)
    requires Linked(s) && n < |s.nodes|
    ensures var r := s.nodes[n].resource; Within(s, UpdatedIf(update, s, n, always).state, r, s.resources[r].name)
  {
    hide OnlyOn, Current;
    UpdatedOnly(update, s, n, always);
  }

  lemma DiskAddedWithin(s: State, n: nat, number: nat, backing: Option<Backing>, always: bool)
    requires Linked(s) && n < |s.nodes|
    ensures var r := s.nodes[n].resource; Within(s, DiskAdded(s, n, number, backing, always).state, r, s.resources[r].name)
  {
    hide Within, UpdatedIf, MinorTaken, VolumeListed, OnlyOn, SameFiles;
    var r := s.nodes[n].resource;
    var name := s.resources[r].name;
    var taken := MinorTaken(s, n, number);
    TakenOnly(s, n, number);
    WithinOf(s, taken, r, name);
    var zero := backing.Some? && backing.value.zeroOut;
    var u := UpdatedIf(zero, taken, n, always).state;
    UpdatedWithin(zero, taken, n, always);
    WithinThen(s, taken, u, r, name);
    var v := NewVolume(number, MinorFor(s, n, number), backing);
    ListedOnly(u, n, v);
    WithinOf(u, VolumeListed(u, n, v), r, name);
    WithinThen(s, u, VolumeListed(u, n, v), r, name);
  }

  lemma {:induction false} DisksAddedWithin(s: State, ms: seq<nat>, number: nat, backings: seq<Option<Backing>>, r: nat, always: bool)
    requires Linked(s) && r < |s.resources| && Belong(s, ms, r) && |backings| == |ms|
    ensures Within(s, DisksAdded(s, ms, number, backings, always).state, r, s.resources[r].name)
    decreases |ms|
  {
    hide Within, DiskAdded;
    if ms == [] {
      assert Within(s, s, r, s.resources[r].name) by { NothingWithin(s, r, s.resources[r].name); }
    } else {
      assert ms[0] in ms && forall n :: n in ms[1..] ==> n in ms;
      var o := DiskAdded(s, ms[0], number, backings[0], always);
      DiskAddedWithin(s, ms[0], number, backings[0], always);
      if o.ok {
        DisksAddedWithin(o.state, ms[1..], number, backings[1..], r, always);
        WithinThen(s, o.state, DisksAdded(o.state, ms[1..], number, backings[1..], always).state, r, s.resources[r].name);
      }
    }
  }

  lemma NothingWithin(s: State, r: nat, name: string)
    ensures Within(s, s, r, name)
  {
  }

  lemma {:induction false} MetadataWithin(s: State, ms: seq<nat>, backings: seq<Option<Backing>>, r: nat, always: bool)
    requires Linked(s) && r < |s.resources| && Belong(s, ms, r) && |backings| == |ms|
    ensures Within(s, MetadataCreated(s, ms, backings, always).state, r, s.resources[r].name)
    decreases |ms|
  {
    hide Within, UpdatedIf;
    if ms == [] {
      assert Within(s, s, r, s.resources[r].name) by { NothingWithin(s, r, s.resources[r].name); }
    } else {
      assert ms[0] in ms && forall n :: n in ms[1..] ==> n in ms;
      var o := UpdatedIf(backings[0].Some?, s, ms[0], always);
      UpdatedWithin(backings[0].Some?, s, ms[0], always);
      if o.ok {
        MetadataWithin(o.state, ms[1..], backings[1..], r, always);
        WithinThen(s, o.state, MetadataCreated(o.state, ms[1..], backings[1..], always).state, r, s.resources[r].name);
      }
    }
  }

  lemma VolumeAddedWithin(s: State, r: nat, backings: seq<Option<Backing>>, always: bool)
    requires Linked(s) && r < |s.resources| && |backings| == |s.resources[r].members|
    ensures Within(s, VolumeAdded(s, r, backings, always).state, r, s.resources[r].name)
  {
    hide Within, DisksAdded, MetadataCreated, OnlyOn, SameFiles;
    var rs := s.resources[r];
    assert MembersLinked(s, r);
    var counted := WithResource(s, r, rs.(count := rs.count + 1));
    assert OnlyOn(s, counted, r) && SameFiles(s, counted) by { CountedOnly(s, r); }
    WithinOf(s, counted, r, rs.name);
    DisksAddedWithin(counted, rs.members, rs.count, backings, r, always);
    var o := DisksAdded(counted, rs.members, rs.count, backings, always);
    WithinThen(s, counted, o.state, r, rs.name);
    if o.ok {
      MetadataWithin(o.state, rs.members, backings, r, always);
      WithinThen(s, o.state, MetadataCreated(o.state, rs.members, backings, always).state, r, rs.name);
    }
  }

  /** A step on one resource, whether it raises or not, leaves all other resources, their
      nodes and the files of other names as they are. */
  lemma ChangeWithin(s: State, r: nat, change: Change)
    requires Linked(s) && r < |s.resources|
    ensures Within(s, Changed(s, r, change, false).state, r, s.resources[r].name)
  {
    hide Within, Heals, OnlyOn, SameFiles, DiskAdded, DisksRemoved, NodeCreated, VolumeAdded, UpdatedIf;
    hide Set, Fenced, Touched, Joined, Left, TiebreakerSet;
    var ms, name := s.resources[r].members, s.resources[r].name;
    var t := Changed(s, r, change, false).state;
    if change.AddDisk? && |change.backings| == |ms| {
      VolumeAddedWithin(s, r, change.backings, false);
    } else if change.AddDiskOn? && change.k < |ms| {
      DiskAddedWithin(s, Member(s, r, change.k), change.number, change.backing, false);
    } else if change.Command? && change.k < |ms| {
      UpdatedWithin(change.update, s, Member(s, r, change.k), false);
    } else {
      if Heals(s, r, change) {
        assert !change.AddDisk? by { HealsInRange(s, r, change); }
        HealingMarks(s, r, change);
      } else if change.CreateNode? && change.h < |s.hosts| {
        CreatedOnly(s, r, change.h);
      } else if change.RemoveDisksOn? && change.k < |ms| {
        RemovedOnly(s, Member(s, r, change.k));
      } else {
        OutOfRange(s, r, change);
        NothingOnly(s, r);
      }
      WithinOf(s, t, r, name);
    }
  }

  lemma HealsInRange(s: State, r: nat, change: Change)
    requires Linked(s) && r < |s.resources| && Heals(s, r, change)
    ensures change.AddDisk? ==> |change.backings| == |s.resources[r].members|
  {
  }
}
