/** The cache of configuration files cannot be noticed: a cluster that writes files only
    for marked nodes raises, and shows to commands, the same as one that writes the file
    before every command. */
module CacheTransparency {
  import opened Wrappers
  import opened NodeConfig
  import opened ConfigErrors
  import opened ClusterState
  import opened ClusterAllocation
  import opened ConfigCache
  import opened SharedFiles
  import opened CacheFailures
  import OrderedSets

  // ---- one update ----

  lemma DirectUpdateIs(t: State, n: nat)
    requires Linked(t) && n < |t.nodes|
    ensures var o := Updated(t, n, true);
            (o.ok <==> CanWrite(t, n)) && (o.ok ==> Found(o.state, n) == Current(t, n))
  {
    hide Config, WritableState;
    ConfigRaisesIff(Me(t, n), Info(t, t.nodes[n].resource));
  }

  /** Whether the two raise: a node that is not marked does not even look. */
  lemma TwinUpdates(update: bool, s: State, t: State, n: nat)
    requires Linked(s) && Linked(t) && SameSettings(s, t) && n < |s.nodes|
    ensures var a, b := UpdatedIf(update, s, n, false), UpdatedIf(update, t, n, true);
            SameSettings(a.state, b.state)
            && (a.ok <==> !update || !s.nodes[n].marked || CanWrite(s, n)) && (b.ok <==> !update || CanWrite(s, n))
  {
    hide Current, CanWrite, SameSettings, Updated;
    SettingsResources(s, t);
    var a, b := UpdatedIf(update, s, n, false), UpdatedIf(update, t, n, true);
    UpdateIsOnlyCache(update, s, n, false);
    UpdateIsOnlyCache(update, t, n, true);
    SameIsSymmetric(s, a.state);
    SameIsTransitive(a.state, s, t);
    SameIsTransitive(a.state, t, b.state);
    SettingsSay(s, t, n);
    UpdatedIs(s, n);
    DirectUpdateIs(t, n);
  }

  lemma SameIsSymmetric(s: State, t: State)
    requires SameSettings(s, t)
    ensures SameSettings(t, s)
  {
  }

  // ---- one volume ----

  lemma TwinTaken(s: State, t: State, n: nat, number: nat)
    requires Linked(s) && Linked(t) && SameSettings(s, t) && n < |s.nodes|
    ensures SameSettings(MinorTaken(s, n, number), MinorTaken(t, n, number))
    ensures MinorFor(s, n, number) == MinorFor(t, n, number)
  {
    var a, b := s.nodes[n], t.nodes[n];
    assert a.(marked := false) == b.(marked := false);
    assert a.volumes == b.volumes && a.host == b.host;
    var g, h := s.hosts[a.host], t.hosts[a.host];
    assert g.(files := map[]) == h.(files := map[]);
    assert g.minors == h.minors;
    assert g.(minors := g.minors + 1).(files := map[]) == g.(files := map[]).(minors := g.minors + 1);
    assert h.(minors := h.minors + 1).(files := map[]) == h.(files := map[]).(minors := h.minors + 1);
  }

  lemma TwinListed(s: State, t: State, n: nat, v: VolumeState)
    requires Linked(s) && Linked(t) && SameSettings(s, t) && n < |s.nodes|
    ensures SameSettings(VolumeListed(s, n, v), VolumeListed(t, n, v))
  {
    hide Placed;
    var a, b := s.nodes[n], t.nodes[n];
    assert a.(marked := false) == b.(marked := false);
    assert a.volumes == b.volumes;
    var p := Placed(a.volumes, v);
    assert a.(volumes := p, marked := true).(marked := false) == a.(marked := false).(volumes := p);
    assert b.(volumes := p, marked := true).(marked := false) == b.(marked := false).(volumes := p);
  }

  predicate Blanks(backing: Option<Backing>) {
    backing.Some? && backing.value.zeroOut
  }

  /** The two raise alike, unless the node is not marked and cannot be written. */
  lemma TwinDiskAdded(s: State, t: State, n: nat, number: nat, backing: Option<Backing>)
    requires Linked(s) && Linked(t) && SameSettings(s, t) && n < |s.nodes|
    ensures var a, b := DiskAdded(s, n, number, backing, false), DiskAdded(t, n, number, backing, true);
            (b.ok ==> a.ok)
            && (a.ok && (Blanks(backing) && !s.nodes[n].marked ==> CanWrite(MinorTaken(s, n, number), n)) ==> b.ok)
            && (a.ok && b.ok ==> SameSettings(a.state, b.state))
  {
    hide CanWrite, SameSettings, UpdatedIf, MinorTaken, VolumeListed, MinorFor;
    SettingsResources(s, t);
    var zero := backing.Some? && backing.value.zeroOut;
    var s', t' := MinorTaken(s, n, number), MinorTaken(t, n, number);
    TwinTaken(s, t, n, number);
    TwinUpdates(zero, s', t', n);
    TakenNodes(s, n, number);
    TwinListed(UpdatedIf(zero, s', n, false).state, UpdatedIf(zero, t', n, true).state, n, NewVolume(number, MinorFor(s, n, number), backing));
  }

  // ---- states in the middle of Resource.add_disk ----

  /** Nodes that differ in volumes and flags only. */
  predicate SameButVolumes(a: NodeState, b: NodeState) {
    a.(volumes := [], marked := false) == b.(volumes := [], marked := false)
  }

  /** The same but for volumes, flags, files and numbers. */
  ghost predicate Alike(a: State, s: State) {
    s.resources == a.resources && |s.nodes| == |a.nodes| && |s.hosts| == |a.hosts|
    && (forall h :: 0 <= h < |a.hosts| ==> SameHost(a.hosts[h], s.hosts[h]))
    && (forall n :: 0 <= n < |a.nodes| ==> SameButVolumes(a.nodes[n], s.nodes[n]))
  }

  /** Every node has the volumes that it has in one of two states. */
  ghost predicate Between(a: State, f: State, s: State) {
    Alike(a, s) && Alike(f, s)
    && forall n :: 0 <= n < |s.nodes| ==> s.nodes[n].volumes == a.nodes[n].volumes || s.nodes[n].volumes == f.nodes[n].volumes
  }

  lemma AlikeInfo(a: State, s: State, r: nat, i: nat)
    requires Linked(a) && Linked(s) && Alike(a, s) && r < |s.resources| && i < |s.resources[r].members|
    ensures |Info(a, r).nodes| == |Info(s, r).nodes| == |s.resources[r].members|
    ensures Info(s, r).(nodes := []) == Info(a, r).(nodes := [])
    ensures var m, n := Info(a, r).nodes[i], Info(s, r).nodes[i]; n.name == m.name && n.addrs == m.addrs
    ensures Info(s, r).nodes[i].volumes == VolumeInfos(s.nodes[Member(s, r, i)].volumes)
    ensures Info(a, r).nodes[i].volumes == VolumeInfos(a.nodes[Member(s, r, i)].volumes)
  {
    hide VolumeInfos, InfoOf, SameHost, SameButVolumes;
    var n := Member(s, r, i);
    InfoAt(a, r, i);
    InfoAt(s, r, i);
    AlikeNodes(a.nodes[n], s.nodes[n]);
    NamesIn(a.hosts[a.nodes[n].host], s.hosts[a.nodes[n].host], a.nodes[n], s.nodes[n]);
  }

  lemma AlikeNodes(a: NodeState, b: NodeState)
    requires SameButVolumes(a, b)
    ensures a.host == b.host && a.resource == b.resource && a.fencing == b.fencing && a.id == b.id && a.port == b.port
  {
    var c, d := a.(volumes := [], marked := false), b.(volumes := [], marked := false);
    assert c.host == d.host && c.resource == d.resource && c.fencing == d.fencing && c.id == d.id && c.port == d.port;
  }

  lemma NamesIn(g: HostState, h: HostState, a: NodeState, b: NodeState)
    requires SameHost(g, h)
    ensures InfoOf(h, b).name == InfoOf(g, a).name && InfoOf(h, b).addrs == InfoOf(g, a).addrs
    ensures InfoOf(g, a).volumes == VolumeInfos(a.volumes) && InfoOf(h, b).volumes == VolumeInfos(b.volumes)
  {
    var c, d := g.(files := map[], minors := 0, port := 0), h.(files := map[], minors := 0, port := 0);
    assert c.name == d.name && c.addrs == d.addrs;
  }

  lemma AlikeMe(a: State, s: State, n: nat)
    requires Linked(a) && Linked(s) && Alike(a, s) && n < |s.nodes|
    ensures Me(a, n) == Me(s, n) && a.nodes[n].resource == s.nodes[n].resource && a.resources == s.resources
  {
    hide SameHost, SameButVolumes;
    AlikeNodes(a.nodes[n], s.nodes[n]);
    SameHostInfo(a.hosts[a.nodes[n].host], s.hosts[a.nodes[n].host], a.nodes[n]);
  }

  /** What can be written before and after can be written in between. */
  lemma BetweenWrites(a: State, f: State, s: State, n: nat)
    requires Linked(a) && Linked(f) && Linked(s) && Between(a, f, s) && n < |s.nodes|
    requires CanWrite(a, n) && CanWrite(f, n)
    ensures CanWrite(s, n)
  {
    hide Formats, Alike, WritableVolume, Info, Me, WritablePaths, VolumeInfos;
    AlikeMe(a, s, n);
    AlikeMe(f, s, n);
    var r := s.nodes[n].resource;
    var p, q, t := Info(a, r), Info(f, r), Info(s, r);
    InfoLengths(a, f, s, r);
    assert p.(nodes := []).handlers == t.(nodes := []).handlers && p.(nodes := []).resourceOptions == t.(nodes := []).resourceOptions;
    assert p.(nodes := []).diskOptions == t.(nodes := []).diskOptions && p.(nodes := []).netOptions == t.(nodes := []).netOptions;
    assert p.(nodes := []).transport == t.(nodes := []).transport;
    forall i, k | 0 <= i < |t.nodes| && 0 <= k < |t.nodes[i].volumes|
      ensures WritableVolume(t.nodes[i].volumes[k])
    {
      AlikeInfo(a, s, r, i);
      AlikeInfo(f, s, r, i);
      assert t.nodes[i].volumes == p.nodes[i].volumes || t.nodes[i].volumes == q.nodes[i].volumes;
    }
    forall i, j | 0 <= i < j < |t.nodes|
      ensures WritablePaths(t.nodes[i], t.nodes[j])
    {
      AlikeInfo(a, s, r, i);
      AlikeInfo(a, s, r, j);
      SamePathsWritable(p.nodes[i], p.nodes[j], t.nodes[i], t.nodes[j]);
    }
  }

  lemma InfoLengths(a: State, f: State, s: State, r: nat)
    requires Linked(a) && Linked(f) && Linked(s) && Alike(a, s) && Alike(f, s) && r < |s.resources|
    ensures |Info(a, r).nodes| == |Info(f, r).nodes| == |Info(s, r).nodes| == |s.resources[r].members|
    ensures Info(s, r).(nodes := []) == Info(a, r).(nodes := [])
  {
    hide InfoOf, SameHost, SameButVolumes;
  }

  lemma SamePathsWritable(a: NodeInfo, b: NodeInfo, c: NodeInfo, d: NodeInfo)
    requires c.name == a.name && c.addrs == a.addrs && d.name == b.name && d.addrs == b.addrs && WritablePaths(a, b)
    ensures WritablePaths(c, d)
  {
    forall k | 0 <= k < Min(|c.addrs|, |d.addrs|)
      ensures WritablePath(c, c.addrs[k], d, d.addrs[k])
    {
      assert WritablePath(a, a.addrs[k], b, b.addrs[k]);
    }
  }

  lemma AlikeThen(s: State, t: State, u: State)
    requires Alike(s, t) && Alike(t, u)
    ensures Alike(s, u)
  {
    assert forall h :: 0 <= h < |s.hosts| ==> SameHost(s.hosts[h], t.hosts[h]) && SameHost(t.hosts[h], u.hosts[h]);
    assert forall n :: 0 <= n < |s.nodes| ==> SameButVolumes(s.nodes[n], t.nodes[n]) && SameButVolumes(t.nodes[n], u.nodes[n]);
  }

  lemma TakenAlike(s: State, n: nat, number: nat)
    requires Linked(s) && n < |s.nodes|
    ensures Alike(s, MinorTaken(s, n, number)) && MinorTaken(s, n, number).nodes == s.nodes
  {
  }

  lemma DiskAddedAlike(s: State, n: nat, number: nat, backing: Option<Backing>)
    requires Linked(s) && n < |s.nodes| && DiskAdded(s, n, number, backing, false).ok
    ensures Alike(s, DiskAdded(s, n, number, backing, false).state)
  {
    hide DiskAdded, Placed, NewVolume, SameSettings;
    var t := DiskAdded(s, n, number, backing, false).state;
    OneGotVolume(s, n, number, backing, false);
    DiskAddedIs(s, n, number, backing, false);
    assert SameButVolumes(s.nodes[n], t.nodes[n]) by { GotSame(s.nodes[n], t.nodes[n], number, backing); }
    forall h | 0 <= h < |s.hosts|
      ensures SameHost(s.hosts[h], t.hosts[h])
    {
      assert t.hosts[h].(files := map[], minors := 0) == s.hosts[h].(files := map[], minors := 0);
      PortsAside(s.hosts[h], t.hosts[h]);
    }
  }

  lemma PortsAside(g: HostState, h: HostState)
    requires h.(files := map[], minors := 0) == g.(files := map[], minors := 0)
    ensures SameHost(g, h)
  {
    assert h.(files := map[], minors := 0).(port := 0) == g.(files := map[], minors := 0).(port := 0);
  }

  lemma GotSame(a: NodeState, b: NodeState, number: nat, backing: Option<Backing>)
    requires GotVolume(a, b, number, backing)
    ensures SameButVolumes(a, b)
  {
    assert b.(volumes := a.volumes, marked := a.marked).(volumes := [], marked := false) == b.(volumes := [], marked := false);
  }

  /** Each remaining member is as it was at first, and can be written in the end; at first
      too, unless it is marked. */
  ghost predicate Remaining(a: State, f: State, s: State, ms: seq<nat>, backings: seq<Option<Backing>>)
    requires Linked(a) && Linked(f)
  {
    |s.nodes| == |a.nodes| == |f.nodes| && |backings| == |ms|
    && forall i :: 0 <= i < |ms| ==>
         ms[i] < |s.nodes| && s.nodes[ms[i]] == a.nodes[ms[i]]
         && (Blanks(backings[i]) ==> CanWrite(f, ms[i]) && (!a.nodes[ms[i]].marked ==> CanWrite(a, ms[i])))
  }

  /** What the flags skip would not have raised. */
  lemma {:induction false} CachedSuffices(a: State, f: State, s: State, t: State, ms: seq<nat>, number: nat, backings: seq<Option<Backing>>)
    requires Linked(a) && Linked(f) && Linked(s) && Linked(t) && SameSettings(s, t) && Between(a, f, s)
    requires Among(s, ms) && Among(t, ms) && OrderedSets.NoDup(ms) && Remaining(a, f, s, ms, backings)
    requires DisksAdded(s, ms, number, backings, false).ok && DisksAdded(s, ms, number, backings, false).state == f
    ensures DisksAdded(t, ms, number, backings, true).ok
    decreases |ms|
  {
    hide DiskAdded, SameSettings, CanWrite, Alike, MinorTaken;
    if ms != [] {
      assert ms[0] in ms && forall n :: n in ms[1..] ==> n in ms;
      var n := ms[0];
      var taken := MinorTaken(s, n, number);
      TakenAlike(s, n, number);
      AlikeThen(a, s, taken);
      AlikeThen(f, s, taken);
      if Blanks(backings[0]) && !s.nodes[n].marked {
        BetweenWrites(a, f, taken, n);
      }
      TwinDiskAdded(s, t, n, number, backings[0]);
      var s' := DiskAdded(s, n, number, backings[0], false).state;
      var t' := DiskAdded(t, n, number, backings[0], true).state;
      StepBetween(a, f, s, ms, number, backings);
      SettingsResources(s', t');
      CachedSuffices(a, f, s', t', ms[1..], number, backings[1..]);
    }
  }

  lemma StepBetween(a: State, f: State, s: State, ms: seq<nat>, number: nat, backings: seq<Option<Backing>>)
    requires Linked(a) && Linked(f) && Linked(s) && Between(a, f, s)
    requires ms != [] && Among(s, ms) && OrderedSets.NoDup(ms) && Remaining(a, f, s, ms, backings)
    requires DisksAdded(s, ms, number, backings, false).ok && DisksAdded(s, ms, number, backings, false).state == f
    ensures ms[0] in ms
    ensures var s' := DiskAdded(s, ms[0], number, backings[0], false).state;
            Between(a, f, s') && Remaining(a, f, s', ms[1..], backings[1..]) && Among(s', ms[1..])
  {
    hide DiskAdded, SameSettings, CanWrite, Alike, GotVolumes, AllMarked;
    assert ms[0] in ms && forall n :: n in ms[1..] ==> n in ms;
    var s' := DiskAdded(s, ms[0], number, backings[0], false).state;
    DiskAddedAlike(s, ms[0], number, backings[0]);
    AlikeThen(a, s, s');
    AlikeThen(f, s, s');
    DiskAddedIs(s, ms[0], number, backings[0], false);
    assert ms[0] !in ms[1..];
    DisksAddedIs(s', ms[1..], number, backings[1..], false);
    assert f.nodes[ms[0]] == s'.nodes[ms[0]];
    forall i | 0 <= i < |ms[1..]|
      ensures s'.nodes[ms[1..][i]] == a.nodes[ms[1..][i]] && backings[1..][i] == backings[i + 1] && ms[1..][i] == ms[i + 1]
    {
      assert ms[i + 1] != ms[0];
    }
  }

  lemma {:induction false} DirectIsStricter(s: State, t: State, ms: seq<nat>, number: nat, backings: seq<Option<Backing>>)
    requires Linked(s) && Linked(t) && SameSettings(s, t) && Among(s, ms) && Among(t, ms) && |backings| == |ms|
    requires DisksAdded(t, ms, number, backings, true).ok
    ensures DisksAdded(s, ms, number, backings, false).ok
    ensures SameSettings(DisksAdded(s, ms, number, backings, false).state, DisksAdded(t, ms, number, backings, true).state)
    decreases |ms|
  {
    hide DiskAdded, SameSettings, CanWrite, MinorTaken;
    if ms != [] {
      assert ms[0] in ms && forall n :: n in ms[1..] ==> n in ms;
      SettingsResources(s, t);
      TwinDiskAdded(s, t, ms[0], number, backings[0]);
      DirectIsStricter(DiskAdded(s, ms[0], number, backings[0], false).state, DiskAdded(t, ms[0], number, backings[0], true).state,
                       ms[1..], number, backings[1..]);
    }
  }

  /** After the first loop all members are marked, and the second one raises alike. */
  lemma {:induction false} TwinMetadata(s: State, t: State, ms: seq<nat>, backings: seq<Option<Backing>>)
    requires Linked(s) && Linked(t) && SameSettings(s, t) && Among(s, ms) && Among(t, ms) && |backings| == |ms|
    requires OrderedSets.NoDup(ms) && AllMarked(s, ms)
    ensures var a, b := MetadataCreated(s, ms, backings, false), MetadataCreated(t, ms, backings, true);
            a.ok == b.ok && SameSettings(a.state, b.state)
    decreases |ms|
  {
    hide UpdatedIf, SameSettings, CanWrite;
    if ms != [] {
      assert ms[0] in ms && forall n :: n in ms[1..] ==> n in ms;
      SettingsResources(s, t);
      var update := backings[0].Some?;
      TwinUpdates(update, s, t, ms[0]);
      UpdateIsOnlyCache(update, s, ms[0], false);
      var s', t' := UpdatedIf(update, s, ms[0], false), UpdatedIf(update, t, ms[0], true);
      assert s'.ok == t'.ok;
      if s'.ok {
        RestMarked(update, s, ms);
        TwinMetadata(s'.state, t'.state, ms[1..], backings[1..]);
      }
    }
  }

  /** If the second loop does not raise, everything that it wrote could be written before. */
  lemma MetadataWrites(s: State, ms: seq<nat>, backings: seq<Option<Backing>>)
    requires Linked(s) && Among(s, ms) && |backings| == |ms| && OrderedSets.NoDup(ms) && AllMarked(s, ms)
    requires MetadataCreated(s, ms, backings, false).ok
    ensures forall i :: 0 <= i < |ms| && backings[i].Some? ==> ms[i] < |s.nodes| && CanWrite(s, ms[i])
  {
    hide MetadataCreated, CanWrite, SameSettings;
    var t := MetadataCreated(s, ms, backings, false).state;
    MetadataRaises(s, ms, backings);
    MetadataIsOnlyCache(s, ms, backings, false);
    SettingsResources(s, t);
    forall i | 0 <= i < |ms| && backings[i].Some?
      ensures ms[i] < |s.nodes| && CanWrite(s, ms[i])
    {
      assert FileWritable(t, ms[i], backings[i]);
      SettingsSay(s, t, ms[i]);
    }
  }

  // ---- Resource.add_disk ----

  lemma Counting(s: State, t: State, r: nat)
    requires Linked(s) && Linked(t) && SameSettings(s, t) && r < |s.resources|
    ensures r < |t.resources| && MembersLinked(s, r) && t.resources == s.resources
    ensures var rs := s.resources[r];
            var c, d := WithResource(s, r, rs.(count := rs.count + 1)), WithResource(t, r, rs.(count := rs.count + 1));
            SameSettings(c, d) && Info(c, r) == Info(s, r) && c.nodes == s.nodes
            && forall n :: 0 <= n < |s.nodes| ==> Me(c, n) == Me(s, n)
  {
    assert MembersLinked(s, r);
  }

  lemma FreshWrites(s: State, n: nat)
    requires Linked(s) && n < |s.nodes| && Fresh(s, n) && !s.nodes[n].marked
    ensures CanWrite(s, n)
  {
    hide Config, WritableState, Found;
    ConfigRaisesIff(Me(s, n), Info(s, s.nodes[n].resource));
  }

  lemma BetweenAtFirst(a: State, f: State)
    requires Alike(a, f)
    ensures Between(a, f, a)
  {
    assert forall h :: 0 <= h < |a.hosts| ==> SameHost(a.hosts[h], f.hosts[h]);
    assert forall n :: 0 <= n < |a.nodes| ==> SameButVolumes(a.nodes[n], f.nodes[n]);
  }

  lemma {:induction false} DisksAddedAlike(s: State, ms: seq<nat>, number: nat, backings: seq<Option<Backing>>)
    requires Linked(s) && Among(s, ms) && |backings| == |ms| && DisksAdded(s, ms, number, backings, false).ok
    ensures Alike(s, DisksAdded(s, ms, number, backings, false).state)
    decreases |ms|
  {
    hide DiskAdded, Alike;
    if ms == [] {
      assert Alike(s, s) by { AlikeSelf(s); }
    } else {
      assert ms[0] in ms && forall n :: n in ms[1..] ==> n in ms;
      var t := DiskAdded(s, ms[0], number, backings[0], false).state;
      DiskAddedAlike(s, ms[0], number, backings[0]);
      DisksAddedAlike(t, ms[1..], number, backings[1..]);
      AlikeThen(s, t, DisksAdded(t, ms[1..], number, backings[1..], false).state);
    }
  }

  lemma AlikeSelf(s: State)
    ensures Alike(s, s)
  {
  }

  /** What the flags skip in Resource.add_disk would not have raised, as long as the
      resource is current at first. */
  lemma CachedVolumesSuffice(c: State, d: State, ms: seq<nat>, number: nat, backings: seq<Option<Backing>>)
    requires Linked(c) && Linked(d) && SameSettings(c, d) && Among(c, ms) && Among(d, ms) && OrderedSets.NoDup(ms) && |backings| == |ms|
    requires forall i :: 0 <= i < |ms| ==> ms[i] < |c.nodes| && (!c.nodes[ms[i]].marked ==> CanWrite(c, ms[i]))
    requires DisksAdded(c, ms, number, backings, false).ok
    requires var f := DisksAdded(c, ms, number, backings, false).state;
             forall i :: 0 <= i < |ms| && backings[i].Some? ==> ms[i] < |f.nodes| && CanWrite(f, ms[i])
    ensures DisksAdded(d, ms, number, backings, true).ok
  {
    hide DisksAdded, SameSettings, CanWrite, Alike;
    var f := DisksAdded(c, ms, number, backings, false).state;
    DisksAddedAlike(c, ms, number, backings);
    BetweenAtFirst(c, f);
    assert |f.nodes| == |c.nodes|;
    assert Remaining(c, f, c, ms, backings);
    CachedSuffices(c, f, c, d, ms, number, backings);
  }

  lemma TwinVolumes(s: State, t: State, r: nat, backings: seq<Option<Backing>>)
    requires Linked(s) && Linked(t) && SameSettings(s, t) && CoherentBut(s, {}) && r < |s.resources|
    requires |backings| == |s.resources[r].members| && r < |t.resources| && t.resources[r] == s.resources[r]
    ensures var a, b := VolumeAdded(s, r, backings, false), VolumeAdded(t, r, backings, true);
            a.ok == b.ok && (a.ok ==> SameSettings(a.state, b.state))
  {
    hide DisksAdded, MetadataCreated, SameSettings, CanWrite, Info, Me, Fresh;
    var rs := s.resources[r];
    var ms := rs.members;
    Counting(s, t, r);
    var c, d := WithResource(s, r, rs.(count := rs.count + 1)), WithResource(t, r, rs.(count := rs.count + 1));
    var f, g := DisksAdded(c, ms, rs.count, backings, false), DisksAdded(d, ms, rs.count, backings, true);
    SettingsResources(s, t);
    MembersIn(s, r);
    if g.ok {
      DirectIsStricter(c, d, ms, rs.count, backings);
    }
    if f.ok {
      DisksAddedIs(c, ms, rs.count, backings, false);
      assert Among(f.state, ms) && AllMarked(f.state, ms);
      if g.ok {
        TwinMetadata(f.state, g.state, ms, backings);
      } else if MetadataCreated(f.state, ms, backings, false).ok {
        MetadataWrites(f.state, ms, backings);
        MembersWrite(s, c, r);
        CachedVolumesSuffice(c, d, ms, rs.count, backings);
        assert false;
      }
    }
  }

  lemma MembersWrite(s: State, c: State, r: nat)
    requires Linked(s) && Linked(c) && CoherentBut(s, {}) && r < |s.resources| && r < |c.resources|
    requires Info(c, r) == Info(s, r) && c.nodes == s.nodes && forall n :: 0 <= n < |s.nodes| ==> Me(c, n) == Me(s, n)
    ensures forall n :: n in s.resources[r].members && n < |c.nodes| && !c.nodes[n].marked ==> CanWrite(c, n)
  {
    hide Fresh, WritableState, Info, Me;
    assert MembersLinked(s, r);
    forall n | n in s.resources[r].members && n < |c.nodes| && !c.nodes[n].marked
      ensures CanWrite(c, n)
    {
      assert IsMember(s, n);
      FreshWrites(s, n);
    }
  }

  // ---- every step ----

  lemma TwinSetter(s: State, t: State, r: nat, change: Change)
    requires Linked(s) && Linked(t) && SameSettings(s, t) && r < |s.resources| && r < |t.resources| && IsSetter(change)
    ensures SameSettings(Set(s, r, change), Set(t, r, change))
  {
    hide Assigned;
  }

  lemma TwinFenced(s: State, t: State, ms: seq<nat>, mode: string)
    requires Linked(s) && Linked(t) && SameSettings(s, t)
    ensures SameSettings(Fenced(s, ms, mode), Fenced(t, ms, mode))
  {
    forall n | 0 <= n < |s.nodes|
      ensures Fenced(t, ms, mode).nodes[n].(marked := false) == Fenced(s, ms, mode).nodes[n].(marked := false)
    {
      var a, b := s.nodes[n], t.nodes[n];
      assert b.(marked := false).(fencing := mode) == a.(marked := false).(fencing := mode);
      assert a.(fencing := mode, marked := true).(marked := false) == a.(marked := false).(fencing := mode);
      assert b.(fencing := mode, marked := true).(marked := false) == b.(marked := false).(fencing := mode);
    }
  }

  lemma TwinTouched(s: State, t: State, ms: seq<nat>)
    requires Linked(s) && Linked(t) && SameSettings(s, t)
    ensures SameSettings(Touched(s, ms), Touched(t, ms))
  {
  }

  lemma TwinTiebreaker(s: State, t: State, n: nat, position: nat, answer: Option<bool>)
    requires Linked(s) && Linked(t) && SameSettings(s, t) && n < |s.nodes| && position < |s.nodes[n].volumes|
    ensures n < |t.nodes| && t.nodes[n].volumes == s.nodes[n].volumes
    ensures SameSettings(TiebreakerSet(s, n, position, answer), TiebreakerSet(t, n, position, answer))
  {
    var a, b := s.nodes[n], t.nodes[n];
    assert a.(marked := false) == b.(marked := false);
    assert a.volumes == b.volumes;
    var v := a.volumes[position];
    var vs := a.volumes[position := v.(info := v.info.(tiebreaker := answer))];
    assert a.(volumes := vs).(marked := false) == a.(marked := false).(volumes := vs);
    assert b.(volumes := vs).(marked := false) == b.(marked := false).(volumes := vs);
  }

  lemma TwinMembers(s: State, t: State, r: nat, n: nat)
    requires Linked(s) && Linked(t) && SameSettings(s, t) && r < |s.resources| && r < |t.resources| && n < |s.nodes|
    ensures n < |t.nodes| && t.nodes[n].resource == s.nodes[n].resource
    ensures s.nodes[n].resource == r ==> SameSettings(Joined(s, r, n), Joined(t, r, n))
    ensures SameSettings(Left(s, r, n), Left(t, r, n))
  {
    hide OrderedSets.RemoveFirst;
    assert s.nodes[n].(marked := false) == t.nodes[n].(marked := false);
  }

  lemma TwinCreated(s: State, t: State, r: nat, h: nat)
    requires Linked(s) && Linked(t) && SameSettings(s, t) && r < |s.resources| && r < |t.resources| && h < |s.hosts| && h < |t.hosts|
    ensures SameSettings(NodeCreated(s, r, h), NodeCreated(t, r, h))
  {
    var a, b := NodeCreated(s, r, h), NodeCreated(t, r, h);
    var g, k := s.hosts[h], t.hosts[h];
    assert g.(files := map[]) == k.(files := map[]);
    assert g.port == k.port;
    assert g.(port := g.port + 1).(files := map[]) == g.(files := map[]).(port := g.port + 1);
    assert k.(port := k.port + 1).(files := map[]) == k.(files := map[]).(port := k.port + 1);
    assert forall n :: 0 <= n < |s.nodes| ==> a.nodes[n] == s.nodes[n] && b.nodes[n] == t.nodes[n];
    assert a.nodes[|s.nodes|] == b.nodes[|s.nodes|];
  }

  lemma {:induction false} TwinNodes(s: State, t: State, r: nat, from: nat)
    requires Linked(s) && Linked(t) && SameSettings(s, t) && r < |s.resources| && r < |t.resources|
    requires from <= |s.hosts| == |t.hosts|
    ensures SameSettings(NodesCreated(s, r, from), NodesCreated(t, r, from))
    decreases |s.hosts| - from
  {
    hide SameSettings, NodeCreated;
    if from < |s.hosts| {
      TwinCreated(s, t, r, from);
      TwinNodes(NodeCreated(s, r, from), NodeCreated(t, r, from), r, from + 1);
    }
  }

  lemma TwinResource(s: State, t: State, name: string)
    requires Linked(s) && Linked(t) && SameSettings(s, t)
    ensures SameSettings(ResourceCreated(s, name), ResourceCreated(t, name))
  {
    hide NodesCreated;
    TwinNodes(ResourceListed(s, name), ResourceListed(t, name), |s.resources|, 0);
  }

  /** A command, in both. */
  lemma TwinCommand(s: State, t: State, r: nat, k: nat, update: bool)
    requires Linked(s) && Linked(t) && SameSettings(s, t) && r < |s.resources| && r < |t.resources| && CoherentBut(s, {})
    requires k < |s.resources[r].members| && k < |t.resources[r].members|
    ensures var a, b := Ran(s, Member(s, r, k), update, false), Ran(t, Member(t, r, k), update, true);
            a.ok == b.ok && SameSettings(a.state, b.state) && (update ==> a.seen == b.seen)
  {
    hide SameSettings, Updated, Current, CanWrite, Found;
    SettingsResources(s, t);
    var n := Member(s, r, k);
    assert IsMember(s, n) && Fresh(s, n);
    TwinUpdates(update, s, t, n);
    if !s.nodes[n].marked {
      FreshWrites(s, n);
    }
    if update && UpdatedIf(update, s, n, false).ok {
      CurrentAfterUpdate(s, n);
      DirectUpdateIs(t, n);
      SettingsSay(s, t, n);
    }
  }

  ghost predicate Twins(a: Outcome, b: Outcome) {
    a.ok == b.ok && (a.ok ==> SameSettings(a.state, b.state))
  }

  lemma TwinMembership(s: State, t: State, r: nat, change: Change)
    requires Linked(s) && Linked(t) && SameSettings(s, t) && r < |s.resources| && r < |t.resources|
    requires change.AddNode? || change.RemoveNode?
    ensures Twins(Changed(s, r, change, false), Changed(t, r, change, true))
  {
    hide SameSettings, Touched, Joined, Left;
    SettingsResources(s, t);
    if change.AddNode? {
      if change.p < |s.nodes| {
        TwinMembers(s, t, r, change.p);
        if s.nodes[change.p].resource == r {
          var a, b := Joined(s, r, change.p), Joined(t, r, change.p);
          SettingsResources(a, b);
          TwinTouched(a, b, a.resources[r].members);
        }
      }
    } else if change.k < |s.resources[r].members| {
      var n := Member(s, r, change.k);
      TwinMembers(s, t, r, n);
      var a, b := Left(s, r, n), Left(t, r, n);
      SettingsResources(a, b);
      TwinTouched(a, b, a.resources[r].members);
    }
  }

  lemma TwinOptions(s: State, t: State, r: nat, change: Change)
    requires Linked(s) && Linked(t) && SameSettings(s, t) && r < |s.resources| && r < |t.resources|
    requires IsSetter(change) || change.SetFencing? || change.SetTiebreaker?
    ensures Twins(Changed(s, r, change, false), Changed(t, r, change, true))
  {
    hide SameSettings, Set, Fenced, Touched, TiebreakerSet;
    SettingsResources(s, t);
    if IsSetter(change) {
      TwinSetter(s, t, r, change);
    } else if change.SetFencing? {
      TwinFenced(s, t, s.resources[r].members, change.mode);
    } else if change.k < |s.resources[r].members| {
      var n := Member(s, r, change.k);
      assert s.nodes[n].volumes == t.nodes[n].volumes by { VolumesAlike(s, t, n); }
      if change.position < |s.nodes[n].volumes| {
        TwinTiebreaker(s, t, n, change.position, change.answer);
        TwinTouched(TiebreakerSet(s, n, change.position, change.answer), TiebreakerSet(t, n, change.position, change.answer),
                    s.resources[r].members);
      }
    }
  }

  lemma VolumesAlike(s: State, t: State, n: nat)
    requires SameSettings(s, t) && n < |s.nodes|
    ensures n < |t.nodes| && s.nodes[n].volumes == t.nodes[n].volumes
  {
    assert s.nodes[n].(marked := false) == t.nodes[n].(marked := false);
  }

  lemma TwinChange(s: State, t: State, r: nat, change: Change)
    requires Linked(s) && Linked(t) && SameSettings(s, t) && r < |s.resources| && r < |t.resources| && CoherentBut(s, {})
    requires Orderly(On(r, change))
    ensures Twins(Changed(s, r, change, false), Changed(t, r, change, true))
    ensures Updating(On(r, change)) ==> Changed(s, r, change, false).seen == Changed(t, r, change, true).seen
  {
    hide SameSettings, CoherentBut, VolumeAdded, Ran, Set, Fenced, Touched, Joined, Left, TiebreakerSet;
    SettingsResources(s, t);
    if change.AddDisk? {
      if |change.backings| == |s.resources[r].members| {
        TwinVolumes(s, t, r, change.backings);
      }
    } else if change.Command? {
      if change.k < |s.resources[r].members| {
        TwinCommand(s, t, r, change.k, change.update);
      }
    } else if change.AddNode? || change.RemoveNode? {
      TwinMembership(s, t, r, change);
    } else {
      TwinOptions(s, t, r, change);
    }
  }

  lemma TwinStep(s: State, t: State, step: Step)
    requires Linked(s) && Linked(t) && SameSettings(s, t) && CoherentBut(s, {}) && Orderly(step)
    ensures Twins(Next(s, step, false), Next(t, step, true))
    ensures Updating(step) ==> Next(s, step, false).seen == Next(t, step, true).seen
  {
    hide SameSettings, CoherentBut, Changed, ResourceCreated;
    SettingsResources(s, t);
    match step
    case CreateResource(name) => TwinResource(s, t, name);
    case On(r, change) =>
      if r < |s.resources| {
        TwinChange(s, t, r, change);
      }
  }

  /** Two runs of the same steps that raise at the same place, if at all, and show the same
      files to commands with update_config. */
  ghost predicate SameRun(steps: seq<Step>, a: Run, b: Run) {
    a.ok == b.ok && |a.seen| == |b.seen| <= |steps|
    && (forall i :: 0 <= i < |a.seen| && Updating(steps[i]) ==> a.seen[i] == b.seen[i])
    && (a.ok ==> SameSettings(a.state, b.state))
  }

  /** Over every sequence of setters, members that come and go, volumes for whole
      resources, new resources and commands in which no resource is given the name of
      another one, the cache cannot be noticed. */
  lemma {:induction false} Transparent(s: State, t: State, steps: seq<Step>)
    requires Linked(s) && Linked(t) && SameSettings(s, t) && CoherentBut(s, {}) && OneEach(s)
    requires DistinctNames(Names(s), steps) && forall i :: 0 <= i < |steps| ==> Orderly(steps[i])
    ensures SameRun(steps, Replay(s, steps, false), Replay(t, steps, true))
    decreases |steps|
  {
    hide SameSettings, CoherentBut, OneEach, Names, Next, Orderly, Private, Updating;
    if steps != [] {
      assert Orderly(steps[0]) && forall i :: 0 <= i < |steps[1..]| ==> Orderly(steps[1..][i]);
      TwinStep(s, t, steps[0]);
      var a, b := Next(s, steps[0], false), Next(t, steps[0], true);
      if a.ok {
        DistinctNamesPrivate(s);
        NextKeeps(s, steps[0], {});
        OrderlyStays(s, steps[0]);
        NextNames(s, steps[0]);
        Transparent(a.state, b.state, steps[1..]);
        OneMore(steps, a.seen, b.seen, Replay(a.state, steps[1..], false), Replay(b.state, steps[1..], true));
      }
    }
  }

  lemma OneMore(steps: seq<Step>, x: Option<string>, y: Option<string>, a: Run, b: Run)
    requires steps != [] && SameRun(steps[1..], a, b) && (Updating(steps[0]) ==> x == y)
    ensures SameRun(steps, a.(seen := [x] + a.seen), b.(seen := [y] + b.seen))
  {
    hide SameSettings, Updating;
    assert forall i :: 0 < i < |steps| ==> steps[i] == steps[1..][i - 1];
  }

  lemma OrderlyStays(s: State, step: Step)
    requires Linked(s) && Orderly(step)
    ensures NextStale(s, step, {}) == {}
  {
    hide Heals;
  }

  // ---- from the start ----

  ghost predicate Empty(s: State) {
    s.resources == [] && s.nodes == []
  }

  lemma EmptyIsFine(s: State)
    requires Empty(s)
    ensures Linked(s) && CoherentBut(s, {}) && OneEach(s) && Allocated(s) && InOrder(s) && Counted(s) && Names(s) == []
  {
  }

  /** What every test can rely on that starts without resources: minors and ports are
      distinct on each host; and as long as it creates no nodes by hand, changes volumes
      for whole resources only and gives no name twice, its commands find current files,
      and the cache cannot be noticed. */
  lemma FromTheStart(s: State, steps: seq<Step>)
    requires Empty(s)
    ensures Linked(s) && Allocated(Replay(s, steps, false).state)
    ensures DistinctNames([], steps) && (forall i :: 0 <= i < |steps| ==> Orderly(steps[i])) ==>
              SeesCurrent(s, steps, {}) && SameRun(steps, Replay(s, steps, false), Replay(s, steps, true))
  {
    hide Replay, Allocated, CoherentBut, OneEach, InOrder, Counted, SeesCurrent, SameRun, DistinctNames, Names, Orderly, SameSettings;
    EmptyIsFine(s);
    RunAllocated(s, steps, false);
    if DistinctNames([], steps) && forall i :: 0 <= i < |steps| ==> Orderly(steps[i]) {
      OrderlyRun(s, steps);
      SameIsSame(s);
      Transparent(s, s, steps);
    }
  }
}
