/** python/drbdtest.py, classes Host, Volume, Node, Resource and Cluster: the objects that
    a test updates in place.  Each method does to the state that the objects stand for
    what ClusterState says, and what holds over every run is proved there. */
module ClusterConfig {
  import opened Wrappers
  import NC = NodeConfig
  import opened ConfigWriter
  import opened ClusterState
  import OrderedSets

  class Host {
    const name: string
    const hostname: string
    const addrs: seq<string>
    const osId: string
    const osVersion: string
    var minors: nat
    var port: nat
    /** The configuration files on the host, by resource name. */
    var deployed: map<string, string>

    constructor (name: string, hostname: string, addrs: seq<string>, osId: string, osVersion: string)
      ensures Is(HostState(name, hostname, addrs, osId, osVersion, 0, 7789, map[]))
    {
      this.name, this.hostname, this.addrs := name, hostname, addrs;
      this.osId, this.osVersion := osId, osVersion;
      minors, port, deployed := 0, 7789, map[];
    }

    ghost predicate Is(s: HostState)
      reads this
    {
      s == Value()
    }

    ghost function Value(): HostState
      reads this
    {
      HostState(name, hostname, addrs, osId, osVersion, minors, port, deployed)
    }

    method NextMinor() returns (minor: nat)
      modifies this`minors
      ensures minor == minors == old(minors) + 1
    {
      minors := minors + 1;
      minor := minors;
    }

    method NextPort() returns (p: nat)
      modifies this`port
      ensures p == old(port) && port == old(port) + 1
    {
      p := port;
      port := port + 1;
    }
  }

  /** The paths are those of the disks that `create_disks` makes. */
  class Volume {
    const node: Node
    const number: nat
    const minor: nat
    const disk: Option<string>
    const meta: Option<string>
    var tiebreaker: Option<bool>

    constructor (node: Node, number: nat, minor: nat, disk: Option<string>, meta: Option<string>)
      ensures this.node == node && Is(VolumeState(number, NC.VolumeInfo(minor, disk, meta, None)))
    {
      this.node, this.number, this.minor, this.disk, this.meta := node, number, minor, disk, meta;
      tiebreaker := None;
    }

    function Info(): NC.VolumeInfo
      reads this`tiebreaker
    {
      NC.VolumeInfo(minor, disk, meta, tiebreaker)
    }

    ghost predicate Is(s: VolumeState)
      reads this
    {
      s.number == number && s.info == Info()
    }
  }

  function DiskInfos(vs: seq<Volume>): (infos: seq<NC.VolumeInfo>)
    reads vs`tiebreaker
    ensures |infos| == |vs|
  {
    if vs == [] then []
    else
      var v := vs[|vs| - 1];
      DiskInfos(vs[..|vs| - 1]) + [v.Info()]
  }

  lemma {:induction false} DiskInfosAt(vs: seq<Volume>, k: nat)
    requires k < |vs|
    ensures DiskInfos(vs)[k] == vs[k].Info()
  {
    if k < |vs| - 1 {
      DiskInfosAt(vs[..|vs| - 1], k);
    }
  }

  function MemberInfos(ns: seq<Node>): (infos: seq<NC.NodeInfo>)
    reads ns`disks, VolumesOf(ns)`tiebreaker
    ensures |infos| == |ns|
  {
    if ns == [] then []
    else
      var n := ns[|ns| - 1];
      assert forall v :: v in n.disks ==> v in VolumesOf(ns);
      MemberInfos(ns[..|ns| - 1]) + [n.Info()]
  }

  lemma {:induction false} MemberInfosAt(ns: seq<Node>, i: nat)
    requires i < |ns|
    ensures MemberInfos(ns)[i] == ns[i].Info()
  {
    if i < |ns| - 1 {
      MemberInfosAt(ns[..|ns| - 1], i);
    }
  }

  ghost function VolumesOf(ns: seq<Node>): set<Volume>
    reads ns`disks
  {
    set n, v | n in ns && v in n.disks :: v
  }

  class Node {
    const host: Host
    const resource: Resource
    const id: nat
    const port: nat
    var fencing: string
    var disks: seq<Volume>
    var configChanged: bool

    constructor (host: Host, resource: Resource, id: nat, port: nat)
      ensures this.host == host && this.resource == resource && this.id == id && this.port == port
      ensures fencing == "" && disks == [] && configChanged
    {
      this.host, this.resource, this.id, this.port := host, resource, id, port;
      fencing, disks, configChanged := "", [], true;
    }

    /** What the node stands for, given all hosts and resources. */
    ghost predicate Is(s: NodeState, hosts: seq<Host>, resources: seq<Resource>)
      reads this, disks
    {
      s.host < |hosts| && host == hosts[s.host] && s.resource < |resources| && resource == resources[s.resource]
      && s.id == id && s.port == port && s.fencing == fencing && s.marked == configChanged
      && OrderedSets.NoDup(disks) && |s.volumes| == |disks|
      && forall k :: 0 <= k < |disks| ==> disks[k].node == this && disks[k].Is(s.volumes[k])
    }

    /** This is node n of a valid cluster. */
    ghost predicate Known(n: nat)
      reads resource.cluster, resource.cluster.repr
    {
      resource.cluster.Valid() && n < |resource.cluster.nodes| && resource.cluster.nodes[n] == this
    }

    function Info(): NC.NodeInfo
      reads this`disks, disks`tiebreaker
    {
      NC.NodeInfo(id, host.name, host.hostname, host.addrs, port, DiskInfos(disks))
    }

    function Own(): NC.Own
      reads this`fencing
    {
      NC.Own(fencing, host.osId, host.osVersion)
    }

    /** `config()`, which changes nothing but the stack of blocks, and that only for a
        while. */
    method WriteCurrent(ghost n: nat) returns (text: Option<string>)
      requires Known(n)
      modifies resource.cluster.stack`blocks
      ensures Known(n) && text == Current(resource.cluster.state, n)
    {
      hide NC.Config;
      resource.cluster.InfosAgree(n);
      text := WriteConfig(resource.cluster.stack, Own(), resource.Info());
    }

    method SetChanged(ghost n: nat, changed: bool)
      requires Known(n)
      modifies this`configChanged, resource.cluster`state
      ensures Known(n) && configChanged == changed
      ensures resource.cluster.state == Flagged(old(resource.cluster.state), n, changed)
    {
      hide Host.Is, Resource.Is, Linked;
      configChanged := changed;
      resource.cluster.state := Flagged(resource.cluster.state, n, changed);
    }

    /** The file on the host. */
    method WriteFile(ghost n: nat, text: string)
      requires Known(n)
      modifies host`deployed, resource.cluster`state
      ensures host.deployed == old(host.deployed)[resource.name := text]
      ensures Known(n) && resource.cluster.state == Deployed(old(resource.cluster.state), n, text)
    {
      host.deployed := host.deployed[resource.name := text];
      resource.cluster.state := Deployed(resource.cluster.state, n, text);
    }

    /** `update_config`: a node that is not marked is left alone. */
    method UpdateConfig(ghost n: nat) returns (ok: bool)
      requires Known(n)
      modifies this`configChanged, host`deployed, resource.cluster`state, resource.cluster.stack`blocks
      ensures Known(n) && Outcome(resource.cluster.state, ok, None) == Updated(old(resource.cluster.state), n, false)
      ensures !configChanged
      ensures ok && old(configChanged) ==>
                Current(resource.cluster.state, n).Some?
                && host.deployed == old(host.deployed)[resource.name := Current(resource.cluster.state, n).value]
      ensures !ok || !old(configChanged) ==> host.deployed == old(host.deployed)
    {
      hide NC.Config, Linked, Host.Is, Resource.Is;
      ok := true;
      if configChanged {
        ok := Deploy(n);
      }
    }

    /** The flag is cleared first, and an exception from config() leaves it cleared. */
    method Deploy(ghost n: nat) returns (ok: bool)
      requires Known(n) && configChanged
      modifies this`configChanged, host`deployed, resource.cluster`state, resource.cluster.stack`blocks
      ensures Known(n) && Outcome(resource.cluster.state, ok, None) == Updated(old(resource.cluster.state), n, false)
      ensures !configChanged
      ensures ok && old(configChanged) ==>
                Current(resource.cluster.state, n).Some?
                && host.deployed == old(host.deployed)[resource.name := Current(resource.cluster.state, n).value]
      ensures !ok || !old(configChanged) ==> host.deployed == old(host.deployed)
    {
      hide Linked, Host.Is, Resource.Is, Flagged, Deployed, Current;
      SetChanged(n, false);
      FlagAside(old(resource.cluster.state), n);
      var text := WriteCurrent(n);
      if text.None? {
        return false;
      }
      WriteFile(n, text.value);
      WrittenAside(old(resource.cluster.state), n, text.value);
      ok := true;
    }

    /** `run`; `seen` is the file that the command finds. */
    method Run(ghost n: nat, update: bool) returns (ok: bool, seen: Option<string>)
      requires Known(n)
      modifies this`configChanged, host`deployed, resource.cluster`state, resource.cluster.stack`blocks
      ensures Known(n) && Outcome(resource.cluster.state, ok, seen) == Ran(old(resource.cluster.state), n, update, false)
      ensures ok ==> seen == if resource.name in host.deployed then Some(host.deployed[resource.name]) else None
    {
      hide NC.Config, Linked, Updated;
      ok, seen := true, None;
      if update {
        ok := UpdateConfig(n);
      }
      if ok {
        seen := if resource.name in host.deployed then Some(host.deployed[resource.name]) else None;
      }
    }

    /** The minor for a volume: a new one, or that of the volume to be replaced. */
    method ChooseMinor(ghost n: nat, number: nat) returns (minor: nat)
      requires Known(n)
      modifies host`minors, resource.cluster`state
      ensures Known(n) && resource.cluster.state == MinorTaken(old(resource.cluster.state), n, number)
      ensures minor == MinorFor(old(resource.cluster.state), n, number)
      ensures host.minors == old(host.minors) + (if number < |disks| then 0 else 1)
      ensures minor == if number < |disks| then disks[number].minor else host.minors
    {
      hide Linked, Resource.Is;
      if number >= |disks| {
        minor := host.NextMinor();
      } else {
        minor := disks[number].minor;
      }
      resource.cluster.state := MinorTaken(resource.cluster.state, n, number);
    }

    lemma Placing(n: nat, volume: Volume, v: VolumeState)
      requires Known(n) && volume.node == this && volume.Is(v) && volume !in resource.cluster.repr
      ensures var after := if volume.number >= |disks| then disks + [volume] else disks[volume.number := volume];
              var vs := Placed(resource.cluster.state.nodes[n].volumes, v);
              OrderedSets.NoDup(after) && |after| == |vs|
              && (forall k :: 0 <= k < |after| ==> after[k].node == this && after[k].Is(vs[k]))
              && (forall w :: w in after ==> w in resource.cluster.repr || w == volume)
      ensures forall m :: 0 <= m < |resource.cluster.nodes| && m != n ==> resource.cluster.nodes[m] != this
    {
      hide Linked, Host.Is, Resource.Is;
      assert Is(resource.cluster.state.nodes[n], resource.cluster.hosts, resource.cluster.resources);
    }

    /** A new volume is appended, or replaces the one at its position; the node is marked. */
    method PlaceVolume(ghost n: nat, volume: Volume, ghost v: VolumeState)
      requires Known(n) && volume.node == this && volume.Is(v) && volume !in resource.cluster.repr
      modifies this`disks, this`configChanged, resource.cluster`state, resource.cluster`repr
      ensures Known(n) && resource.cluster.state == VolumeListed(old(resource.cluster.state), n, v)
      ensures resource.cluster.repr == old(resource.cluster.repr) + {volume}
      ensures disks == if volume.number < |old(disks)| then old(disks)[volume.number := volume] else old(disks) + [volume]
      ensures configChanged
    {
      hide Linked, Host.Is, Resource.Is, OrderedSets.NoDup, Volume.Is, Placed;
      Placing(n, volume, v);
      disks := if volume.number >= |disks| then disks + [volume] else disks[volume.number := volume];
      configChanged := true;
      resource.cluster.repr := resource.cluster.repr + {volume};
      resource.cluster.state := VolumeListed(resource.cluster.state, n, v);
    }

    /** `add_disk`. */
    method AddDisk(ghost n: nat, number: nat, backing: Option<Backing>) returns (ok: bool)
      requires Known(n)
      modifies this, host, resource.cluster`state, resource.cluster`repr, resource.cluster.stack`blocks
      ensures Known(n) && Outcome(resource.cluster.state, ok, None) == DiskAdded(old(resource.cluster.state), n, number, backing, false)
      ensures resource.cluster.repr >= old(resource.cluster.repr) && fresh(resource.cluster.repr - old(resource.cluster.repr))
      ensures host.minors == old(host.minors) + (if number < |old(disks)| then 0 else 1)
      ensures !ok ==> disks == old(disks)
      ensures ok ==> exists v: Volume :: fresh(v) && v.number == number && v.tiebreaker == None
                       && v.disk == (if backing.Some? then Some(backing.value.disk) else None)
                       && v.meta == (if backing.Some? then backing.value.meta else None)
                       && v.minor == (if number < |old(disks)| then old(disks)[number].minor else host.minors)
                       && disks == if number < |old(disks)| then old(disks)[number := v] else old(disks) + [v]
      ensures ok ==> configChanged
    {
      hide Linked, Host.Is, Resource.Is, MinorTaken, MinorFor, Updated, VolumeListed, Node.Is;
      var minor := ChooseMinor(n, number);
      if backing.Some? && !backing.value.created {
        return false;
      }
      if backing.Some? && backing.value.zeroOut {
        var blanked, _ := Run(n, true);
        if !blanked {
          return false;
        }
      }
      var volume := new Volume(this, number, minor, if backing.Some? then Some(backing.value.disk) else None,
                               if backing.Some? then backing.value.meta else None);
      PlaceVolume(n, volume, NewVolume(number, minor, backing));
      ok := true;
    }

    method SetFencingMode(ghost n: nat, mode: string)
      requires Known(n)
      modifies this`fencing, this`configChanged, resource.cluster`state
      ensures Known(n) && fencing == mode && configChanged
      ensures resource.cluster.state == WithNode(old(resource.cluster.state), n,
                                                 old(resource.cluster.state.nodes[n]).(fencing := mode, marked := true))
    {
      hide Linked, Host.Is, Resource.Is;
      fencing := mode;
      configChanged := true;
      resource.cluster.state := WithNode(resource.cluster.state, n, resource.cluster.state.nodes[n].(fencing := mode, marked := true));
    }

    method SetTiebreaker(ghost n: nat, position: nat, value: Option<bool>)
      requires Known(n) && position < |disks|
      modifies disks`tiebreaker, resource.cluster`state
      ensures Known(n) && position < |old(resource.cluster.state.nodes[n].volumes)|
      ensures resource.cluster.state == TiebreakerSet(old(resource.cluster.state), n, position, value)
      ensures disks[position].tiebreaker == value
      ensures forall i :: 0 <= i < |disks| && i != position ==> disks[i].tiebreaker == old(disks[i].tiebreaker)
    {
      hide Linked, Host.Is, Resource.Is;
      disks[position].tiebreaker := value;
      resource.cluster.state := TiebreakerSet(resource.cluster.state, n, position, value);
    }

    /** `remove_disks` forgets the volumes but marks nobody. */
    method RemoveDisks(ghost n: nat)
      requires Known(n)
      modifies this`disks, resource.cluster`state
      ensures Known(n) && resource.cluster.state == DisksRemoved(old(resource.cluster.state), n)
      ensures disks == []
    {
      hide Linked, Host.Is, Resource.Is;
      disks := [];
      resource.cluster.state := DisksRemoved(resource.cluster.state, n);
    }
  }

  /** A node's flag is not written. */
  lemma FlagAside(s: State, n: nat)
    requires Linked(s) && n < |s.nodes|
    ensures Current(Flagged(s, n, false), n) == Current(s, n)
  {
    hide NC.Config, InfoOf, VolumeInfos;
    var t, r := Flagged(s, n, false), s.nodes[n].resource;
    assert MembersLinked(s, r);
    forall i | 0 <= i < |s.resources[r].members|
      ensures ClusterState.Info(t, r).nodes[i] == ClusterState.Info(s, r).nodes[i]
    {
      assert s.resources[r].members[i] in s.resources[r].members;
      SameInfo(s.hosts[s.nodes[s.resources[r].members[i]].host], s.nodes[s.resources[r].members[i]]);
    }
    assert ClusterState.Info(t, r).nodes == ClusterState.Info(s, r).nodes;
  }

  /** Nor are the files. */
  lemma WrittenAside(s: State, n: nat, text: string)
    requires Linked(s) && n < |s.nodes|
    ensures var t := Flagged(s, n, false); Current(Deployed(t, n, text), n) == Current(s, n)
  {
    hide NC.Config, InfoOf, VolumeInfos;
    FlagAside(s, n);
    var t := Flagged(s, n, false);
    var u, r := Deployed(t, n, text), s.nodes[n].resource;
    assert MembersLinked(t, r);
    forall i | 0 <= i < |t.resources[r].members|
      ensures ClusterState.Info(u, r).nodes[i] == ClusterState.Info(t, r).nodes[i]
    {
      assert t.resources[r].members[i] in t.resources[r].members;
      SameHostInfo(t.hosts[t.nodes[n].host], t.hosts[t.nodes[n].host].files[s.resources[r].name := text],
                   t.nodes[t.resources[r].members[i]]);
    }
    assert ClusterState.Info(u, r).nodes == ClusterState.Info(t, r).nodes;
  }

  lemma SameHostInfo(h: HostState, files: map<string, string>, n: NodeState)
    ensures InfoOf(h.(files := files), n) == InfoOf(h, n)
  {
  }

  lemma SameInfo(h: HostState, n: NodeState)
    ensures InfoOf(h, n.(marked := false)) == InfoOf(h, n)
  {
  }

  /** The nodes at some positions. */
  ghost predicate StandFor(ns: seq<Node>, ms: seq<nat>, all: seq<Node>) {
    |ms| == |ns| && forall k :: 0 <= k < |ns| ==> ms[k] < |all| && ns[k] == all[ms[k]]
  }

  /** The list without a node stands for the positions without its position. */
  lemma LeavingStands(ns: seq<Node>, ms: seq<nat>, all: seq<Node>, n: nat)
    requires StandFor(ns, ms, all) && OrderedSets.NoDup(ms) && OrderedSets.NoDup(all) && n < |all|
    ensures StandFor(OrderedSets.RemoveFirst(ns, all[n]), OrderedSets.RemoveFirst(ms, n), all)
    ensures forall m :: m in OrderedSets.RemoveFirst(ns, all[n]) ==> m in ns
  {
    hide OrderedSets.RemoveFirst;
    StandApart(ns, ms, all);
    if n in ms {
      var p :| 0 <= p < |ms| && ms[p] == n;
      OrderedSets.RemoveFirstAt(ns, p);
      OrderedSets.RemoveFirstAt(ms, p);
    } else {
      assert all[n] !in ns;
      OrderedSets.RemoveFirstAbsent(ns, all[n]);
      OrderedSets.RemoveFirstAbsent(ms, n);
    }
  }

  lemma OneLeaves(ns: seq<Node>, ms: seq<nat>, all: seq<Node>, node: Node)
    requires StandFor(ns, ms, all) && OrderedSets.NoDup(ms) && OrderedSets.NoDup(all)
    ensures OrderedSets.RemoveFirst(ns, node) == OrderedSets.Without(ns, {node})
  {
    StandApart(ns, ms, all);
    OrderedSets.WithoutNone(ns);
    OrderedSets.WithoutStep(ns, {}, node);
    assert {} + {node} == {node};
  }

  lemma JoiningStands(ns: seq<Node>, ms: seq<nat>, all: seq<Node>, n: nat)
    requires StandFor(ns, ms, all) && OrderedSets.NoDup(ms) && OrderedSets.NoDup(all) && n < |all|
    ensures StandFor(if all[n] in ns then ns else ns + [all[n]], if n in ms then ms else ms + [n], all)
  {
    StandApart(ns, ms, all);
  }

  lemma StandApart(ns: seq<Node>, ms: seq<nat>, all: seq<Node>)
    requires StandFor(ns, ms, all) && OrderedSets.NoDup(ms) && OrderedSets.NoDup(all)
    ensures OrderedSets.NoDup(ns)
    ensures forall n :: 0 <= n < |all| ==> (all[n] in ns <==> n in ms)
  {
    forall n | 0 <= n < |all|
      ensures all[n] in ns <==> n in ms
    {
      if all[n] in ns {
        var k :| 0 <= k < |ns| && ns[k] == all[n];
        assert ms[k] == n;
      }
      if n in ms {
        var k :| 0 <= k < |ms| && ms[k] == n;
        assert ns[k] == all[n];
      }
    }
  }

  class Resource {
    const cluster: Cluster
    const transport: string
    const tls: string
    var name: string
    var netOptions: string
    var diskOptions: string
    var resourceOptions: string
    var handlers: string
    var nodes: seq<Node>
    var numVolumes: nat

    constructor (cluster: Cluster, name: string, transport: string, tls: string)
      ensures this.cluster == cluster && nodes == []
      ensures Is(ResourceState(name, transport, tls, "", "", "", "", [], 0), [])
    {
      this.cluster, this.name, this.transport, this.tls := cluster, name, transport, tls;
      netOptions, diskOptions, resourceOptions, handlers := "", "", "", "";
      nodes, numVolumes := [], 0;
    }

    ghost predicate Is(s: ResourceState, all: seq<Node>)
      reads this
    {
      s.name == name && s.transport == transport && s.tls == tls && s.net == netOptions && s.disk == diskOptions
      && s.options == resourceOptions && s.handlers == handlers && s.count == numVolumes
      && StandFor(nodes, s.members, all)
    }

    function Info(): NC.ResourceInfo
      reads this, nodes`disks, VolumesOf(nodes)`tiebreaker
    {
      NC.ResourceInfo(name, handlers, resourceOptions, diskOptions, netOptions, transport, tls, MemberInfos(nodes))
    }

    /** This is resource r of a valid cluster. */
    ghost predicate Known(r: nat)
      reads cluster, cluster.repr
    {
      cluster.Valid() && r < |cluster.resources| && cluster.resources[r] == this
    }

    ghost function Members(r: nat): seq<nat>
      requires Known(r)
      reads cluster, cluster.repr
    {
      cluster.state.resources[r].members
    }

    /** Each member of the list is the node at the position that the state gives. */
    lemma MembersKnown(r: nat)
      requires Known(r)
      ensures |nodes| == |Members(r)|
      ensures forall k :: 0 <= k < |nodes| ==>
                nodes[k].Known(Members(r)[k]) && nodes[k].resource == this && nodes[k] in cluster.repr && nodes[k].host in cluster.repr
    {
      assert Is(cluster.state.resources[r], cluster.nodes);
      assert MembersLinked(cluster.state, r);
      assert StandFor(nodes, Members(r), cluster.nodes);
      forall k | 0 <= k < |nodes|
        ensures nodes[k].Known(Members(r)[k]) && nodes[k].resource == this && nodes[k] in cluster.repr && nodes[k].host in cluster.repr
      {
        var n := Members(r)[k];
        assert n in Members(r);
        assert nodes[k].Is(cluster.state.nodes[n], cluster.hosts, cluster.resources);
        assert cluster.hosts[cluster.state.nodes[n].host] in cluster.repr;
      }
    }

    method TouchConfig(ghost r: nat)
      requires Known(r)
      modifies nodes`configChanged, cluster`state
      ensures Known(r) && cluster.state == Touched(old(cluster.state), old(Members(r)))
      ensures nodes == old(nodes) && forall n :: n in nodes ==> n.configChanged
    {
      hide Linked, Host.Is, Resource.Is, Node.Is, Flagged;
      MembersKnown(r);
      ghost var ms := Members(r);
      assert cluster.state == Touched(cluster.state, ms[..0]) by { TouchNone(cluster.state); }
      for i := 0 to |nodes|
        invariant Known(r) && Members(r) == ms && |nodes| == |ms|
        invariant cluster.state == Touched(old(cluster.state), ms[..i])
      {
        MembersKnown(r);
        nodes[i].SetChanged(ms[i], true);
        TouchOneMore(old(cluster.state), ms, i);
      }
      assert ms[..|ms|] == ms;
      AllChanged(r, old(cluster.state));
    }

    lemma AllChanged(r: nat, s: State)
      requires Known(r) && Linked(s) && cluster.state == Touched(s, Members(r))
      ensures forall n :: n in nodes ==> n.configChanged
    {
      hide Linked, Host.Is, Resource.Is;
      MembersKnown(r);
      forall k | 0 <= k < |nodes|
        ensures nodes[k].configChanged
      {
        var n := Members(r)[k];
        assert n in Members(r) && cluster.state.nodes[n].marked;
        assert nodes[k].Is(cluster.state.nodes[n], cluster.hosts, cluster.resources);
      }
    }

    lemma AllFenced(r: nat, s: State, mode: string)
      requires Known(r) && Linked(s) && cluster.state == Fenced(s, Members(r), mode)
      ensures forall n :: n in nodes ==> n.fencing == mode && n.configChanged
    {
      hide Linked, Host.Is, Resource.Is;
      MembersKnown(r);
      forall k | 0 <= k < |nodes|
        ensures nodes[k].fencing == mode && nodes[k].configChanged
      {
        var n := Members(r)[k];
        assert n in Members(r) && cluster.state.nodes[n].marked && cluster.state.nodes[n].fencing == mode;
        assert nodes[k].Is(cluster.state.nodes[n], cluster.hosts, cluster.resources);
      }
    }

    lemma MembersOk(r: nat)
      requires Known(r)
      ensures MembersLinked(cluster.state, r)
    {
    }

    method SetNetOptions(ghost r: nat, value: string)
      requires Known(r)
      modifies this`netOptions, nodes`configChanged, cluster`state
      ensures netOptions == value && forall n :: n in nodes ==> n.configChanged
      ensures Known(r) && cluster.state == Set(old(cluster.state), r, SetNet(value))
    {
      hide Linked, Host.Is, Node.Is;
      MembersOk(r);
      netOptions := value;
      cluster.state := WithResource(cluster.state, r, Assigned(cluster.state.resources[r], SetNet(value)));
      TouchConfig(r);
    }

    method SetDiskOptions(ghost r: nat, value: string)
      requires Known(r)
      modifies this`diskOptions, nodes`configChanged, cluster`state
      ensures diskOptions == value && forall n :: n in nodes ==> n.configChanged
      ensures Known(r) && cluster.state == Set(old(cluster.state), r, SetDisk(value))
    {
      hide Linked, Host.Is, Node.Is;
      MembersOk(r);
      diskOptions := value;
      cluster.state := WithResource(cluster.state, r, Assigned(cluster.state.resources[r], SetDisk(value)));
      TouchConfig(r);
    }

    method SetResourceOptions(ghost r: nat, value: string)
      requires Known(r)
      modifies this`resourceOptions, nodes`configChanged, cluster`state
      ensures resourceOptions == value && forall n :: n in nodes ==> n.configChanged
      ensures Known(r) && cluster.state == Set(old(cluster.state), r, SetOptions(value))
    {
      hide Linked, Host.Is, Node.Is;
      MembersOk(r);
      resourceOptions := value;
      cluster.state := WithResource(cluster.state, r, Assigned(cluster.state.resources[r], SetOptions(value)));
      TouchConfig(r);
    }

    method SetHandlers(ghost r: nat, value: string)
      requires Known(r)
      modifies this`handlers, nodes`configChanged, cluster`state
      ensures handlers == value && forall n :: n in nodes ==> n.configChanged
      ensures Known(r) && cluster.state == Set(old(cluster.state), r, Change.SetHandlers(value))
    {
      hide Linked, Host.Is, Node.Is;
      MembersOk(r);
      handlers := value;
      cluster.state := WithResource(cluster.state, r, Assigned(cluster.state.resources[r], Change.SetHandlers(value)));
      TouchConfig(r);
    }

    /** The commands that rename the resource in the kernel have succeeded. */
    method Rename(ghost r: nat, newName: string)
      requires Known(r)
      modifies this`name, nodes`configChanged, cluster`state
      ensures name == newName && forall n :: n in nodes ==> n.configChanged
      ensures Known(r) && cluster.state == Set(old(cluster.state), r, Change.Rename(newName))
    {
      hide Linked, Host.Is, Node.Is;
      MembersOk(r);
      name := newName;
      cluster.state := WithResource(cluster.state, r, Assigned(cluster.state.resources[r], Change.Rename(newName)));
      TouchConfig(r);
    }

    /** `touch_config` as a test calls it. */
    method Touch(ghost r: nat)
      requires Known(r)
      modifies nodes`configChanged, cluster`state
      ensures Known(r) && cluster.state == Set(old(cluster.state), r, Change.Touch)
    {
      hide Linked, Host.Is, Node.Is;
      MembersOk(r);
      TouchIsSet(cluster.state, r);
      TouchConfig(r);
    }

    /** Volume.set_tiebreaker, for the volume at some position of a member. */
    method SetTiebreaker(ghost r: nat, k: nat, position: nat, value: Option<bool>)
      requires Known(r) && k < |nodes| && position < |nodes[k].disks|
      modifies nodes[k].disks`tiebreaker, nodes`configChanged, cluster`state
      ensures Known(r)
      ensures k < |old(Members(r))| && Linked(old(cluster.state)) && old(cluster.state).resources[r].members == old(Members(r))
      ensures var s, ms := old(cluster.state), old(Members(r));
              ms[k] < |s.nodes| && position < |s.nodes[ms[k]].volumes|
              && cluster.state == Touched(TiebreakerSet(s, ms[k], position, value), ms)
      ensures nodes[k].disks[position].tiebreaker == value && forall n :: n in nodes ==> n.configChanged
    {
      hide Linked, Host.Is, Resource.Is, Node.Is;
      MembersKnown(r);
      ghost var n := Members(r)[k];
      nodes[k].SetTiebreaker(n, position, value);
      TouchConfig(r);
    }

    /** Every node's own setter marks that node only. */
    method SetFencingMode(ghost r: nat, mode: string)
      requires Known(r)
      modifies nodes`fencing, nodes`configChanged, cluster`state
      ensures Known(r) && cluster.state == Fenced(old(cluster.state), old(Members(r)), mode)
      ensures forall n :: n in nodes ==> n.fencing == mode && n.configChanged
    {
      hide Linked, Host.Is, Resource.Is, Node.Is;
      MembersKnown(r);
      ghost var ms := Members(r);
      assert cluster.state == Fenced(cluster.state, ms[..0], mode) by { FenceNone(cluster.state, mode); }
      for i := 0 to |nodes|
        invariant Known(r) && Members(r) == ms && |nodes| == |ms|
        invariant cluster.state == Fenced(old(cluster.state), ms[..i], mode)
      {
        MembersKnown(r);
        nodes[i].SetFencingMode(ms[i], mode);
        FenceOneMore(old(cluster.state), ms, i, mode);
      }
      assert ms[..|ms|] == ms;
      AllFenced(r, old(cluster.state), mode);
    }

    method AddNode(ghost r: nat, node: Node, ghost n: nat)
      requires Known(r) && node.resource == this && node.Known(n)
      modifies this`nodes, nodes`configChanged, node`configChanged, cluster`state
      ensures Known(r)
      ensures Linked(old(cluster.state)) && old(cluster.state).nodes[n].resource == r
      ensures var t := Joined(old(cluster.state), r, n); cluster.state == Touched(t, t.resources[r].members)
      ensures nodes == if node in old(nodes) then old(nodes) else old(nodes) + [node]
      ensures forall m :: m in nodes ==> m.configChanged
    {
      hide Linked, Host.Is, Node.Is, StandFor, OrderedSets.NoDup;
      OfResource(r, node, n);
      MembersOk(r);
      OthersApart(r);
      JoiningStands(nodes, Members(r), cluster.nodes, n);
      cluster.state := Joined(cluster.state, r, n);
      if node !in nodes {
        nodes := nodes + [node];
      }
      TouchConfig(r);
    }

    lemma OfResource(r: nat, node: Node, n: nat)
      requires Known(r) && node.resource == this && node.Known(n)
      ensures cluster.state.nodes[n].resource == r
    {
      assert node.Is(cluster.state.nodes[n], cluster.hosts, cluster.resources);
      assert cluster.resources[cluster.state.nodes[n].resource] == cluster.resources[r];
    }

    method RemoveNode(ghost r: nat, node: Node, ghost n: nat)
      requires Known(r) && node.resource == this && node.Known(n)
      modifies this`nodes, nodes`configChanged, cluster`state
      ensures Known(r)
      ensures Linked(old(cluster.state))
      ensures var t := Left(old(cluster.state), r, n); cluster.state == Touched(t, t.resources[r].members)
      ensures nodes == OrderedSets.Without(old(nodes), {node})
      ensures forall m :: m in nodes ==> m.configChanged
    {
      hide Linked, Host.Is, Node.Is, OrderedSets.RemoveFirst;
      MembersOk(r);
      LeavingStands(nodes, Members(r), cluster.nodes, n);
      OneLeaves(nodes, Members(r), cluster.nodes, node);
      nodes := OrderedSets.RemoveFirst(nodes, node);
      cluster.state := Left(cluster.state, r, n);
      assert forall i :: 0 <= i < |nodes| ==> nodes[i] in nodes && nodes[i] in old(nodes);
      TouchConfig(r);
    }

    /** `add_disk`: a volume on every node, then the metadata on those with storage. */
    method AddDisk(ghost r: nat, backings: seq<Option<Backing>>) returns (ok: bool, number: nat)
      requires Known(r) && |backings| == |nodes|
      modifies cluster`state, cluster`repr, cluster.stack`blocks, this`numVolumes, nodes, (set n | n in nodes :: n.host)
      ensures Known(r) && number == old(numVolumes) && numVolumes == number + 1
      ensures |backings| == |old(cluster.state).resources[r].members| && Linked(old(cluster.state))
      ensures Outcome(cluster.state, ok, None) == VolumeAdded(old(cluster.state), r, backings, false)
      ensures cluster.repr >= old(cluster.repr) && fresh(cluster.repr - old(cluster.repr))
    {
      hide Linked, Host.Is, Node.Is, DisksAdded, MetadataCreated;
      MembersOk(r);
      MembersKnown(r);
      number := numVolumes;
      numVolumes := numVolumes + 1;
      ghost var rs := cluster.state.resources[r];
      cluster.state := WithResource(cluster.state, r, rs.(count := rs.count + 1));
      ok := AddVolumes(r, number, backings);
      if ok {
        ok := CreateMetadata(r, backings);
      }
    }

    method AddVolumes(ghost r: nat, number: nat, backings: seq<Option<Backing>>) returns (ok: bool)
      requires Known(r) && |backings| == |nodes|
      modifies cluster`state, cluster`repr, cluster.stack`blocks, nodes, (set n | n in nodes :: n.host)
      ensures Known(r) && Linked(old(cluster.state)) && Among(old(cluster.state), old(Members(r))) && |backings| == |old(Members(r))|
      ensures Outcome(cluster.state, ok, None) == DisksAdded(old(cluster.state), old(Members(r)), number, backings, false)
      ensures Members(r) == old(Members(r))
      ensures cluster.repr >= old(cluster.repr) && fresh(cluster.repr - old(cluster.repr))
    {
      hide Linked, Host.Is, Node.Is, Resource.Is, DiskAdded;
      MembersKnown(r);
      ghost var ms := Members(r);
      ghost var run := DisksAdded(cluster.state, ms, number, backings, false);
      assert ms[0..] == ms && backings[0..] == backings;
      for i := 0 to |nodes|
        invariant Known(r) && Members(r) == ms && |nodes| == |ms|
        invariant Among(cluster.state, ms[i..]) && DisksAdded(cluster.state, ms[i..], number, backings[i..], false) == run
        invariant cluster.repr >= old(cluster.repr) && fresh(cluster.repr - old(cluster.repr))
      {
        MembersKnown(r);
        Later(ms, backings, i);
        var added := nodes[i].AddDisk(ms[i], number, backings[i]);
        if !added {
          return false;
        }
      }
      ok := true;
    }

    method CreateMetadata(ghost r: nat, backings: seq<Option<Backing>>) returns (ok: bool)
      requires Known(r) && |backings| == |nodes|
      modifies cluster`state, cluster.stack`blocks, nodes`configChanged, (set n | n in nodes :: n.host)`deployed
      ensures Known(r) && Linked(old(cluster.state)) && Among(old(cluster.state), old(Members(r))) && |backings| == |old(Members(r))|
      ensures Outcome(cluster.state, ok, None) == MetadataCreated(old(cluster.state), old(Members(r)), backings, false)
    {
      hide Linked, Host.Is, Node.Is, Resource.Is, Updated;
      MembersKnown(r);
      ghost var ms := Members(r);
      ghost var run := MetadataCreated(cluster.state, ms, backings, false);
      assert ms[0..] == ms && backings[0..] == backings;
      for i := 0 to |nodes|
        invariant Known(r) && Members(r) == ms && |nodes| == |ms|
        invariant Among(cluster.state, ms[i..]) && MetadataCreated(cluster.state, ms[i..], backings[i..], false) == run
      {
        MembersKnown(r);
        Later(ms, backings, i);
        if backings[i].Some? {
          var created, _ := nodes[i].Run(ms[i], true);
          if !created {
            return false;
          }
        }
      }
      ok := true;
    }

    /** Constructing a node lists it in the resource and marks only the new node. */
    method CreateNode(ghost r: nat, host: Host, ghost h: nat) returns (node: Node)
      requires Known(r) && h < |cluster.hosts| && cluster.hosts[h] == host
      modifies this`nodes, host`port, cluster`state, cluster`repr, cluster`nodes
      ensures Known(r) && fresh(node) && cluster.nodes == old(cluster.nodes) + [node]
      ensures Linked(old(cluster.state)) && cluster.state == NodeCreated(old(cluster.state), r, h)
      ensures cluster.repr == old(cluster.repr) + {node}
      ensures nodes == old(nodes) + [node] && host.port == old(host.port) + 1
      ensures node.host == host && node.resource == this && node.id == |old(nodes)| && node.port == old(host.port)
      ensures node.fencing == "" && node.disks == [] && node.configChanged
    {
      hide Linked, NodeCreated;
      MembersOk(r);
      CreatedInTwo(cluster.state, r, h);
      var port := TakePort(r, host, h);
      node := new Node(host, this, |nodes|, port);
      ListNode(r, node, NodeState(h, r, |nodes|, port, "", [], true));
    }

    method TakePort(ghost r: nat, host: Host, ghost h: nat) returns (port: nat)
      requires Known(r) && h < |cluster.hosts| && cluster.hosts[h] == host
      modifies host`port, cluster`state
      ensures port == old(host.port) && host.port == port + 1
      ensures Known(r) && port == old(cluster.state).hosts[h].port && cluster.nodes == old(cluster.nodes)
      ensures Linked(old(cluster.state))
      ensures cluster.state == WithHost(old(cluster.state), h, old(cluster.state.hosts[h]).(port := port + 1))
    {
      hide Linked, Node.Is, Resource.Is;
      port := host.NextPort();
      cluster.state := WithHost(cluster.state, h, cluster.state.hosts[h].(port := port + 1));
    }

    method ListNode(ghost r: nat, node: Node, ghost s: NodeState)
      requires Known(r) && node !in cluster.repr && s.resource == r && node.disks == []
      requires node.Is(s, cluster.hosts, cluster.resources)
      modifies this`nodes, cluster`state, cluster`repr, cluster`nodes
      ensures Known(r) && cluster.nodes == old(cluster.nodes) + [node] && cluster.repr == old(cluster.repr) + {node}
      ensures Linked(old(cluster.state)) && s.host < |old(cluster.state).hosts|
      ensures cluster.state == NodeListed(old(cluster.state), r, s)
      ensures nodes == old(nodes) + [node]
    {
      hide Linked, StandFor, OrderedSets.NoDup, Host.Is, Node.Is;
      assert s.host < |cluster.hosts| by { HostKnown(node, s); }
      Newcomer(cluster.nodes, node);
      cluster.KnowMore(node);
      NowListed(nodes, Members(r), cluster.nodes, node);
      OthersApart(r);
      nodes := nodes + [node];
      cluster.nodes := cluster.nodes + [node];
      cluster.repr := cluster.repr + {node};
      cluster.state := NodeListed(cluster.state, r, s);
    }

    lemma HostKnown(node: Node, s: NodeState)
      requires node.Is(s, cluster.hosts, cluster.resources)
      ensures s.host < |cluster.hosts|
    {
    }

    lemma OthersApart(r: nat)
      requires Known(r)
      ensures forall q :: 0 <= q < |cluster.resources| && q != r ==> cluster.resources[q] != this
    {
    }
  }

  /** A node more, and in its resource. */
  ghost function NodeListed(s: State, r: nat, node: NodeState): (t: State)
    requires Linked(s) && r < |s.resources| && node.resource == r && node.host < |s.hosts|
    ensures Linked(t)
  {
    var rs := s.resources[r];
    var t := s.(resources := s.resources[r := rs.(members := rs.members + [|s.nodes|])], nodes := s.nodes + [node]);
    assert MembersLinked(t, r) by {
      assert MembersLinked(s, r);
      assert forall i :: 0 <= i < |rs.members| ==> rs.members[i] in rs.members;
    }
    StaysLinked(s, t);
    t
  }

  lemma CreatedInTwo(s: State, r: nat, h: nat)
    requires Linked(s) && r < |s.resources| && h < |s.hosts|
    ensures NodeCreated(s, r, h)
         == NodeListed(WithHost(s, h, s.hosts[h].(port := s.hosts[h].port + 1)), r,
                       NodeState(h, r, |s.resources[r].members|, s.hosts[h].port, "", [], true))
  {
  }

  lemma Later(ms: seq<nat>, backings: seq<Option<Backing>>, i: nat)
    requires i < |ms| == |backings|
    ensures ms[i..] != [] && ms[i..][0] == ms[i] && ms[i..][1..] == ms[i + 1..]
    ensures backings[i..][0] == backings[i] && backings[i..][1..] == backings[i + 1..]
    ensures forall n :: n in ms[i + 1..] ==> n in ms[i..]
  {
  }

  lemma Newcomer(all: seq<Node>, node: Node)
    requires OrderedSets.NoDup(all) && node !in all
    ensures OrderedSets.NoDup(all + [node]) && OrderedSets.NoDup<Volume>([])
  {
  }

  lemma NowListed(ns: seq<Node>, ms: seq<nat>, all: seq<Node>, node: Node)
    requires StandFor(ns, ms, all)
    ensures StandFor(ns, ms, all + [node]) && StandFor(ns + [node], ms + [|all|], all + [node])
  {
  }

  lemma ReplayStep(s: State, steps: seq<Step>, i: nat, seen: seq<Option<string>>)
    requires Linked(s) && i < |steps|
    ensures var o, run := Next(s, steps[i], false), Replay(s, steps[i..], false);
            if o.ok then
              var rest := Replay(o.state, steps[i + 1..], false);
              run.state == rest.state && run.ok == rest.ok && seen + run.seen == seen + [o.seen] + rest.seen
            else run == Run(o.state, false, []) && seen + run.seen == seen
  {
    hide Next;
    assert steps[i..][0] == steps[i] && steps[i..][1..] == steps[i + 1..];
  }

  lemma ReplayEnd(s: State, steps: seq<Step>, seen: seq<Option<string>>)
    requires Linked(s)
    ensures Replay(s, steps[|steps|..], false) == Run(s, true, []) && seen + [] == seen
  {
  }

  lemma MemberSteps(s: State, r: nat, change: Change)
    requires Linked(s) && r < |s.resources| && (change.AddDiskOn? || change.RemoveDisksOn? || change.Command?)
    requires change.k < |s.resources[r].members|
    ensures var n := Member(s, r, change.k);
            Changed(s, r, change, false)
            == if change.AddDiskOn? then DiskAdded(s, n, change.number, change.backing, false)
               else if change.RemoveDisksOn? then Outcome(DisksRemoved(s, n), true, None)
               else Ran(s, n, change.update, false)
  {
    hide DiskAdded, DisksRemoved, Ran;
  }

  lemma TiebreakerStep(s: State, r: nat, k: nat, position: nat, answer: Option<bool>)
    requires Linked(s) && r < |s.resources|
    ensures var ms := s.resources[r].members;
            Changed(s, r, Change.SetTiebreaker(k, position, answer), false)
            == if k < |ms| && position < |s.nodes[Member(s, r, k)].volumes|
               then Outcome(Touched(TiebreakerSet(s, Member(s, r, k), position, answer), ms), true, None)
               else Outcome(s, true, None)
  {
    hide Touched, TiebreakerSet;
  }

  lemma JoinStep(s: State, r: nat, p: nat)
    requires Linked(s) && r < |s.resources|
    ensures Changed(s, r, Change.AddNode(p), false)
         == if p < |s.nodes| && s.nodes[p].resource == r
            then var t := Joined(s, r, p); Outcome(Touched(t, t.resources[r].members), true, None)
            else Outcome(s, true, None)
  {
    hide Touched, Joined;
  }

  lemma LeaveStep(s: State, r: nat, k: nat)
    requires Linked(s) && r < |s.resources|
    ensures Changed(s, r, Change.RemoveNode(k), false)
         == if k < |s.resources[r].members|
            then var t := Left(s, r, Member(s, r, k)); Outcome(Touched(t, t.resources[r].members), true, None)
            else Outcome(s, true, None)
  {
    hide Touched, Left;
  }

  lemma WholeSteps(s: State, r: nat, change: Change)
    requires Linked(s) && r < |s.resources|
    ensures change.AddDisk? ==>
              Changed(s, r, change, false) == if |change.backings| == |s.resources[r].members|
                                              then VolumeAdded(s, r, change.backings, false) else Outcome(s, true, None)
    ensures change.CreateNode? ==>
              Changed(s, r, change, false)
              == Outcome(if change.h < |s.hosts| then NodeCreated(s, r, change.h) else s, true, None)
    ensures (change.AddDiskOn? || change.RemoveDisksOn? || change.Command?) && change.k >= |s.resources[r].members| ==>
              Changed(s, r, change, false) == Outcome(s, true, None)
  {
    hide VolumeAdded, NodeCreated;
  }

  lemma TouchIsSet(s: State, r: nat)
    requires Linked(s) && r < |s.resources| && MembersLinked(s, r)
    ensures Set(s, r, Change.Touch) == Touched(s, s.resources[r].members)
  {
    assert s.resources[r := s.resources[r]] == s.resources;
    assert WithResource(s, r, Assigned(s.resources[r], Change.Touch)) == s;
  }

  lemma TouchNone(s: State)
    requires Linked(s)
    ensures Touched(s, []) == s
  {
    assert Touched(s, []).nodes == s.nodes;
  }

  lemma TouchOneMore(s: State, ms: seq<nat>, i: nat)
    requires Linked(s) && i < |ms| && ms[i] < |s.nodes|
    ensures Touched(s, ms[..i + 1]) == Flagged(Touched(s, ms[..i]), ms[i], true)
  {
    assert ms[..i + 1] == ms[..i] + [ms[i]];
    assert Touched(s, ms[..i + 1]).nodes == Flagged(Touched(s, ms[..i]), ms[i], true).nodes;
  }

  lemma FenceNone(s: State, mode: string)
    requires Linked(s)
    ensures Fenced(s, [], mode) == s
  {
    assert Fenced(s, [], mode).nodes == s.nodes;
  }

  lemma FenceOneMore(s: State, ms: seq<nat>, i: nat, mode: string)
    requires Linked(s) && i < |ms| && ms[i] < |s.nodes|
    ensures var t := Fenced(s, ms[..i], mode);
            Fenced(s, ms[..i + 1], mode) == WithNode(t, ms[i], t.nodes[ms[i]].(fencing := mode, marked := true))
  {
    assert ms[..i + 1] == ms[..i] + [ms[i]];
    var t := Fenced(s, ms[..i], mode);
    assert Fenced(s, ms[..i + 1], mode).nodes == WithNode(t, ms[i], t.nodes[ms[i]].(fencing := mode, marked := true)).nodes;
  }

  ghost function HostStates(hosts: seq<Host>): (s: seq<HostState>)
    reads hosts
    ensures |s| == |hosts| && forall h :: 0 <= h < |hosts| ==> hosts[h].Is(s[h])
  {
    if hosts == [] then []
    else HostStates(hosts[..|hosts| - 1]) + [hosts[|hosts| - 1].Value()]
  }

  class Cluster {
    const hosts: seq<Host>
    const transport: string
    const tls: string
    /** The stack of open blocks, which all configurations share. */
    const stack: BlockStack
    var resources: seq<Resource>
    /** Every node that was created, in order: a test keeps those that it removed. */
    var nodes: seq<Node>
    /** What the objects stand for. */
    ghost var state: State
    ghost var repr: set<object>

    ghost predicate Valid()
      reads this, repr
    {
      this in repr && stack in repr && stack.blocks == []
      && Linked(state) && state.transport == transport && state.tls == tls
      && |state.hosts| == |hosts| && |state.resources| == |resources| && |state.nodes| == |nodes|
      && OrderedSets.NoDup(hosts) && OrderedSets.NoDup(resources) && OrderedSets.NoDup(nodes)
      && (forall h :: 0 <= h < |hosts| ==> hosts[h] in repr && hosts[h].Is(state.hosts[h]))
      && (forall r :: 0 <= r < |resources| ==>
            resources[r] in repr && resources[r].cluster == this && resources[r].Is(state.resources[r], nodes))
      && (forall n :: 0 <= n < |nodes| ==>
            nodes[n] in repr && (forall v :: v in nodes[n].disks ==> v in repr)
            && nodes[n].Is(state.nodes[n], hosts, resources))
    }

    lemma KnowMore(node: Node)
      requires |state.resources| == |resources|
      requires forall r :: 0 <= r < |resources| ==> resources[r].Is(state.resources[r], nodes)
      ensures forall r :: 0 <= r < |resources| ==> StandFor(resources[r].nodes, state.resources[r].members, nodes + [node])
      ensures forall r :: 0 <= r < |resources| ==> StandFor(resources[r].nodes, state.resources[r].members, nodes)
    {
      hide StandFor, Linked;
      forall r | 0 <= r < |resources|
        ensures StandFor(resources[r].nodes, state.resources[r].members, nodes + [node])
        ensures StandFor(resources[r].nodes, state.resources[r].members, nodes)
      {
        assert resources[r].Is(state.resources[r], nodes);
        NowListed(resources[r].nodes, state.resources[r].members, nodes, node);
      }
    }

    lemma InfosAgree(n: nat)
      requires Valid() && n < |nodes|
      ensures nodes[n].Own() == Me(state, n)
      ensures nodes[n].resource.Info() == ClusterState.Info(state, state.nodes[n].resource)
    {
      hide NC.Config;
      var r := state.nodes[n].resource;
      var rs, ms := resources[r], state.resources[r].members;
      assert nodes[n].Is(state.nodes[n], hosts, resources) && rs.Is(state.resources[r], nodes);
      assert MembersLinked(state, r);
      var info := ClusterState.Info(state, r);
      forall k | 0 <= k < |ms|
        ensures MemberInfos(rs.nodes)[k] == info.nodes[k]
      {
        assert ms[k] in ms;
        MemberInfosAt(rs.nodes, k);
        NodeAgrees(ms[k]);
      }
      assert MemberInfos(rs.nodes) == info.nodes;
    }

    lemma NodeAgrees(n: nat)
      requires Valid() && n < |nodes|
      ensures nodes[n].Info() == InfoOf(state.hosts[state.nodes[n].host], state.nodes[n])
    {
      var node, s := nodes[n], state.nodes[n];
      assert node.Is(s, hosts, resources) && node.host.Is(state.hosts[s.host]);
      forall k | 0 <= k < |node.disks|
        ensures DiskInfos(node.disks)[k] == VolumeInfos(s.volumes)[k]
      {
        DiskInfosAt(node.disks, k);
      }
      assert DiskInfos(node.disks) == VolumeInfos(s.volumes);
    }

    constructor (hosts: seq<Host>, transport: string, tls: string)
      requires OrderedSets.NoDup(hosts)
      ensures this.hosts == hosts && this.transport == transport && this.tls == tls
      ensures Valid() && fresh(repr - (set h | h in hosts))
      ensures state == State(transport, tls, HostStates(hosts), [], [])
    {
      this.hosts, this.transport, this.tls := hosts, transport, tls;
      stack := new BlockStack();
      resources, nodes := [], [];
      state := State(transport, tls, HostStates(hosts), [], []);
      repr := (set h | h in hosts) + {this, stack};
    }

    // ---- creating a resource ----

    /** `create_resource`: a node on every host. */
    method AddResource(name: string) returns (r: Resource)
      requires Valid()
      modifies this`resources, this`nodes, this`state, this`repr, hosts`port
      ensures r.name == name && |r.nodes| == |hosts|
      ensures Valid() && fresh(r) && resources == old(resources) + [r]
      ensures Linked(old(state)) && state == ResourceCreated(old(state), name)
      ensures repr >= old(repr) && fresh(repr - old(repr))
    {
      hide Linked, Host.Is, Node.Is, NodesCreated;
      r := new Resource(this, name, transport, tls);
      ListResource(r, name);
      AddNodes(r, |resources| - 1);
    }

    /** The loop over the hosts. */
    method AddNodes(r: Resource, ghost k: nat)
      requires r.Known(k) && r.cluster == this
      modifies this`nodes, this`state, this`repr, r`nodes, hosts`port
      ensures r.Known(k) && Linked(old(state)) && state == NodesCreated(old(state), k, 0)
      ensures repr >= old(repr) && fresh(repr - old(repr))
      ensures |r.nodes| == |old(r.nodes)| + |hosts|
    {
      hide Linked, Host.Is, Node.Is, Resource.Is, NodeCreated;
      ghost var created := NodesCreated(state, k, 0);
      for h := 0 to |hosts|
        invariant r.Known(k) && h <= |state.hosts| && NodesCreated(state, k, h) == created
        invariant |r.nodes| == |old(r.nodes)| + h
        invariant repr >= old(repr) && fresh(repr - old(repr))
      {
        var node := r.CreateNode(k, hosts[h], h);
      }
    }

    method ListResource(r: Resource, name: string)
      requires Valid() && r !in repr && r.cluster == this && r.nodes == []
      requires r.Is(ResourceState(name, transport, tls, "", "", "", "", [], 0), [])
      modifies this`resources, this`state, this`repr
      ensures Valid() && resources == old(resources) + [r] && r.Known(|resources| - 1)
      ensures Linked(old(state)) && state == ResourceListed(old(state), name)
      ensures repr == old(repr) + {r}
    {
      hide Linked, Host.Is;
      resources := resources + [r];
      repr := repr + {r};
      state := ResourceListed(state, name);
    }

    // ---- every step ----

    /** Everything that a step on a resource can reach belongs to the cluster. */
    lemma Reachable(r: nat)
      requires Valid() && r < |resources|
      ensures resources[r].Known(r) && resources[r] in repr && stack in repr && this in repr
      ensures |resources[r].nodes| == |state.resources[r].members|
      ensures forall n :: n in resources[r].nodes ==> n in repr && n.host in repr && forall v :: v in n.disks ==> v in repr
      ensures forall h :: h in hosts ==> h in repr
      ensures forall n :: n in nodes ==> n in repr
      ensures forall k :: 0 <= k < |resources[r].nodes| ==> resources[r].nodes[k].Known(Member(state, r, k))
    {
      hide Linked;
      var q := resources[r];
      q.MembersKnown(r);
      forall k | 0 <= k < |q.nodes|
        ensures q.nodes[k] in nodes && q.nodes[k].Known(Member(state, r, k))
      {
        assert q.Members(r)[k] == Member(state, r, k);
      }
    }

    /** Setters. */
    method ApplySetter(r: nat, change: Change)
      requires Valid() && r < |resources| && IsSetter(change)
      modifies repr
      ensures Valid() && Linked(old(state)) && r < |old(state).resources| && state == Set(old(state), r, change)
      ensures repr == old(repr) && resources == old(resources) && nodes == old(nodes)
    {
      hide Linked, Host.Is, Node.Is, Resource.Is, Set, OrderedSets.NoDup;
      Reachable(r);
      var q := resources[r];
      assert forall i :: 0 <= i < |q.nodes| ==> q.nodes[i] in q.nodes;
      match change {
        case SetNet(value) => q.SetNetOptions(r, value);
        case SetDisk(value) => q.SetDiskOptions(r, value);
        case SetOptions(value) => q.SetResourceOptions(r, value);
        case SetHandlers(value) => q.SetHandlers(r, value);
        case Rename(value) => q.Rename(r, value);
        case Touch => q.Touch(r);
      }
    }

    /** Members that come and go. */
    method ApplyMembership(r: nat, change: Change)
      requires Valid() && r < |resources| && (change.AddNode? || change.RemoveNode?)
      modifies repr
      ensures Valid() && Linked(old(state)) && r < |old(state).resources|
      ensures Outcome(state, true, None) == Changed(old(state), r, change, false)
      ensures repr == old(repr) && resources == old(resources) && nodes == old(nodes)
    {
      hide Linked, Host.Is, Resource.Is, Node.Is, Joined, Left, Touched, OrderedSets.NoDup, Changed;
      Reachable(r);
      var q := resources[r];
      assert forall i :: 0 <= i < |q.nodes| ==> q.nodes[i] in q.nodes;
      if change.AddNode? {
        JoinStep(state, r, change.p);
        if change.p < |nodes| {
          ResourceOf(change.p, r);
          if nodes[change.p].resource == q {
            q.AddNode(r, nodes[change.p], change.p);
          }
        }
      } else {
        LeaveStep(state, r, change.k);
        if change.k < |q.nodes| {
          ghost var n := Member(state, r, change.k);
          OwnMember(r, change.k);
          q.RemoveNode(r, q.nodes[change.k], n);
        }
      }
    }

    lemma ResourceOf(n: nat, r: nat)
      requires Valid() && n < |nodes| && r < |resources|
      ensures nodes[n].resource == resources[r] <==> state.nodes[n].resource == r
      ensures nodes[n].resource == resources[r] ==> nodes[n].Known(n)
    {
      hide Linked, Host.Is, Resource.Is;
    }

    lemma OwnMember(r: nat, k: nat)
      requires Valid() && r < |resources| && k < |resources[r].nodes|
      ensures k < |state.resources[r].members| && resources[r].nodes[k].resource == resources[r]
    {
      hide Linked;
      resources[r].MembersKnown(r);
    }

    /** The tiebreaker of a volume of a member. */
    method ApplyTiebreaker(r: nat, k: nat, position: nat, answer: Option<bool>)
      requires Valid() && r < |resources|
      modifies repr
      ensures Valid() && Linked(old(state)) && r < |old(state).resources|
      ensures Outcome(state, true, None) == Changed(old(state), r, Change.SetTiebreaker(k, position, answer), false)
      ensures repr == old(repr) && resources == old(resources) && nodes == old(nodes)
    {
      hide Linked, Host.Is, Resource.Is, Node.Is, Touched, TiebreakerSet, OrderedSets.NoDup, Changed;
      Reachable(r);
      TiebreakerStep(state, r, k, position, answer);
      var q := resources[r];
      assert forall i :: 0 <= i < |q.nodes| ==> q.nodes[i] in q.nodes;
      if k < |q.nodes| {
        OwnMember(r, k);
        VolumesCount(Member(state, r, k));
        if position < |q.nodes[k].disks| {
          assert forall i :: 0 <= i < |q.nodes[k].disks| ==> q.nodes[k].disks[i] in repr;
          q.SetTiebreaker(r, k, position, answer);
        }
      }
    }

    lemma VolumesCount(n: nat)
      requires Valid() && n < |nodes|
      ensures |state.nodes[n].volumes| == |nodes[n].disks|
    {
      assert nodes[n].Is(state.nodes[n], hosts, resources);
    }

    /** Volumes and commands. */
    method ApplyOn(r: nat, change: Change) returns (ok: bool, seen: Option<string>)
      requires Valid() && r < |resources| && (change.AddDiskOn? || change.RemoveDisksOn? || change.Command?)
      requires change.k < |resources[r].nodes|
      modifies repr
      ensures Valid() && Linked(old(state)) && r < |old(state).resources|
      ensures Outcome(state, ok, seen) == Changed(old(state), r, change, false)
      ensures repr >= old(repr) && fresh(repr - old(repr)) && resources == old(resources) && nodes == old(nodes)
    {
      hide Linked, Host.Is, Resource.Is, Node.Is, DiskAdded, DisksRemoved, Ran, Changed, OrderedSets.NoDup;
      Reachable(r);
      OwnMember(r, change.k);
      MemberSteps(state, r, change);
      var node := resources[r].nodes[change.k];
      ghost var n := Member(state, r, change.k);
      assert node in resources[r].nodes;
      ok, seen := true, None;
      if change.AddDiskOn? {
        ok := node.AddDisk(n, change.number, change.backing);
      } else if change.RemoveDisksOn? {
        node.RemoveDisks(n);
      } else {
        ok, seen := node.Run(n, change.update);
      }
    }

    /** A step on a resource. */
    method Apply(r: nat, change: Change) returns (ok: bool, seen: Option<string>)
      requires Valid() && r < |resources|
      modifies repr
      ensures Valid() && Linked(old(state)) && r < |old(state).resources|
      ensures Outcome(state, ok, seen) == Changed(old(state), r, change, false)
      ensures repr >= old(repr) && fresh(repr - old(repr)) && resources == old(resources)
    {
      hide Linked, Host.Is, Resource.Is, Node.Is, VolumeAdded, NodeCreated, Changed, OrderedSets.NoDup;
      Reachable(r);
      WholeSteps(state, r, change);
      var q := resources[r];
      assert forall i :: 0 <= i < |q.nodes| ==> q.nodes[i] in q.nodes;
      ok, seen := true, None;
      if change.AddDisk? {
        if |change.backings| == |q.nodes| {
          var number;
          ok, number := q.AddDisk(r, change.backings);
        }
      } else if change.CreateNode? {
        if change.h < |hosts| {
          var node := q.CreateNode(r, hosts[change.h], change.h);
        }
      } else if change.AddDiskOn? || change.RemoveDisksOn? || change.Command? {
        if change.k < |q.nodes| {
          ok, seen := ApplyOn(r, change);
        }
      } else {
        ApplyQuiet(r, change);
      }
    }

    /** The steps that never raise. */
    method ApplyQuiet(r: nat, change: Change)
      requires Valid() && r < |resources| && !change.AddDisk? && !change.CreateNode?
      requires !change.AddDiskOn? && !change.RemoveDisksOn? && !change.Command?
      modifies repr
      ensures Valid() && Linked(old(state)) && r < |old(state).resources|
      ensures Outcome(state, true, None) == Changed(old(state), r, change, false)
      ensures repr == old(repr) && resources == old(resources) && nodes == old(nodes)
    {
      hide Linked, Host.Is, Resource.Is, Node.Is, Set, Joined, Left, Touched, TiebreakerSet, Fenced, OrderedSets.NoDup;
      Reachable(r);
      var q := resources[r];
      assert forall i :: 0 <= i < |q.nodes| ==> q.nodes[i] in q.nodes;
      if change.AddNode? || change.RemoveNode? {
        ApplyMembership(r, change);
      } else if change.SetTiebreaker? {
        ApplyTiebreaker(r, change.k, change.position, change.answer);
      } else if change.SetFencing? {
        q.SetFencingMode(r, change.mode);
      } else {
        ApplySetter(r, change);
      }
    }

    /** A step of a test; `seen` is the file that a command finds. */
    method Perform(step: Step) returns (ok: bool, seen: Option<string>)
      requires Valid()
      modifies repr
      ensures Valid() && Linked(old(state)) && Outcome(state, ok, seen) == Next(old(state), step, false)
      ensures repr >= old(repr) && fresh(repr - old(repr))
    {
      hide Linked, Host.Is, Resource.Is, Node.Is, Changed, ResourceCreated, OrderedSets.NoDup;
      ok, seen := true, None;
      match step {
        case CreateResource(name) =>
          assert forall i :: 0 <= i < |hosts| ==> hosts[i] in repr;
          var r := AddResource(name);
        case On(r, change) =>
          if r < |resources| {
            ok, seen := Apply(r, change);
          }
      }
    }

    /** The steps of a test up to the first exception; `seen` holds what each step before it
        reported. */
    method Drive(steps: seq<Step>) returns (ok: bool, seen: seq<Option<string>>)
      requires Valid()
      modifies repr
      ensures Valid() && Linked(old(state)) && Run(state, ok, seen) == Replay(old(state), steps, false)
      ensures repr >= old(repr) && fresh(repr - old(repr))
    {
      hide Linked, Host.Is, Resource.Is, Node.Is, Next, Replay, OrderedSets.NoDup;
      ok, seen := true, [];
      ghost var run := Replay(state, steps, false);
      assert steps[0..] == steps && [] + run.seen == run.seen;
      for i := 0 to |steps|
        invariant Valid() && ok && repr >= old(repr) && fresh(repr - old(repr))
        invariant Linked(state) && var rest := Replay(state, steps[i..], false);
                  run == Run(rest.state, rest.ok, seen + rest.seen)
      {
        var file;
        ReplayStep(state, steps, i, seen);
        ok, file := Perform(steps[i]);
        if !ok {
          return;
        }
        seen := seen + [file];
      }
      ReplayEnd(state, steps, seen);
    }
  }
}
