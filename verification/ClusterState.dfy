/** python/drbdtest.py: the settings of a cluster, its configuration files and the flags
    that say whether they are current, as values, and every step of a test as a
    function of them.  `always` is false for the source, which writes a node's file
    when it is marked; true describes a driver without flags, which writes the file
    before every command. */
module ClusterState {
  import opened Wrappers
  import opened NodeConfig
  import opened ConfigErrors
  import OrderedSets

  /** `files` holds the configuration files on the host, by resource name. */
  datatype HostState = HostState(name: string, hostname: string, addrs: seq<string>, osId: string, osVersion: string,
                                 minors: nat, port: nat, files: map<string, string>)

  datatype VolumeState = VolumeState(number: nat, info: VolumeInfo)

  /** `marked` is `config_changed`; hosts and resources are given by their positions. */
  datatype NodeState = NodeState(host: nat, resource: nat, id: nat, port: nat, fencing: string,
                                 volumes: seq<VolumeState>, marked: bool)

  datatype ResourceState = ResourceState(name: string, transport: string, tls: string, net: string, disk: string,
                                         options: string, handlers: string, members: seq<nat>, count: nat)

  /** `nodes` are all that were created, in order: a test keeps those that it removed. */
  datatype State = State(transport: string, tls: string, hosts: seq<HostState>,
                         resources: seq<ResourceState>, nodes: seq<NodeState>)

  /** What add_disk is told about the storage of one node, none for a diskless one, and
      whether the commands that create it succeed. */
  datatype Backing = Backing(disk: string, meta: Option<string>, zeroOut: bool, created: bool)

  /** What a test can do to one resource.  Members are named by their position, the
      nodes to be added again by their position among all nodes. */
  datatype Change =
    | SetNet(value: string) | SetDisk(value: string) | SetOptions(value: string) | SetHandlers(value: string)
    | Rename(value: string) | SetFencing(mode: string) | Touch
    | SetTiebreaker(k: nat, position: nat, answer: Option<bool>)
    | AddNode(p: nat) | RemoveNode(k: nat) | CreateNode(h: nat)
    | AddDisk(backings: seq<Option<Backing>>)
    | AddDiskOn(k: nat, number: nat, backing: Option<Backing>)
    | RemoveDisksOn(k: nat)
    | Command(k: nat, update: bool)

  datatype Step = On(r: nat, change: Change) | CreateResource(name: string)

  /** The state after a step, whether it raised no exception, and the file that a
      command found. */
  datatype Outcome = Outcome(state: State, ok: bool, seen: Option<string>)

  // ---- settings ----

  /** Positions are in range, and members know their resource and are listed once. */
  ghost predicate Linked(s: State) {
    (forall n :: 0 <= n < |s.nodes| ==> s.nodes[n].host < |s.hosts| && s.nodes[n].resource < |s.resources|)
    && forall r :: 0 <= r < |s.resources| ==> MembersLinked(s, r)
  }

  ghost predicate MembersLinked(s: State, r: nat)
    requires r < |s.resources|
  {
    OrderedSets.NoDup(s.resources[r].members) && Belong(s, s.resources[r].members, r)
  }

  ghost predicate Belong(s: State, ms: seq<nat>, r: nat) {
    forall n :: n in ms ==> n < |s.nodes| && s.nodes[n].resource == r
  }

  /** The hosts, the nodes and the resources with their members are those of s, and
      perhaps more nodes. */
  ghost predicate Extends(s: State, t: State) {
    |t.hosts| == |s.hosts| && |t.resources| >= |s.resources| && |t.nodes| >= |s.nodes|
    && (forall n :: 0 <= n < |s.nodes| ==> t.nodes[n].host == s.nodes[n].host && t.nodes[n].resource == s.nodes[n].resource)
  }

  /** At most flags, files, numbers and volumes of nodes have changed. */
  ghost predicate SameMembers(s: State, t: State) {
    Extends(s, t) && |t.nodes| == |s.nodes| && t.resources == s.resources && t.transport == s.transport && t.tls == s.tls
  }

  lemma StaysLinked(s: State, t: State)
    requires Linked(s) && Extends(s, t)
    requires forall n :: |s.nodes| <= n < |t.nodes| ==> t.nodes[n].host < |t.hosts| && t.nodes[n].resource < |t.resources|
    requires forall r :: 0 <= r < |t.resources| ==>
               (r < |s.resources| && t.resources[r].members == s.resources[r].members) || MembersLinked(t, r)
    ensures Linked(t)
  {
    forall r | 0 <= r < |t.resources|
      ensures MembersLinked(t, r)
    {
      if r < |s.resources| && t.resources[r].members == s.resources[r].members {
        assert MembersLinked(s, r);
      }
    }
  }

  function VolumeInfos(vs: seq<VolumeState>): seq<VolumeInfo> {
    seq(|vs|, k requires 0 <= k < |vs| => vs[k].info)
  }

  function InfoOf(host: HostState, n: NodeState): NodeInfo {
    NodeInfo(n.id, host.name, host.hostname, host.addrs, n.port, VolumeInfos(n.volumes))
  }

  ghost function Info(s: State, r: nat): ResourceInfo
    requires Linked(s) && r < |s.resources|
  {
    var rs := s.resources[r];
    ResourceInfo(rs.name, rs.handlers, rs.options, rs.disk, rs.net, rs.transport, rs.tls,
                 seq(|rs.members|, i requires 0 <= i < |rs.members| =>
                   assert MembersLinked(s, r) && rs.members[i] in rs.members;
                   InfoOf(s.hosts[s.nodes[rs.members[i]].host], s.nodes[rs.members[i]])))
  }

  ghost function Me(s: State, n: nat): Own
    requires Linked(s) && n < |s.nodes|
  {
    Own(s.nodes[n].fencing, s.hosts[s.nodes[n].host].osId, s.hosts[s.nodes[n].host].osVersion)
  }

  /** What a node's `config()` returns now. */
  ghost function Current(s: State, n: nat): Option<string>
    requires Linked(s) && n < |s.nodes|
  {
    Config(Me(s, n), Info(s, s.nodes[n].resource))
  }

  ghost predicate CanWrite(s: State, n: nat)
    requires Linked(s) && n < |s.nodes|
  {
    WritableState(Me(s, n), Info(s, s.nodes[n].resource))
  }

  /** The file that a command on the node finds. */
  ghost function Found(s: State, n: nat): Option<string>
    requires Linked(s) && n < |s.nodes|
  {
    var files, name := s.hosts[s.nodes[n].host].files, s.resources[s.nodes[n].resource].name;
    if name in files then Some(files[name]) else None
  }

  // ---- one node ----

  ghost function WithNode(s: State, n: nat, node: NodeState): (t: State)
    requires Linked(s) && n < |s.nodes|
    requires node.host == s.nodes[n].host && node.resource == s.nodes[n].resource
    ensures Linked(t) && SameMembers(s, t)
  {
    var t := s.(nodes := s.nodes[n := node]);
    StaysLinked(s, t);
    t
  }

  ghost function WithHost(s: State, h: nat, host: HostState): (t: State)
    requires Linked(s) && h < |s.hosts|
    ensures Linked(t) && SameMembers(s, t)
  {
    var t := s.(hosts := s.hosts[h := host]);
    StaysLinked(s, t);
    t
  }

  ghost function WithResource(s: State, r: nat, resource: ResourceState): (t: State)
    requires Linked(s) && r < |s.resources|
    requires OrderedSets.NoDup(resource.members) && Belong(s, resource.members, r)
    ensures Linked(t) && Extends(s, t)
  {
    var t := s.(resources := s.resources[r := resource]);
    StaysLinked(s, t);
    t
  }

  ghost function Flagged(s: State, n: nat, marked: bool): (t: State)
    requires Linked(s) && n < |s.nodes|
    ensures Linked(t) && SameMembers(s, t)
  {
    WithNode(s, n, s.nodes[n].(marked := marked))
  }

  /** `update_config`: the flag is cleared first, then config() is called. */
  ghost function Updated(s: State, n: nat, always: bool): (o: Outcome)
    requires Linked(s) && n < |s.nodes|
    ensures Linked(o.state) && SameMembers(s, o.state) && o.seen == None
  {
    if !s.nodes[n].marked && !always then
      Outcome(s, true, None)
    else if Current(s, n).None? then
      Outcome(Flagged(s, n, false), false, None)
    else
      Outcome(Deployed(Flagged(s, n, false), n, Current(s, n).value), true, None)
  }

  /** A command may ask for no update. */
  ghost function UpdatedIf(update: bool, s: State, n: nat, always: bool): (o: Outcome)
    requires Linked(s) && n < |s.nodes|
    ensures Linked(o.state) && SameMembers(s, o.state) && o.seen == None
  {
    if update then Updated(s, n, always) else Outcome(s, true, None)
  }

  ghost function Deployed(s: State, n: nat, text: string): (t: State)
    requires Linked(s) && n < |s.nodes|
    ensures Linked(t) && SameMembers(s, t)
  {
    var h, name := s.nodes[n].host, s.resources[s.nodes[n].resource].name;
    WithHost(s, h, s.hosts[h].(files := s.hosts[h].files[name := text]))
  }

  /** `run`. */
  ghost function Ran(s: State, n: nat, update: bool, always: bool): (o: Outcome)
    requires Linked(s) && n < |s.nodes|
    ensures Linked(o.state) && SameMembers(s, o.state)
  {
    var o := UpdatedIf(update, s, n, always);
    if o.ok then Outcome(o.state, true, Found(o.state, n)) else o
  }

  /** The constructor of Volume: a new minor, or that of the volume to be replaced. */
  ghost function MinorTaken(s: State, n: nat, number: nat): (t: State)
    requires Linked(s) && n < |s.nodes|
    ensures Linked(t) && SameMembers(s, t)
  {
    var h := s.nodes[n].host;
    if number < |s.nodes[n].volumes| then s
    else WithHost(s, h, s.hosts[h].(minors := s.hosts[h].minors + 1))
  }

  function NewVolume(number: nat, minor: nat, backing: Option<Backing>): VolumeState {
    VolumeState(number, VolumeInfo(minor, if backing.Some? then Some(backing.value.disk) else None,
                                   if backing.Some? then backing.value.meta else None, None))
  }

  /** Append or replace. */
  function Placed(vs: seq<VolumeState>, v: VolumeState): seq<VolumeState> {
    if v.number < |vs| then vs[v.number := v] else vs + [v]
  }

  ghost function MinorFor(s: State, n: nat, number: nat): nat
    requires Linked(s) && n < |s.nodes|
  {
    if number < |s.nodes[n].volumes| then s.nodes[n].volumes[number].info.minor
    else s.hosts[s.nodes[n].host].minors + 1
  }

  /** `Node.add_disk`: storage and blkdiscard first, then the volume is listed and its
      node marked. */
  ghost function DiskAdded(s: State, n: nat, number: nat, backing: Option<Backing>, always: bool): (o: Outcome)
    requires Linked(s) && n < |s.nodes|
    ensures Linked(o.state) && SameMembers(s, o.state)
  {
    var v := NewVolume(number, MinorFor(s, n, number), backing);
    var taken := MinorTaken(s, n, number);
    if backing.Some? && !backing.value.created then
      Outcome(taken, false, None)
    else
      hide Updated, SameMembers, VolumeListed, MinorTaken, Linked;
      SameMembersThen(s, taken, taken);
      var o := UpdatedIf(backing.Some? && backing.value.zeroOut, taken, n, always);
      SameMembersThen(s, taken, o.state);
      if !o.ok then o
      else
        SameMembersThen(s, o.state, VolumeListed(o.state, n, v));
        Outcome(VolumeListed(o.state, n, v), true, None)
  }

  lemma SameMembersThen(s: State, t: State, u: State)
    requires SameMembers(s, t) && (u == t || SameMembers(t, u))
    ensures SameMembers(s, u) && |t.nodes| == |u.nodes| == |s.nodes|
  {
  }

  ghost function VolumeListed(s: State, n: nat, v: VolumeState): (t: State)
    requires Linked(s) && n < |s.nodes|
    ensures Linked(t) && SameMembers(s, t)
  {
    WithNode(s, n, s.nodes[n].(volumes := Placed(s.nodes[n].volumes, v), marked := true))
  }

  /** `Node.remove_disks`. */
  ghost function DisksRemoved(s: State, n: nat): (t: State)
    requires Linked(s) && n < |s.nodes|
    ensures Linked(t) && SameMembers(s, t)
  {
    WithNode(s, n, s.nodes[n].(volumes := []))
  }

  ghost function TiebreakerSet(s: State, n: nat, position: nat, answer: Option<bool>): (t: State)
    requires Linked(s) && n < |s.nodes| && position < |s.nodes[n].volumes|
    ensures Linked(t) && SameMembers(s, t)
  {
    var v := s.nodes[n].volumes[position];
    WithNode(s, n, s.nodes[n].(volumes := s.nodes[n].volumes[position := v.(info := v.info.(tiebreaker := answer))]))
  }

  // ---- one resource ----

  /** `touch_config`, for some nodes. */
  ghost function Touched(s: State, ms: seq<nat>): (t: State)
    requires Linked(s)
    ensures Linked(t) && SameMembers(s, t)
  {
    var t := s.(nodes := seq(|s.nodes|, n requires 0 <= n < |s.nodes| =>
                if n in ms then s.nodes[n].(marked := true) else s.nodes[n]));
    StaysLinked(s, t);
    t
  }

  /** The fencing mode of some nodes, whose setter marks each. */
  ghost function Fenced(s: State, ms: seq<nat>, mode: string): (t: State)
    requires Linked(s)
    ensures Linked(t) && SameMembers(s, t)
  {
    var t := s.(nodes := seq(|s.nodes|, n requires 0 <= n < |s.nodes| =>
                if n in ms then s.nodes[n].(fencing := mode, marked := true) else s.nodes[n]));
    StaysLinked(s, t);
    t
  }

  ghost predicate Among(s: State, ms: seq<nat>) {
    forall n :: n in ms ==> n < |s.nodes|
  }

  /** The first loop of `Resource.add_disk`. */
  ghost function DisksAdded(s: State, ms: seq<nat>, number: nat, backings: seq<Option<Backing>>, always: bool): (o: Outcome)
    requires Linked(s) && Among(s, ms) && |backings| == |ms|
    ensures Linked(o.state) && SameMembers(s, o.state)
    decreases |ms|
  {
    if ms == [] then
      Outcome(s, true, None)
    else
      assert ms[0] in ms && forall n :: n in ms[1..] ==> n in ms;
      var o := DiskAdded(s, ms[0], number, backings[0], always);
      if o.ok then DisksAdded(o.state, ms[1..], number, backings[1..], always) else o
  }

  /** Its second loop, which runs create-md on the nodes with storage. */
  ghost function MetadataCreated(s: State, ms: seq<nat>, backings: seq<Option<Backing>>, always: bool): (o: Outcome)
    requires Linked(s) && Among(s, ms) && |backings| == |ms|
    ensures Linked(o.state) && SameMembers(s, o.state)
    decreases |ms|
  {
    if ms == [] then
      Outcome(s, true, None)
    else
      assert ms[0] in ms && forall n :: n in ms[1..] ==> n in ms;
      var o := UpdatedIf(backings[0].Some?, s, ms[0], always);
      if o.ok then MetadataCreated(o.state, ms[1..], backings[1..], always) else o
  }

  /** `Resource.add_disk`. */
  ghost function VolumeAdded(s: State, r: nat, backings: seq<Option<Backing>>, always: bool): (o: Outcome)
    requires Linked(s) && r < |s.resources| && |backings| == |s.resources[r].members|
    ensures Linked(o.state) && Extends(s, o.state) && |o.state.nodes| == |s.nodes|
  {
    var rs := s.resources[r];
    assert MembersLinked(s, r);
    var counted := WithResource(s, r, rs.(count := rs.count + 1));
    var o := DisksAdded(counted, rs.members, rs.count, backings, always);
    if o.ok then MetadataCreated(o.state, rs.members, backings, always) else o
  }

  ghost function Joined(s: State, r: nat, n: nat): (t: State)
    requires Linked(s) && r < |s.resources| && n < |s.nodes| && s.nodes[n].resource == r
    ensures Linked(t) && Extends(s, t)
  {
    var rs := s.resources[r];
    assert MembersLinked(s, r);
    WithResource(s, r, rs.(members := if n in rs.members then rs.members else rs.members + [n]))
  }

  ghost function Left(s: State, r: nat, n: nat): (t: State)
    requires Linked(s) && r < |s.resources|
    ensures Linked(t) && Extends(s, t)
  {
    var rs := s.resources[r];
    assert MembersLinked(s, r);
    LeavingKeeps(rs.members, n);
    WithResource(s, r, rs.(members := OrderedSets.RemoveFirst(rs.members, n)))
  }

  lemma LeavingKeeps(members: seq<nat>, n: nat)
    requires OrderedSets.NoDup(members)
    ensures OrderedSets.NoDup(OrderedSets.RemoveFirst(members, n))
    ensures forall m :: m in OrderedSets.RemoveFirst(members, n) <==> m in members && m != n
  {
    OrderedSets.RemoveFirstKeeps(members, n, n);
    forall m
      ensures OrderedSets.NoDup(OrderedSets.RemoveFirst(members, n))
      ensures m in OrderedSets.RemoveFirst(members, n) <==> m in members && m != n
    {
      OrderedSets.RemoveFirstKeeps(members, n, m);
    }
  }

  /** The constructor of Node, with a port from `next_port`. */
  ghost function NodeCreated(s: State, r: nat, h: nat): (t: State)
    requires Linked(s) && r < |s.resources| && h < |s.hosts|
    ensures Linked(t) && Extends(s, t)
  {
    var rs, hs := s.resources[r], s.hosts[h];
    var node := NodeState(h, r, |rs.members|, hs.port, "", [], true);
    var t := s.(hosts := s.hosts[h := hs.(port := hs.port + 1)],
                resources := s.resources[r := rs.(members := rs.members + [|s.nodes|])],
                nodes := s.nodes + [node]);
    assert MembersLinked(t, r) by {
      assert MembersLinked(s, r);
      assert forall i :: 0 <= i < |rs.members| ==> rs.members[i] in rs.members;
    }
    StaysLinked(s, t);
    t
  }

  // ---- the cluster ----

  /** A node on every host from some position on. */
  ghost function NodesCreated(s: State, r: nat, from: nat): (t: State)
    requires Linked(s) && r < |s.resources| && from <= |s.hosts|
    ensures Linked(t) && Extends(s, t)
    decreases |s.hosts| - from
  {
    if from == |s.hosts| then s else NodesCreated(NodeCreated(s, r, from), r, from + 1)
  }

  ghost function ResourceListed(s: State, name: string): (t: State)
    requires Linked(s)
    ensures Linked(t) && Extends(s, t)
  {
    var t := s.(resources := s.resources + [ResourceState(name, s.transport, s.tls, "", "", "", "", [], 0)]);
    assert MembersLinked(t, |s.resources|);
    StaysLinked(s, t);
    t
  }

  /** `create_resource`. */
  ghost function ResourceCreated(s: State, name: string): (t: State)
    requires Linked(s)
    ensures Linked(t) && Extends(s, t)
  {
    NodesCreated(ResourceListed(s, name), |s.resources|, 0)
  }

  /** The setters of a resource. */
  ghost function Assigned(rs: ResourceState, change: Change): ResourceState {
    match change
    case SetNet(value) => rs.(net := value)
    case SetDisk(value) => rs.(disk := value)
    case SetOptions(value) => rs.(options := value)
    case SetHandlers(value) => rs.(handlers := value)
    case Rename(value) => rs.(name := value)
    case _ => rs
  }

  ghost predicate IsSetter(change: Change) {
    change.SetNet? || change.SetDisk? || change.SetOptions? || change.SetHandlers? || change.Rename? || change.Touch?
  }

  ghost function Set(s: State, r: nat, change: Change): (t: State)
    requires Linked(s) && r < |s.resources|
    ensures Linked(t) && Extends(s, t)
  {
    assert MembersLinked(s, r);
    Touched(WithResource(s, r, Assigned(s.resources[r], change)), s.resources[r].members)
  }

  ghost function Member(s: State, r: nat, k: nat): (n: nat)
    requires Linked(s) && r < |s.resources| && k < |s.resources[r].members|
    ensures n < |s.nodes| && s.nodes[n].resource == r && n in s.resources[r].members
  {
    assert MembersLinked(s, r) && s.resources[r].members[k] in s.resources[r].members;
    s.resources[r].members[k]
  }

  function Quiet(s: State): Outcome {
    Outcome(s, true, None)
  }

  /** A step on one resource; positions out of range stand for no step. */
  ghost function Changed(s: State, r: nat, change: Change, always: bool): (o: Outcome)
    requires Linked(s) && r < |s.resources|
    ensures Linked(o.state) && Extends(s, o.state)
  {
    var ms := s.resources[r].members;
    if IsSetter(change) then
      Quiet(Set(s, r, change))
    else if change.SetFencing? then
      Quiet(Fenced(s, ms, change.mode))
    else if change.SetTiebreaker? then
      if change.k < |ms| && change.position < |s.nodes[Member(s, r, change.k)].volumes|
      then Quiet(Touched(TiebreakerSet(s, Member(s, r, change.k), change.position, change.answer), ms))
      else Quiet(s)
    else if change.AddNode? then
      if change.p < |s.nodes| && s.nodes[change.p].resource == r
      then var t := Joined(s, r, change.p); Quiet(Touched(t, t.resources[r].members))
      else Quiet(s)
    else if change.RemoveNode? then
      if change.k < |ms|
      then var t := Left(s, r, ms[change.k]); Quiet(Touched(t, t.resources[r].members))
      else Quiet(s)
    else if change.CreateNode? then
      if change.h < |s.hosts| then Quiet(NodeCreated(s, r, change.h)) else Quiet(s)
    else if change.AddDisk? then
      if |change.backings| == |ms| then VolumeAdded(s, r, change.backings, always) else Quiet(s)
    else if change.AddDiskOn? then
      if change.k < |ms| then DiskAdded(s, Member(s, r, change.k), change.number, change.backing, always) else Quiet(s)
    else if change.RemoveDisksOn? then
      if change.k < |ms| then Quiet(DisksRemoved(s, Member(s, r, change.k))) else Quiet(s)
    else
      if change.k < |ms| then Ran(s, Member(s, r, change.k), change.update, always) else Quiet(s)
  }

  /** A step of a test. */
  ghost function Next(s: State, step: Step, always: bool): (o: Outcome)
    requires Linked(s)
    ensures Linked(o.state) && Extends(s, o.state)
  {
    match step
    case CreateResource(name) => Quiet(ResourceCreated(s, name))
    case On(r, change) => if r < |s.resources| then Changed(s, r, change, always) else Quiet(s)
  }

  /** The steps of a test up to the first exception: the last state, whether there was
      none, and what each step reported. */
  datatype Run = Run(state: State, ok: bool, seen: seq<Option<string>>)

  ghost function Replay(s: State, steps: seq<Step>, always: bool): (run: Run)
    requires Linked(s)
    ensures Linked(run.state) && |run.seen| <= |steps| && (run.ok ==> |run.seen| == |steps|)
    decreases |steps|
  {
    if steps == [] then
      Run(s, true, [])
    else
      var o := Next(s, steps[0], always);
      if o.ok then
        var rest := Replay(o.state, steps[1..], always);
        Run(rest.state, rest.ok, [o.seen] + rest.seen)
      else
        Run(o.state, false, [])
  }
}
