/** python/trafficcontrol.py: delays and rate limits on the way from one node to the
    others, kept in a tree of queueing disciplines on each network device. */
module TrafficControl {
  import opened Wrappers

  // ---- the trees that tc keeps ----

  /** A netem discipline; empty strings stand for arguments that were left out. */
  datatype Netem = Netem(handle: nat, speed: string, delay: string)

  datatype Filter = Filter(destination: int, flow: nat)

  /** A root of kind prio: every packet that no filter takes goes to the default
      band; band b is class b + 1.  A class without a child is not limited. */
  datatype Prio = Prio(bands: nat, defaultBand: nat, filters: seq<Filter>, children: map<nat, Netem>)

  type Trees = map<int, Prio>

  datatype Command =
    | DelRoot(dev: int)
    | ReplaceRoot(dev: int, bands: nat, defaultBand: nat)
    | AddFilter(dev: int, destination: int, flow: nat)
    | ReplaceChild(dev: int, parent: nat, netem: Netem)
    | DelChild(dev: int, parent: nat, handle: nat)

  /** One tc command; None when it fails. */
  function Execute(trees: Trees, c: Command): Option<Trees> {
    match c
    case DelRoot(dev) => if dev in trees then Some(trees - {dev}) else None
    case ReplaceRoot(dev, bands, band) =>
      if band < bands then Some(trees[dev := Prio(bands, band, [], map[])]) else None
    case AddFilter(dev, destination, flow) =>
      if dev !in trees then None
      else Some(trees[dev := trees[dev].(filters := trees[dev].filters + [Filter(destination, flow)])])
    case ReplaceChild(dev, parent, netem) =>
      if dev !in trees || parent < 1 || parent > trees[dev].bands then None
      else Some(trees[dev := trees[dev].(children := trees[dev].children[parent := netem])])
    case DelChild(dev, parent, handle) =>
      if dev !in trees || parent !in trees[dev].children || trees[dev].children[parent].handle != handle then None
      else Some(trees[dev := trees[dev].(children := trees[dev].children - {parent})])
  }

  /** The class of a packet: the first filter that matches, or the default band. */
  function ClassOf(filters: seq<Filter>, destination: int, default: nat): nat {
    if filters == [] then default
    else if filters[0].destination == destination then filters[0].flow
    else ClassOf(filters[1..], destination, default)
  }

  /** The discipline that a packet passes on its way out, if any. */
  function Shape(trees: Trees, dev: int, destination: int): Option<Netem> {
    if dev !in trees then None
    else
      var root := trees[dev];
      var c := ClassOf(root.filters, destination, root.defaultBand + 1);
      if c in root.children then Some(root.children[c]) else None
  }

  // ---- nodes and devices ----

  datatype Peer = Peer(id: nat, addrs: seq<int>)

  /** `route[net][i]` is the device that leads from the source to node i on a net; the
      nets are those of the source's addresses. */
  datatype Setup = Setup(nodes: seq<Peer>, source: nat, nets: nat, route: seq<seq<int>>)

  /** Every node has an address on every net, and no two nodes have the same id. */
  ghost predicate Sensible(s: Setup) {
    s.source < |s.nodes| && |s.route| == s.nets
    && (forall net :: 0 <= net < s.nets ==> |s.route[net]| == |s.nodes|)
    && (forall i :: 0 <= i < |s.nodes| ==> |s.nodes[i].addrs| >= s.nets)
    && (forall i, j :: 0 <= i < j < |s.nodes| ==> s.nodes[i].id != s.nodes[j].id)
  }

  ghost predicate DistinctAddresses(s: Setup)
    requires Sensible(s)
  {
    forall i, j, k, l :: 0 <= i < |s.nodes| && 0 <= j < |s.nodes| && 0 <= k < s.nets && 0 <= l < s.nets ==>
      s.nodes[i].addrs[k] == s.nodes[j].addrs[l] ==> i == j && k == l
  }

  /** The node's class is one of those that the source makes, one for each node. */
  predicate HasClass(s: Setup, i: nat)
    requires i < |s.nodes|
  {
    s.nodes[i].id < |s.nodes|
  }

  function DeviceTo(s: Setup, net: nat, i: nat): int
    requires Sensible(s) && net < s.nets && i < |s.nodes|
  {
    s.route[net][i]
  }

  predicate Leads(s: Setup, net: nat, i: nat, dev: int)
    requires Sensible(s)
  {
    net < s.nets && i < |s.nodes| && i != s.source && DeviceTo(s, net, i) == dev
  }

  /** One device leads to nodes on two nets. */
  ghost predicate Conflict(s: Setup)
    requires Sensible(s)
  {
    exists net: nat, net': nat, i: nat, j: nat, dev :: Leads(s, net, i, dev) && Leads(s, net', j, dev) && net != net'
  }

  datatype Group = Group(net: nat, members: seq<nat>)

  predicate InRange(s: Setup, members: seq<nat>) {
    forall k :: 0 <= k < |members| ==> members[k] < |s.nodes|
  }

  /** The nodes below k that a device leads to on a net, in order. */
  function Members(s: Setup, net: nat, dev: int, k: nat): (ms: seq<nat>)
    requires Sensible(s) && net < s.nets && k <= |s.nodes|
    ensures forall i: nat :: i in ms <==> i < k && Leads(s, net, i, dev)
    ensures InRange(s, ms)
  {
    if k == 0 then []
    else Members(s, net, dev, k - 1) + (if Leads(s, net, k - 1, dev) then [k - 1] else [])
  }

  /** A device with its net and its nodes, after the pairs before (net, k). */
  ghost predicate GroupOk(s: Setup, dev: int, g: Group, net: nat, k: nat)
    requires Sensible(s) && k <= |s.nodes|
  {
    g.net < s.nets && g.net <= net && (g.net == net ==> k > 0) && g.members != []
    && g.members == Members(s, g.net, dev, if g.net == net then k else |s.nodes|)
  }

  ghost predicate Grouped(s: Setup, groups: map<int, Group>, net: nat, k: nat)
    requires Sensible(s) && k <= |s.nodes|
  {
    (forall dev :: dev in groups ==> GroupOk(s, dev, groups[dev], net, k))
    && (forall n: nat, i: nat, dev :: Leads(s, n, i, dev) && (n < net || (n == net && i < k)) ==>
          dev in groups && groups[dev].net == n)
  }

  lemma MembersNext(s: Setup, net: nat, dev: int, k: nat)
    requires Sensible(s) && net < s.nets && k < |s.nodes|
    ensures Members(s, net, dev, k + 1) == Members(s, net, dev, k) + (if Leads(s, net, k, dev) then [k] else [])
  {
  }

  lemma SomeMember(ms: seq<nat>)
    requires ms != []
    ensures exists i: nat :: i in ms
  {
    assert ms[0] in ms;
  }

  lemma NotMet(s: Setup, groups: map<int, Group>, net: nat, k: nat, dev: int)
    requires Sensible(s) && net < s.nets && k < |s.nodes| && Grouped(s, groups, net, k) && dev !in groups
    ensures Members(s, net, dev, k) == []
  {
    hide Sensible;
    var ms := Members(s, net, dev, k);
    if ms != [] {
      SomeMember(ms);
    }
  }

  function Joined(groups: map<int, Group>, net: nat, dev: int, i: nat): map<int, Group> {
    groups[dev := Group(net, (if dev in groups then groups[dev].members else []) + [i])]
  }

  lemma GroupedNext(s: Setup, groups: map<int, Group>, net: nat, k: nat)
    requires Sensible(s) && net < s.nets && k < |s.nodes| && Grouped(s, groups, net, k) && k != s.source
    requires var dev := DeviceTo(s, net, k); dev in groups ==> groups[dev].net == net
    ensures Grouped(s, Joined(groups, net, DeviceTo(s, net, k), k), net, k + 1)
  {
    hide Sensible, Members;
    var dev := DeviceTo(s, net, k);
    if dev !in groups {
      NotMet(s, groups, net, k, dev);
    }
    var next := Joined(groups, net, dev, k);
    forall d | d in next
      ensures GroupOk(s, d, next[d], net, k + 1)
    {
      MembersNext(s, net, d, k);
    }
  }

  lemma GroupedSource(s: Setup, groups: map<int, Group>, net: nat)
    requires Sensible(s) && net < s.nets && s.source < |s.nodes| && Grouped(s, groups, net, s.source)
    ensures Grouped(s, groups, net, s.source + 1)
  {
    hide Sensible, Members;
    forall d | d in groups
      ensures GroupOk(s, d, groups[d], net, s.source + 1)
    {
      MembersNext(s, net, d, s.source);
    }
  }

  lemma GroupedNet(s: Setup, groups: map<int, Group>, net: nat)
    requires Sensible(s) && net < s.nets && Grouped(s, groups, net, |s.nodes|)
    ensures Grouped(s, groups, net + 1, 0)
  {
    hide Sensible, Members;
  }

  /** No device leads to any node. */
  ghost predicate Unused(groups: map<int, Group>) {
    forall dev :: dev !in groups
  }

  /** The order of a dictionary's keys. */
  ghost predicate Lists(order: seq<int>, groups: map<int, Group>) {
    (forall dev :: dev in groups <==> dev in order)
    && (forall j, k :: 0 <= j < k < |order| ==> order[j] != order[k])
  }

  /** `_get_nodes_by_dev`: fails iff some device serves two nets. */
  method GetNodesByDev(s: Setup) returns (r: Option<map<int, Group>>, order: seq<int>)
    requires Sensible(s)
    ensures r.None? <==> Conflict(s)
    ensures r.Some? ==> Grouped(s, r.value, s.nets, 0) && Lists(order, r.value)
  {
    hide Sensible, Members, Grouped, GroupOk, Conflict;
    order := [];
    var groups: map<int, Group> := map[];
    NoneGrouped(s);
    for net := 0 to s.nets
      invariant Grouped(s, groups, net, 0) && Lists(order, groups)
    {
      for i := 0 to |s.nodes|
        invariant Grouped(s, groups, net, i) && Lists(order, groups)
      {
        if i != s.source {
          var dev := DeviceTo(s, net, i);
          if dev in groups && groups[dev].net != net {
            Disagrees(s, groups, net, i);
            return None, order;
          }
          GroupedNext(s, groups, net, i);
          if dev !in groups {
            order := order + [dev];
          }
          groups := Joined(groups, net, dev, i);
        } else {
          GroupedSource(s, groups, net);
        }
      }
      GroupedNet(s, groups, net);
    }
    NoConflict(s, groups);
    return Some(groups), order;
  }

  lemma NoneGrouped(s: Setup)
    requires Sensible(s)
    ensures Grouped(s, map[], 0, 0)
  {
  }

  lemma Disagrees(s: Setup, groups: map<int, Group>, net: nat, k: nat)
    requires Sensible(s) && net < s.nets && k < |s.nodes| && k != s.source && Grouped(s, groups, net, k)
    requires DeviceTo(s, net, k) in groups && groups[DeviceTo(s, net, k)].net != net
    ensures Conflict(s)
  {
    hide Sensible;
    var dev := DeviceTo(s, net, k);
    var g := groups[dev];
    assert g.members[0] in g.members;
    assert Leads(s, g.net, g.members[0], dev) && Leads(s, net, k, dev);
  }

  lemma NoConflict(s: Setup, groups: map<int, Group>)
    requires Sensible(s) && Grouped(s, groups, s.nets, 0)
    ensures !Conflict(s)
  {
    hide Sensible, Members;
  }

  // ---- what the trees must look like ----

  type Settings = map<nat, Netem>

  function FilterFor(s: Setup, net: nat, i: nat): Filter
    requires Sensible(s) && net < s.nets && i < |s.nodes|
  {
    Filter(s.nodes[i].addrs[net], s.nodes[i].id + 1)
  }

  function Filters(s: Setup, net: nat, members: seq<nat>): (fs: seq<Filter>)
    requires Sensible(s) && net < s.nets && InRange(s, members)
    ensures |fs| == |members| && forall k :: 0 <= k < |members| ==> fs[k] == FilterFor(s, net, members[k])
  {
    seq(|members|, k requires 0 <= k < |members| => FilterFor(s, net, members[k]))
  }

  function Classes(s: Setup, members: seq<nat>): (cs: set<nat>)
    requires InRange(s, members)
    ensures forall c :: c in cs ==> c >= 1
  {
    set i | i in members :: s.nodes[i].id + 1
  }

  /** The classes that are slowed down. */
  function Children(classes: set<nat>, settings: Settings): map<nat, Netem> {
    map c | c in classes && c >= 1 && c - 1 in settings :: settings[c - 1]
  }

  function Device(s: Setup, g: Group, settings: Settings): Prio
    requires Sensible(s) && g.net < s.nets && InRange(s, g.members)
  {
    Prio(|s.nodes|, s.nodes[s.source].id, Filters(s, g.net, g.members), Children(Classes(s, g.members), settings))
  }

  ghost predicate Complete(s: Setup, groups: map<int, Group>) {
    Sensible(s) && Grouped(s, groups, s.nets, 0)
  }

  /** The trees carry out the settings. */
  ghost predicate Configured(s: Setup, groups: map<int, Group>, trees: Trees, settings: Settings)
    requires Complete(s, groups)
  {
    forall dev :: dev in groups ==> dev in trees && trees[dev] == Device(s, groups[dev], settings)
  }

  /** The filters send a member's address to its class and leave the rest alone. */
  lemma {:induction false} ClassOfMember(s: Setup, net: nat, members: seq<nat>, destination: int, default: nat)
    requires Sensible(s) && net < s.nets && InRange(s, members)
    ensures (exists i :: i in members && s.nodes[i].addrs[net] == destination
                         && ClassOf(Filters(s, net, members), destination, default) == s.nodes[i].id + 1)
            || ((forall i :: i in members ==> s.nodes[i].addrs[net] != destination)
                && ClassOf(Filters(s, net, members), destination, default) == default)
  {
    hide Sensible;
    var fs := Filters(s, net, members);
    if members != [] {
      var rest := members[1..];
      assert members == [members[0]] + rest;
      assert fs[1..] == Filters(s, net, rest);
      assert members[0] in members && fs[0] == FilterFor(s, net, members[0]);
      if fs[0].destination != destination {
        ClassOfMember(s, net, rest, destination, default);
      }
    }
  }

  /** A packet to any node, on any net, gets exactly what is set for that node. */
  lemma NodeShape(s: Setup, groups: map<int, Group>, trees: Trees, settings: Settings, net: nat, i: nat)
    requires Complete(s, groups) && Configured(s, groups, trees, settings) && DistinctAddresses(s)
    requires net < s.nets && i < |s.nodes| && i != s.source
    ensures var id := s.nodes[i].id;
            Shape(trees, DeviceTo(s, net, i), s.nodes[i].addrs[net])
            == if id in settings then Some(settings[id]) else None
  {
    var dev := DeviceTo(s, net, i);
    assert Leads(s, net, i, dev);
    var g := groups[dev];
    var id := s.nodes[i].id;
    hide Members, Classes, Children;
    ClassOfMember(s, net, g.members, s.nodes[i].addrs[net], s.nodes[s.source].id + 1);
    ClassIn(s, g.members, i);
    ChildOf(Classes(s, g.members), settings, s.nodes[i].id);
  }

  lemma ClassIn(s: Setup, members: seq<nat>, i: nat)
    requires Sensible(s) && i < |s.nodes| && InRange(s, members)
    ensures s.nodes[i].id + 1 in Classes(s, members) <==> i in members
  {
    if s.nodes[i].id + 1 in Classes(s, members) {
      var j: nat :| j in members && s.nodes[j].id + 1 == s.nodes[i].id + 1;
      assert i < j || j < i || i == j;
    }
  }

  lemma ChildOf(classes: set<nat>, settings: Settings, id: nat)
    ensures id + 1 in Children(classes, settings) <==> id + 1 in classes && id in settings
    ensures id + 1 in classes && id in settings ==> Children(classes, settings)[id + 1] == settings[id]
  {
  }

  lemma SameChildren(classes: set<nat>, a: Settings, b: Settings, id: nat)
    requires id + 1 !in classes && SameBut(a, b, id)
    ensures Children(classes, a) == Children(classes, b)
  {
  }

  /** A packet to any other destination lands in the source's own band, which is
      never limited. */
  lemma UnfilteredShape(s: Setup, groups: map<int, Group>, trees: Trees, settings: Settings, dev: int, destination: int)
    requires Complete(s, groups) && Configured(s, groups, trees, settings) && dev in groups
    requires forall i :: 0 <= i < |s.nodes| && i != s.source ==> s.nodes[i].addrs[groups[dev].net] != destination
    ensures Shape(trees, dev, destination) == None
  {
    var g := groups[dev];
    ClassOfMember(s, g.net, g.members, destination, s.nodes[s.source].id + 1);
    hide Members, Classes, Children;
    ClassIn(s, g.members, s.source);
    ChildOf(Classes(s, g.members), settings, s.nodes[s.source].id);
    assert s.source !in g.members;
  }

  // ---- the class ----

  function HandleOf(s: Setup, i: nat): nat
    requires i < |s.nodes|
  {
    s.nodes[i].id + 100
  }

  /** The trees on devices that the source does not use for these nodes stay. */
  ghost predicate SameElsewhere(trees: Trees, before: Trees, groups: map<int, Group>) {
    trees - groups.Keys == before - groups.Keys
  }

  /** The trees while a change of settings has reached the nets below `net`. */
  ghost predicate Halfway(s: Setup, groups: map<int, Group>, trees: Trees, before: Settings, after: Settings, net: nat)
    requires Complete(s, groups)
  {
    forall dev :: dev in groups ==>
      dev in trees && trees[dev] == Device(s, groups[dev], if groups[dev].net < net then after else before)
  }

  ghost predicate SameBut(a: Settings, b: Settings, id: nat) {
    forall j: nat :: j != id ==> (j in a <==> j in b) && (j in a ==> a[j] == b[j])
  }

  /** Changing the child of one node on one net. */
  lemma NextNet(s: Setup, groups: map<int, Group>, trees: Trees, before: Settings, after: Settings,
                net: nat, i: nat, root: Prio)
    requires Complete(s, groups) && Halfway(s, groups, trees, before, after, net)
    requires net < s.nets && i < |s.nodes| && i != s.source && SameBut(before, after, s.nodes[i].id)
    requires var dev := DeviceTo(s, net, i);
             dev in groups && root == Device(s, groups[dev], after)
    ensures var dev := DeviceTo(s, net, i);
            Halfway(s, groups, trees[dev := root], before, after, net + 1)
            && SameElsewhere(trees[dev := root], trees, groups)
  {
    hide Sensible, Device, Members;
    forall d | d in groups && d != DeviceTo(s, net, i)
      ensures groups[d].net == net ==> Device(s, groups[d], before) == Device(s, groups[d], after)
    {
      if groups[d].net == net {
        OtherDevice(s, groups[d], before, after, i, d);
      }
    }
    NodesDevice(s, groups, net, i);
  }

  lemma NodesDevice(s: Setup, groups: map<int, Group>, net: nat, i: nat)
    requires Complete(s, groups) && net < s.nets && i < |s.nodes| && i != s.source
    ensures var dev := DeviceTo(s, net, i);
            dev in groups && groups[dev].net == net < s.nets && i in groups[dev].members && InRange(s, groups[dev].members)
  {
    hide Sensible;
    assert Leads(s, net, i, DeviceTo(s, net, i));
  }

  lemma OtherDevice(s: Setup, g: Group, before: Settings, after: Settings, i: nat, dev: int)
    requires Sensible(s) && g.net < s.nets && i < |s.nodes| && SameBut(before, after, s.nodes[i].id)
    requires g.members == Members(s, g.net, dev, |s.nodes|) && dev != DeviceTo(s, g.net, i)
    ensures Device(s, g, before) == Device(s, g, after)
  {
    hide Children;
    assert i !in g.members;
    ClassIn(s, g.members, i);
    SameChildren(Classes(s, g.members), before, after, s.nodes[i].id);
  }

  class TrafficControl {
    const setup: Setup
    var trees: Trees
    /** False when the constructor raised. */
    var ready: bool
    ghost var groups: map<int, Group>
    /** What every node is currently slowed down to. */
    ghost var settings: Settings

    ghost predicate Valid()
      reads this
    {
      ready && Complete(setup, groups) && Configured(setup, groups, trees, settings)
      && (forall id :: id in settings ==> settings[id].handle == id + 100)
    }

    /** The devices of the nodes get fresh trees, whatever they had before; other
        devices keep theirs.  It raises before any command iff a device serves two nets,
        and at the first tree iff the source's own band is not among those it makes. */
    constructor (s: Setup, leftover: Trees)
      requires Sensible(s)
      ensures setup == s && (ready ==> !Conflict(s))
      ensures Conflict(s) ==> trees == leftover
      ensures !Conflict(s) ==> (ready <==> Unused(groups) || HasClass(s, s.source)) && SameElsewhere(trees, leftover, groups)
      ensures !Conflict(s) ==> Complete(s, groups)
      ensures ready ==> Valid() && settings == map[]
    {
      setup := s;
      trees := leftover;
      ready := false;
      groups := map[];
      settings := map[];
      new;
      hide Sensible, Grouped, Conflict, Configured, SameElsewhere;
      var found, order := GetNodesByDev(s);
      if found.Some? {
        groups := found.value;
        ready := ConfigureDevices(found.value, order);
      }
    }

    method ConfigureDevices(devices: map<int, Group>, order: seq<int>) returns (ok: bool)
      requires Complete(setup, devices) && devices == groups && Lists(order, devices)
      modifies this`trees
      ensures ok <==> Unused(groups) || HasClass(setup, setup.source)
      ensures ok ==> Configured(setup, groups, trees, map[])
      ensures SameElsewhere(trees, old(trees), groups)
    {
      hide Device, Members;
      ok := true;
      for k := 0 to |order|
        invariant ok && (k > 0 ==> HasClass(setup, setup.source))
        invariant forall j :: 0 <= j < k ==>
                    order[j] in devices && order[j] in trees && trees[order[j]] == Device(setup, devices[order[j]], map[])
        invariant SameElsewhere(trees, old(trees), groups)
      {
        assert order[k] in order;
        ok := ConfigureDevice(order[k], devices[order[k]]);
        if !ok {
          return;
        }
      }
      assert order != [] ==> order[0] in order && order[0] in groups;
      forall dev | dev in devices
        ensures dev in trees && trees[dev] == Device(setup, devices[dev], map[])
      {
        assert dev in order;
      }
    }

    method ConfigureDevice(dev: int, g: Group) returns (ok: bool)
      requires Sensible(setup) && g.net < setup.nets && InRange(setup, g.members)
      modifies this`trees
      ensures ok == HasClass(setup, setup.source)
      ensures trees == if ok then old(trees)[dev := Device(setup, g, map[])] else old(trees) - {dev}
    {
      var source := setup.nodes[setup.source].id;
      var cleared := Execute(trees, DelRoot(dev));
      if cleared.Some? {
        trees := cleared.value;
      }
      var made := Execute(trees, ReplaceRoot(dev, |setup.nodes|, source));
      if made.None? {
        return false;
      }
      trees := made.value;
      for k := 0 to |g.members|
        invariant trees == old(trees)[dev := Prio(|setup.nodes|, source, Filters(setup, g.net, g.members[..k]), map[])]
      {
        var node := setup.nodes[g.members[k]];
        assert g.members[..k + 1][..k] == g.members[..k];
        assert Filters(setup, g.net, g.members[..k + 1])
            == Filters(setup, g.net, g.members[..k]) + [Filter(node.addrs[g.net], node.id + 1)];
        trees := Execute(trees, AddFilter(dev, node.addrs[g.net], node.id + 1)).value;
      }
      assert g.members[..|g.members|] == g.members;
      ok := true;
    }

    /** Sets the node's discipline on every net, replacing any earlier one.  It raises, at
        the first command, iff the node has no class. */
    method SlowDown(i: nat, speed: string, delay: string) returns (ok: bool)
      requires Valid() && i < |setup.nodes| && i != setup.source
      modifies this
      ensures Valid() && groups == old(groups) && SameElsewhere(trees, old(trees), groups)
      ensures ok <==> HasClass(setup, i) || setup.nets == 0
      ensures settings == if ok then old(settings)[setup.nodes[i].id := Netem(setup.nodes[i].id + 100, speed, delay)]
                          else old(settings)
      ensures !ok ==> trees == old(trees)
    {
      hide Sensible, Grouped, Device;
      var id := setup.nodes[i].id;
      var netem := Netem(HandleOf(setup, i), speed, delay);
      ghost var before := settings;
      settings := settings[id := netem];
      for net := 0 to setup.nets
        invariant ready && groups == old(groups) && settings == before[id := netem]
        invariant if net == 0 then trees == old(trees) else HasClass(setup, i)
        invariant Halfway(setup, groups, trees, before, settings, net)
        invariant SameElsewhere(trees, old(trees), groups)
      {
        var dev := DeviceTo(setup, net, i);
        NodesDevice(setup, groups, net, i);
        SlowedDevice(setup, groups[dev], before, i, netem);
        var next := Execute(trees, ReplaceChild(dev, id + 1, netem));
        if next.None? {
          HalfwayStart(setup, groups, trees, before, settings);
          settings := before;
          return false;
        }
        NextNet(setup, groups, trees, before, settings, net, i, Device(setup, groups[dev], settings));
        trees := next.value;
      }
      HalfwayDone(setup, groups, trees, before, settings);
      ok := true;
    }

    /** Fails, at the first command, iff the node is not slowed down. */
    method RemoveSlowDown(i: nat) returns (ok: bool)
      requires Valid() && i < |setup.nodes| && i != setup.source
      modifies this
      ensures Valid() && groups == old(groups) && SameElsewhere(trees, old(trees), groups)
      ensures ok <==> setup.nodes[i].id in old(settings) || setup.nets == 0
      ensures settings == old(settings) - {setup.nodes[i].id}
      ensures !ok ==> trees == old(trees)
    {
      hide Sensible, Grouped, Device;
      var id := setup.nodes[i].id;
      ghost var before := settings;
      settings := settings - {id};
      ok := true;
      for net := 0 to setup.nets
        invariant ready && groups == old(groups) && settings == before - {id}
        invariant if net == 0 then trees == old(trees) else id in before
        invariant Halfway(setup, groups, trees, before, settings, net)
        invariant SameElsewhere(trees, old(trees), groups)
      {
        var dev := DeviceTo(setup, net, i);
        NodesDevice(setup, groups, net, i);
        FreedDevice(setup, groups[dev], before, i);
        var next := Execute(trees, DelChild(dev, id + 1, HandleOf(setup, i)));
        if next.None? {
          assert id !in before && before - {id} == before;
          HalfwayNone(setup, groups, trees, before, net);
          return false;
        }
        NextNet(setup, groups, trees, before, settings, net, i, Device(setup, groups[dev], settings));
        trees := next.value;
      }
      HalfwayDone(setup, groups, trees, before, settings);
    }

    /** Removes everything from the devices of the nodes. */
    method Reset()
      requires Valid()
      modifies this
      ensures forall dev :: dev in trees <==> dev in old(trees) && dev !in old(groups)
      ensures forall dev :: dev in trees ==> trees[dev] == old(trees)[dev]
    {
      var devices, order := GetNodesByDev(setup);
      GroupsUnique(setup, groups, devices);
      ghost var gone := groups.Keys;
      assert forall dev :: dev in gone <==> dev in order by {
        assert forall dev :: dev in gone <==> dev in devices.value.Keys;
      }
      for k := 0 to |order|
        invariant forall dev :: dev in trees <==> dev in old(trees) && dev !in order[..k]
        invariant forall dev :: dev in trees ==> trees[dev] == old(trees)[dev]
      {
        assert order[k] in order;
        trees := Execute(trees, DelRoot(order[k])).value;
      }
      assert order[..|order|] == order;
    }
  }

  lemma ChildSlowed(classes: set<nat>, settings: Settings, id: nat, netem: Netem, c: nat)
    requires id + 1 in classes
    ensures var a, b := Children(classes, settings[id := netem]), Children(classes, settings)[id + 1 := netem];
            (c in a <==> c in b) && (c in a ==> a[c] == b[c])
  {
  }

  lemma ChildrenSlowed(classes: set<nat>, settings: Settings, id: nat, netem: Netem)
    requires id + 1 in classes
    ensures Children(classes, settings[id := netem]) == Children(classes, settings)[id + 1 := netem]
  {
    hide Children;
    var a, b := Children(classes, settings[id := netem]), Children(classes, settings)[id + 1 := netem];
    forall c: nat
      ensures (c in a <==> c in b) && (c in a ==> a[c] == b[c])
    {
      ChildSlowed(classes, settings, id, netem, c);
    }
  }

  lemma ChildrenFreed(classes: set<nat>, settings: Settings, id: nat)
    requires id + 1 in classes
    ensures Children(classes, settings - {id}) == Children(classes, settings) - {id + 1}
  {
  }

  lemma SlowedDevice(s: Setup, g: Group, settings: Settings, i: nat, netem: Netem)
    requires Sensible(s) && g.net < s.nets && InRange(s, g.members) && i in g.members && i < |s.nodes|
    ensures var before := Device(s, g, settings);
            Device(s, g, settings[s.nodes[i].id := netem])
            == before.(children := before.children[s.nodes[i].id + 1 := netem])
            && before.bands == |s.nodes|
  {
    hide Children;
    ClassIn(s, g.members, i);
    ChildrenSlowed(Classes(s, g.members), settings, s.nodes[i].id, netem);
  }

  lemma FreedDevice(s: Setup, g: Group, settings: Settings, i: nat)
    requires Sensible(s) && g.net < s.nets && InRange(s, g.members) && i in g.members && i < |s.nodes|
    ensures var before := Device(s, g, settings);
            var id := s.nodes[i].id;
            Device(s, g, settings - {id}) == before.(children := before.children - {id + 1})
            && (id + 1 in before.children <==> id in settings)
            && (id in settings ==> before.children[id + 1] == settings[id])
  {
    hide Children;
    ClassIn(s, g.members, i);
    ChildOf(Classes(s, g.members), settings, s.nodes[i].id);
    ChildrenFreed(Classes(s, g.members), settings, s.nodes[i].id);
  }

  lemma HalfwayDone(s: Setup, groups: map<int, Group>, trees: Trees, before: Settings, after: Settings)
    requires Complete(s, groups) && Halfway(s, groups, trees, before, after, s.nets)
    ensures Configured(s, groups, trees, after)
  {
  }

  lemma HalfwayStart(s: Setup, groups: map<int, Group>, trees: Trees, before: Settings, after: Settings)
    requires Complete(s, groups) && Halfway(s, groups, trees, before, after, 0)
    ensures Configured(s, groups, trees, before)
  {
  }

  lemma HalfwayNone(s: Setup, groups: map<int, Group>, trees: Trees, settings: Settings, net: nat)
    requires Complete(s, groups) && Halfway(s, groups, trees, settings, settings, net)
    ensures Configured(s, groups, trees, settings)
  {
  }

  /** The grouping of a set-up is determined. */
  lemma GroupsUnique(s: Setup, groups: map<int, Group>, again: Option<map<int, Group>>)
    requires Complete(s, groups) && (again.None? <==> Conflict(s)) && (again.Some? ==> Complete(s, again.value))
    ensures again.Some? && again.value.Keys == groups.Keys
  {
    NoConflict(s, groups);
    GroupsWithin(s, groups, again.value);
    GroupsWithin(s, again.value, groups);
  }

  lemma GroupsWithin(s: Setup, a: map<int, Group>, b: map<int, Group>)
    requires Complete(s, a) && Complete(s, b)
    ensures a.Keys <= b.Keys
  {
    hide Sensible;
    forall dev | dev in a
      ensures dev in b
    {
      assert GroupOk(s, dev, a[dev], s.nets, 0);
      SomeMember(a[dev].members);
      var i: nat :| i in a[dev].members;
      assert Leads(s, a[dev].net, i, dev);
    }
  }

  // ---- every sequence of calls ----

  datatype Op = Slow(i: nat, speed: string, delay: string) | Remove(i: nat)

  /** What a node was last slowed down to and not freed from since, read backwards
      from the end of the calls. */
  function LastSetting(ops: seq<Op>, i: nat): Option<(string, string)> {
    if ops == [] then None
    else
      match ops[|ops| - 1]
      case Slow(j, speed, delay) => if j == i then Some((speed, delay)) else LastSetting(ops[..|ops| - 1], i)
      case Remove(j) => if j == i then None else LastSetting(ops[..|ops| - 1], i)
  }

  ghost predicate Reflects(s: Setup, settings: Settings, ops: seq<Op>)
    requires Sensible(s)
  {
    forall i: nat :: i < |s.nodes| && i != s.source ==>
      var id := s.nodes[i].id;
      (if id in settings then Some((settings[id].speed, settings[id].delay)) else None) == LastSetting(ops, i)
  }

  /** The speed and delay that a packet to node i on a net meets. */
  function Experience(s: Setup, trees: Trees, net: nat, i: nat): Option<(string, string)>
    requires Sensible(s) && net < s.nets && i < |s.nodes|
  {
    var netem := Shape(trees, DeviceTo(s, net, i), s.nodes[i].addrs[net]);
    if netem.Some? then Some((netem.value.speed, netem.value.delay)) else None
  }

  /** Every removal follows a setting that is still there, and only nodes that have a
      class are slowed down. */
  ghost predicate Orderly(s: Setup, ops: seq<Op>, k: nat)
    requires forall j :: 0 <= j < |ops| ==> ops[j].i < |s.nodes|
  {
    forall j :: 0 <= j < k && j < |ops| ==>
      if ops[j].Remove? then LastSetting(ops[..j], ops[j].i).Some? else HasClass(s, ops[j].i)
  }

  /** The calls succeed iff every removal follows a setting and every node that is slowed
      down has a class.  After any such sequence, addresses being distinct, a packet to
      any node on any net meets exactly that node's last setting. */
  method Drive(tc: TrafficControl, ops: seq<Op>) returns (ok: bool)
    requires tc.Valid() && tc.settings == map[]
    requires forall k :: 0 <= k < |ops| ==> ops[k].i < |tc.setup.nodes| && ops[k].i != tc.setup.source
    modifies tc
    ensures tc.Valid() && SameElsewhere(tc.trees, old(tc.trees), tc.groups)
    ensures ok <==> tc.setup.nets == 0 || Orderly(tc.setup, ops, |ops|)
    ensures ok && DistinctAddresses(tc.setup) ==>
              forall net: nat, i: nat :: net < tc.setup.nets && i < |tc.setup.nodes| && i != tc.setup.source ==>
                Experience(tc.setup, tc.trees, net, i) == LastSetting(ops, i)
  {
    hide Sensible, Grouped, Configured;
    ghost var s := tc.setup;
    for k := 0 to |ops|
      invariant tc.Valid() && tc.groups == old(tc.groups) && SameElsewhere(tc.trees, old(tc.trees), tc.groups)
      invariant Reflects(s, tc.settings, ops[..k])
      invariant s.nets == 0 || Orderly(s, ops, k)
    {
      ghost var before := tc.settings;
      match ops[k] {
        case Slow(i, speed, delay) =>
          ok := tc.SlowDown(i, speed, delay);
        case Remove(i) =>
          ok := tc.RemoveSlowDown(i);
      }
      if !ok {
        return;
      }
      ReflectsNext(s, before, tc.settings, ops, k);
    }
    assert ops[..|ops|] == ops;
    forall net: nat, i: nat | net < s.nets && i < |s.nodes| && i != s.source && DistinctAddresses(s)
      ensures Experience(s, tc.trees, net, i) == LastSetting(ops, i)
    {
      NodeShape(s, tc.groups, tc.trees, tc.settings, net, i);
    }
    return true;
  }

  lemma ReflectsNext(s: Setup, before: Settings, after: Settings, ops: seq<Op>, k: nat)
    requires Sensible(s) && k < |ops| && Reflects(s, before, ops[..k]) && ops[k].i < |s.nodes|
    requires var id := s.nodes[ops[k].i].id;
             after == match ops[k]
                      case Slow(i, speed, delay) => before[id := Netem(id + 100, speed, delay)]
                      case Remove(i) => before - {id}
    ensures Reflects(s, after, ops[..k + 1])
  {
    assert ops[..k + 1][..k] == ops[..k];
  }
}
