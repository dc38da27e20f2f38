/** A configuration with one more volume or node is longer, whatever names and options
    it holds, and so it differs from the one before. */
module ConfigSizes {
  import opened Wrappers
  import opened ConfigText
  import opened NodeConfig
  import opened ConfigErrors

  ghost function Length(f: Forest, len: nat): nat
    requires len >= 1
  {
    if Writable(f) then |Print(FormatAll(f).value, len)| else 0
  }

  lemma LengthThen(f: Forest, g: Forest, len: nat)
    requires len >= 1 && Writable(f.Then(g))
    ensures Writable(f) && Writable(g) && Length(f.Then(g), len) == Length(f, len) + Length(g, len)
  {
    FormatThen(f, g);
    PrintThen(FormatAll(f).value, FormatAll(g).value, len);
  }

  lemma BlockLength(e: Entry, len: nat)
    requires len >= 1 && Writable(Block(e))
    ensures Writable(e.1) && Length(Block(e), len) == |Header(e.0, len)| + Length(e.1, len + 1) + |Footer(len)|
  {
    assert FormatAll(Nil) == Some(Nil) && Print(Nil, len) == "";
    assert FormatAll(Block(e)).value == Sub(e.0, FormatAll(e.1).value, Nil);
  }

  /** The lengths of blocks one after the other. */
  ghost function Sum(es: seq<Entry>, len: nat): nat
    requires len >= 1
  {
    if es == [] then 0 else Sum(es[..|es| - 1], len) + Length(Block(es[|es| - 1]), len)
  }

  ghost predicate AllWrite(es: seq<Entry>) {
    forall i :: 0 <= i < |es| ==> Writable(Block(es[i]))
  }

  lemma {:induction false} ListLength(es: seq<Entry>, len: nat)
    requires len >= 1 && Writable(BlockList(es))
    ensures AllWrite(es) && Length(BlockList(es), len) == Sum(es, len)
  {
    hide Writable, Length;
    if es == [] {
      NoLength(len);
    } else {
      var n := |es| - 1;
      LengthThen(BlockList(es[..n]), Block(es[n]), len);
      ListLength(es[..n], len);
      assert forall i :: 0 <= i < n ==> es[..n][i] == es[i];
    }
  }

  lemma NoLength(len: nat)
    requires len >= 1
    ensures Length(Nil, len) == 0
  {
  }

  lemma {:induction false} SumConcat(a: seq<Entry>, b: seq<Entry>, len: nat)
    requires len >= 1
    ensures Sum(a + b, len) == Sum(a, len) + Sum(b, len)
  {
    hide Length;
    if b == [] {
      assert a + b == a;
    } else {
      var n := |b| - 1;
      assert (a + b)[..|a + b| - 1] == a + b[..n];
      SumConcat(a, b[..n], len);
    }
  }

  /** One block of several replaced by a longer one. */
  lemma SumReplaced(es: seq<Entry>, i: nat, e: Entry, len: nat)
    requires len >= 1 && i < |es|
    ensures Sum(es[i := e], len) == Sum(es, len) - Length(Block(es[i]), len) + Length(Block(e), len)
  {
    hide Length;
    var a, b := es[..i], es[i + 1..];
    assert es == a + [es[i]] + b && es[i := e] == a + [e] + b;
    SumConcat(a, [es[i]], len);
    SumConcat(a + [es[i]], b, len);
    SumConcat(a, [e], len);
    SumConcat(a + [e], b, len);
    SumOne(es[i], len);
    SumOne(e, len);
  }

  lemma SumOne(e: Entry, len: nat)
    requires len >= 1
    ensures Sum([e], len) == Length(Block(e), len)
  {
    hide Length;
    assert [e][..0] == [];
    assert Sum([], len) == 0;
  }

  /** The length of a whole configuration. */
  lemma ConfigLength(me: Own, r: ResourceInfo)
    requires Config(me, r).Some?
    ensures var c := ConnectionEntries(r.nodes, NodePairs(|r.nodes|, |r.nodes|));
            AllWrite(HostEntries(r.nodes)) && AllWrite(c)
            && |Config(me, r).value|
               == |Header("resource " + r.name, 1)| + Sum(FixedEntries(me, r), 2) + Sum(HostEntries(r.nodes), 2) + Sum(c, 2)
                  + |Footer(1)|
  {
    hide FixedEntries, HostEntries, ConnectionEntries, Length, Sum, Writable, NodePairs;
    var a, b := FixedEntries(me, r), HostEntries(r.nodes);
    var c := ConnectionEntries(r.nodes, NodePairs(|r.nodes|, |r.nodes|));
    TreeLength(me, r);
    BlockLength(("resource " + r.name, BlockList(a + b + c)), 1);
    ListLength(a + b + c, 2);
    SumConcat(a, b, 2);
    SumConcat(a + b, c, 2);
    AllWriteParts(a, b, c);
  }

  lemma TreeLength(me: Own, r: ResourceInfo)
    requires Config(me, r).Some?
    ensures Writable(Tree(me, r)) && |Config(me, r).value| == Length(Tree(me, r), 1)
  {
  }

  lemma AllWriteParts(a: seq<Entry>, b: seq<Entry>, c: seq<Entry>)
    requires AllWrite(a + b + c)
    ensures AllWrite(a) && AllWrite(b) && AllWrite(c)
  {
    hide Writable;
    var es := a + b + c;
    assert forall i :: 0 <= i < |a| ==> es[i] == a[i];
    assert forall i :: 0 <= i < |b| ==> es[|a| + i] == b[i];
    assert forall i :: 0 <= i < |c| ==> es[|a| + |b| + i] == c[i];
  }

  lemma HostLength(n: NodeInfo)
    requires Writable(Block(HostEntry(n)))
    ensures AllWrite(VolumeEntries(n.volumes))
    ensures Length(Block(HostEntry(n)), 2)
            == |Header("on " + n.hostname, 2)| + Length(Statements([IdLine(n)]), 3) + Sum(VolumeEntries(n.volumes), 3)
               + |Footer(2)|
  {
    hide Length, Sum, Writable, VolumeEntries, Statements;
    BlockLength(HostEntry(n), 2);
    LengthThen(Statements([IdLine(n)]), BlockList(VolumeEntries(n.volumes)), 3);
    ListLength(VolumeEntries(n.volumes), 3);
  }

  lemma {:induction false} SumPositive(es: seq<Entry>, len: nat)
    requires len >= 1 && AllWrite(es) && es != []
    ensures Sum(es, len) > 0
  {
    hide Length;
    var n := |es| - 1;
    BlockLength(es[n], len);
    FooterLength(len);
  }

  lemma FooterLength(len: nat)
    ensures |Footer(len)| > 0
  {
  }

  /** More volumes make a host's block longer. */
  lemma MoreVolumes(n: NodeInfo, m: NodeInfo)
    requires n.(volumes := []) == m.(volumes := [])
    requires |n.volumes| < |m.volumes| && m.volumes[..|n.volumes|] == n.volumes
    requires Writable(Block(HostEntry(n))) && Writable(Block(HostEntry(m)))
    ensures Length(Block(HostEntry(n)), 2) < Length(Block(HostEntry(m)), 2)
  {
    hide Length, Sum, Writable, VolumeEntry, Statements;
    HostLength(n);
    HostLength(m);
    var k := |n.volumes|;
    var es, fs := VolumeEntries(n.volumes), VolumeEntries(m.volumes);
    VolumesPrefix(n.volumes, m.volumes);
    assert fs == es + fs[k..];
    SumConcat(es, fs[k..], 3);
    assert AllWrite(fs[k..]) by {
      assert forall j :: 0 <= j < |fs| - k ==> fs[k..][j] == fs[k + j];
    }
    SumPositive(fs[k..], 3);
  }

  lemma VolumesPrefix(vs: seq<VolumeInfo>, ws: seq<VolumeInfo>)
    requires |vs| <= |ws| && ws[..|vs|] == vs
    ensures VolumeEntries(ws)[..|vs|] == VolumeEntries(vs)
  {
    hide VolumeEntry;
    assert forall k :: 0 <= k < |vs| ==> ws[..|vs|][k] == ws[k];
  }

  /** A node that gets or loses volumes changes every member's configuration, unless
      one of the two cannot be written. */
  lemma VolumesChangeText(me: Own, r: ResourceInfo, r': ResourceInfo, i: nat)
    requires i < |r.nodes| && |r'.nodes| == |r.nodes| && r' == r.(nodes := r.nodes[i := r'.nodes[i]])
    requires var n, m := r.nodes[i], r'.nodes[i];
             n.(volumes := []) == m.(volumes := []) && |n.volumes| < |m.volumes| && m.volumes[..|n.volumes|] == n.volumes
    requires Config(me, r).Some? && Config(me, r').Some?
    ensures Config(me, r) != Config(me, r')
  {
    hide Config, FixedEntries, Length, Sum, HostEntry, NodePairs;
    var n, m := r.nodes[i], r'.nodes[i];
    ConfigLength(me, r);
    ConfigLength(me, r');
    SameFixed(me, r, r');
    assert HostEntries(r'.nodes) == HostEntries(r.nodes)[i := HostEntry(m)];
    assert HostEntries(r.nodes)[i] == HostEntry(n) && HostEntries(r'.nodes)[i] == HostEntry(m);
    SumReplaced(HostEntries(r.nodes), i, HostEntry(m), 2);
    MoreVolumes(n, m);
    SameConnections(r.nodes, r'.nodes);
  }

  lemma SameConnections(ns: seq<NodeInfo>, ms: seq<NodeInfo>)
    requires |ns| == |ms| && forall k :: 0 <= k < |ns| ==> ns[k].(volumes := []) == ms[k].(volumes := [])
    ensures ConnectionEntries(ns, NodePairs(|ns|, |ns|)) == ConnectionEntries(ms, NodePairs(|ns|, |ns|))
  {
    hide ConnectionEntry;
    var ps := NodePairs(|ns|, |ns|);
    forall k | 0 <= k < |ps|
      ensures PairEntry(ns, ps[k]) == PairEntry(ms, ps[k])
    {
      if ps[k].0 < |ns| && ps[k].1 < |ns| {
        SameConnection(ns[ps[k].0], ns[ps[k].1], ms[ps[k].0], ms[ps[k].1]);
      }
    }
  }

  // ---- one more node ----

  lemma EntriesConcat(ns: seq<NodeInfo>, ps: seq<(nat, nat)>, qs: seq<(nat, nat)>)
    ensures ConnectionEntries(ns, ps + qs) == ConnectionEntries(ns, ps) + ConnectionEntries(ns, qs)
  {
    hide PairEntry;
  }

  lemma EntriesKept(ns: seq<NodeInfo>, m: NodeInfo, ps: seq<(nat, nat)>)
    requires forall k :: 0 <= k < |ps| ==> ps[k].0 < |ns| && ps[k].1 < |ns|
    ensures ConnectionEntries(ns + [m], ps) == ConnectionEntries(ns, ps)
  {
    hide ConnectionEntry;
  }

  /** The connections of the first rows, with one more node at the end. */
  lemma {:induction false} RowsGrow(ns: seq<NodeInfo>, m: NodeInfo, i: nat, len: nat)
    requires len >= 1 && i <= |ns|
    ensures Sum(ConnectionEntries(ns, NodePairs(i, |ns|)), len)
            <= Sum(ConnectionEntries(ns + [m], NodePairs(i, |ns| + 1)), len)
  {
    hide ConnectionEntries, Sum, RowOfPairs;
    if i == 0 {
      NoConnections(ns, m, len);
    } else {
      var n := |ns|;
      RowsGrow(ns, m, i - 1, len);
      EntriesConcat(ns, NodePairs(i - 1, n), RowOfPairs(i - 1, n));
      EntriesConcat(ns + [m], NodePairs(i - 1, n + 1), RowOfPairs(i - 1, n + 1));
      SumConcat(ConnectionEntries(ns, NodePairs(i - 1, n)), ConnectionEntries(ns, RowOfPairs(i - 1, n)), len);
      SumConcat(ConnectionEntries(ns + [m], NodePairs(i - 1, n + 1)),
                ConnectionEntries(ns + [m], RowOfPairs(i - 1, n + 1)), len);
      RowGrows(ns, m, i - 1, len);
    }
  }

  lemma NoConnections(ns: seq<NodeInfo>, m: NodeInfo, len: nat)
    requires len >= 1
    ensures Sum(ConnectionEntries(ns, NodePairs(0, |ns|)), len) == 0
    ensures Sum(ConnectionEntries(ns + [m], NodePairs(0, |ns| + 1)), len) == 0
  {
  }

  lemma RowGrows(ns: seq<NodeInfo>, m: NodeInfo, i: nat, len: nat)
    requires len >= 1 && i < |ns|
    ensures Sum(ConnectionEntries(ns, RowOfPairs(i, |ns|)), len)
            <= Sum(ConnectionEntries(ns + [m], RowOfPairs(i, |ns| + 1)), len)
  {
    hide ConnectionEntries, Sum;
    var n := |ns|;
    var ps := RowOfPairs(i, n);
    assert RowOfPairs(i, n + 1) == ps + [(i, n)];
    forall k | 0 <= k < |ps|
      ensures ps[k].0 < n && ps[k].1 < n
    {
      RowExact(i, n, ps[k]);
    }
    EntriesConcat(ns + [m], ps, [(i, n)]);
    EntriesKept(ns, m, ps);
    SumConcat(ConnectionEntries(ns + [m], ps), ConnectionEntries(ns + [m], [(i, n)]), len);
  }

  /** A node more changes every member's configuration. */
  lemma NodeChangesText(me: Own, r: ResourceInfo, r': ResourceInfo, m: NodeInfo)
    requires r' == r.(nodes := r.nodes + [m])
    requires Config(me, r).Some? && Config(me, r').Some?
    ensures Config(me, r) != Config(me, r')
  {
    hide Config, FixedEntries, Length, Sum, HostEntry, ConnectionEntries;
    var ns := r.nodes;
    ConfigLength(me, r);
    ConfigLength(me, r');
    SameFixed(me, r, r');
    assert HostEntries(ns + [m]) == HostEntries(ns) + [HostEntry(m)];
    SumConcat(HostEntries(ns), [HostEntry(m)], 2);
    assert HostEntries(ns + [m])[|ns|] == HostEntry(m);
    assert AllWrite([HostEntry(m)]);
    SumPositive([HostEntry(m)], 2);
    RowsGrow(ns, m, |ns|, 2);
    assert RowOfPairs(|ns|, |ns| + 1) == [];
    assert NodePairs(|ns| + 1, |ns| + 1) == NodePairs(|ns|, |ns| + 1) + [];
    assert NodePairs(|ns|, |ns| + 1) + [] == NodePairs(|ns|, |ns| + 1);
  }
}
