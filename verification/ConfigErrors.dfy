/** When `config()` raises: the pieces of state that must be formattable, written out. */
module ConfigErrors {
  import opened Wrappers
  import opened ConfigText
  import opened NodeConfig
  import opened Decimals

  // ---- statements and blocks ----

  predicate Formats(s: string) {
    Format(s).Some?
  }

  ghost predicate Writable(f: Forest) {
    FormatAll(f).Some?
  }

  lemma {:induction false} StatementsWritable(lines: seq<string>)
    ensures Writable(Statements(lines)) <==> forall i :: 0 <= i < |lines| ==> Formats(lines[i])
  {
    if lines != [] {
      var n := |lines| - 1;
      StatementsWritable(lines[..n]);
      FormatThen(Statements(lines[..n]), Line(lines[n], Nil));
      assert FormatAll(Nil) == Some(Nil);
      assert Writable(Line(lines[n], Nil)) <==> Formats(lines[n]);
      assert forall i :: 0 <= i < n ==> lines[..n][i] == lines[i];
    }
  }

  lemma {:induction false} BlocksWritable(es: seq<Entry>)
    ensures Writable(BlockList(es)) <==> forall i :: 0 <= i < |es| ==> Writable(es[i].1)
  {
    if es != [] {
      var n := |es| - 1;
      BlocksWritable(es[..n]);
      FormatThen(BlockList(es[..n]), Block(es[n]));
      assert FormatAll(Nil) == Some(Nil);
      assert Writable(Block(es[n])) <==> Writable(es[n].1);
      assert forall i :: 0 <= i < n ==> es[..n][i] == es[i];
    }
  }

  lemma PlainFormats(s: string)
    requires '%' !in s
    ensures Formats(s)
  {
    FormatPlain(s);
  }

  /** The texts that follow a piece of state in a statement. */
  lemma Tails()
    ensures Stops(";") && Stops("\";") && Stops(" address ") && Stops(":")
  {
    forall phase: Phase
      ensures Directive(phase, " address ") == None
    {
      assert " address "[1..] == "address ";
      assert Directive(Flags, "address ") == None;
    }
  }

  lemma LineWritable(p: string, s: string)
    requires '%' !in p
    ensures Formats(p + s + ";") <==> Formats(s)
  {
    Tails();
    FormatBetween(p, s, ";");
  }

  // ---- what must be formattable ----

  predicate WritableVolume(v: VolumeInfo) {
    v.disk.Some? ==> Formats(v.disk.value) && (v.meta.Some? ==> Formats(v.meta.value))
  }

  predicate WritablePath(n1: NodeInfo, a1: string, n2: NodeInfo, a2: string) {
    Formats(n1.name) && Formats(a1) && Formats(n2.name) && Formats(a2)
  }

  /** Names and addresses are written in the paths between two nodes only. */
  predicate WritablePaths(n1: NodeInfo, n2: NodeInfo) {
    forall k :: 0 <= k < Min(|n1.addrs|, |n2.addrs|) ==> WritablePath(n1, n1.addrs[k], n2, n2.addrs[k])
  }

  /** Every option text, every disk path and every name and address that is written can
      be formatted. */
  predicate WritableState(me: Own, r: ResourceInfo) {
    Formats(r.handlers) && Formats(r.resourceOptions) && Formats(r.diskOptions) && Formats(r.netOptions)
    && Formats(r.transport) && Formats(me.fencing)
    && (forall i, k :: 0 <= i < |r.nodes| && 0 <= k < |r.nodes[i].volumes| ==> WritableVolume(r.nodes[i].volumes[k]))
    && (forall i, j :: 0 <= i < j < |r.nodes| ==> WritablePaths(r.nodes[i], r.nodes[j]))
  }

  lemma VolumeWritable(position: nat, v: VolumeInfo)
    ensures Writable(VolumeEntry(position, v).1) <==> WritableVolume(v)
  {
    var lines := VolumeLines(v);
    StatementsWritable(lines);
    DeviceWritable(v);
    DiskWritable(v);
    TiebreakerWritable(v);
    assert lines[0] == DeviceLine(v) && lines[1] == DiskLine(v);
    if v.disk.Some? {
      MetaWritable(v);
      assert lines[2] == MetaLine(v);
    }
  }

  lemma DeviceWritable(v: VolumeInfo)
    ensures Formats(DeviceLine(v))
  {
    CleanDeviceLine(v);
    PlainFormats(DeviceLine(v));
  }

  lemma DiskWritable(v: VolumeInfo)
    ensures Formats(DiskLine(v)) <==> v.disk.Some? ==> Formats(v.disk.value)
  {
    LineWritable("disk ", if v.disk.Some? then v.disk.value else "none");
    PlainFormats("none");
  }

  lemma MetaWritable(v: VolumeInfo)
    ensures Formats(MetaLine(v)) <==> v.meta.Some? ==> Formats(v.meta.value)
  {
    LineWritable("meta-disk ", if v.meta.Some? then v.meta.value else "internal");
    PlainFormats("internal");
  }

  lemma TiebreakerWritable(v: VolumeInfo)
    ensures Formats(TiebreakerLine(v))
  {
    CleanTiebreakerLine(v);
    PlainFormats(TiebreakerLine(v));
  }

  lemma HostWritable(n: NodeInfo)
    ensures Writable(HostEntry(n).1) <==> forall k :: 0 <= k < |n.volumes| ==> WritableVolume(n.volumes[k])
  {
    hide VolumeEntry, WritableVolume, IdLine;
    var es := VolumeEntries(n.volumes);
    FormatThen(Statements([IdLine(n)]), BlockList(es));
    CleanId(n);
    IdWritable(n);
    StatementsWritable([IdLine(n)]);
    BlocksWritable(es);
    forall k | 0 <= k < |n.volumes|
      ensures Writable(es[k].1) <==> WritableVolume(n.volumes[k])
    {
      VolumeWritable(k, n.volumes[k]);
    }
  }

  lemma IdWritable(n: NodeInfo)
    ensures Formats(IdLine(n))
  {
    CleanId(n);
    assert CleanWord([IdLine(n)][0]);
    PlainFormats(IdLine(n));
  }

  lemma AddressWritable(n: NodeInfo, addr: string)
    ensures Formats(AddressLine(n, addr)) <==> Formats(n.name) && Formats(addr)
  {
    Tails();
    var tail := Dec(n.port) + ";";
    DecClean(n.port);
    assert AddressLine(n, addr) == "host " + (n.name + (" address " + (addr + (":" + tail))));
    FormatAfter("host ", n.name + (" address " + (addr + (":" + tail))));
    StopsLonger(" address ", addr + (":" + tail));
    FormatBefore(n.name, " address " + (addr + (":" + tail)));
    FormatAfter(" address ", addr + (":" + tail));
    StopsLonger(":", tail);
    FormatBefore(addr, ":" + tail);
    PlainFormats(":" + tail);
  }

  lemma StopsLonger(a: string, b: string)
    requires a == " address " || a == ":"
    ensures Stops(a + b)
  {
    assert a == " address " ==> (a + b)[1..][0] == 'a';
  }

  lemma PathWritable(n1: NodeInfo, a1: string, n2: NodeInfo, a2: string)
    ensures Writable(PathEntry(n1, a1, n2, a2).1) <==> WritablePath(n1, a1, n2, a2)
  {
    hide AddressLine;
    var lines := [AddressLine(n1, a1), AddressLine(n2, a2)];
    StatementsWritable(lines);
    AddressWritable(n1, a1);
    AddressWritable(n2, a2);
    assert lines[0] == AddressLine(n1, a1) && lines[1] == AddressLine(n2, a2);
  }

  lemma ConnectionWritable(n1: NodeInfo, n2: NodeInfo)
    ensures Writable(ConnectionEntry(n1, n2).1) <==> WritablePaths(n1, n2)
  {
    hide PathEntry, BlockList, Writable, WritablePath;
    var paths := PathEntries(n1, n2);
    var es := [("net", Nil)] + paths;
    BlocksWritable(es);
    NothingWritable();
    forall k | 0 <= k < |paths|
      ensures Writable(paths[k].1) <==> WritablePath(n1, n1.addrs[k], n2, n2.addrs[k])
    {
      PathWritable(n1, n1.addrs[k], n2, n2.addrs[k]);
    }
    HeadAndTail(("net", Nil), paths);
    if forall k :: 0 <= k < |paths| ==> Writable(paths[k].1) {
      forall k | 0 <= k < Min(|n1.addrs|, |n2.addrs|)
        ensures WritablePath(n1, n1.addrs[k], n2, n2.addrs[k])
      {
        assert Writable(paths[k].1);
      }
    }
  }

  lemma NothingWritable()
    ensures Writable(Nil)
  {
  }

  lemma HeadAndTail(e: Entry, es: seq<Entry>)
    ensures (forall i :: 0 <= i < |[e] + es| ==> Writable(([e] + es)[i].1))
            <==> Writable(e.1) && forall k :: 0 <= k < |es| ==> Writable(es[k].1)
  {
    hide Writable;
    assert ([e] + es)[0] == e;
    assert forall k :: 0 <= k < |es| ==> es[k] == ([e] + es)[k + 1];
  }

  lemma LastDecides(lines: seq<string>, last: string)
    requires forall i :: 0 <= i < |lines| ==> Formats(lines[i])
    ensures Writable(Statements(lines + [last])) <==> Formats(last)
  {
    StatementsWritable(lines + [last]);
    assert (lines + [last])[|lines|] == last;
  }

  lemma DiskEntryWritable(me: Own, r: ResourceInfo)
    ensures Writable(DiskEntry(me, r).1) <==> Formats(r.diskOptions)
  {
    hide Workaround, Statements, Writable, Formats;
    var first := ["disk-flushes no;", "md-flushes no;"] + When(Workaround(me, r), "c-min-rate 0;");
    PlainFormats("disk-flushes no;");
    PlainFormats("md-flushes no;");
    PlainFormats("c-min-rate 0;");
    LastDecides(first, r.diskOptions);
  }

  lemma NetPieces(me: Own, r: ResourceInfo)
    ensures Formats(TransportLine(r)) <==> Formats(r.transport)
    ensures r.tls == "yes" ==> Formats(TlsLine(r))
    ensures Formats(FencingLine(me)) <==> Formats(me.fencing)
  {
    Tails();
    FormatBetween("transport \"", r.transport, "\";");
    LineWritable("fencing ", me.fencing);
    LineWritable("tls ", r.tls);
    PlainFormats("yes");
  }

  /** Optional statements before the options of the net block. */
  lemma NetEntryWritable(me: Own, r: ResourceInfo)
    ensures Writable(NetEntry(me, r).1) <==> Formats(r.transport) && Formats(me.fencing) && Formats(r.netOptions)
  {
    hide TransportLine, TlsLine, FencingLine;
    var lines := NetLines(me, r);
    StatementsWritable(lines);
    NetPieces(me, r);
    PlainFormats("");
    assert lines[|lines| - 1] == r.netOptions;
    assert r.transport != "" ==> lines[0] == TransportLine(r);
    assert me.fencing != "" ==> lines[|lines| - 2] == FencingLine(me);
  }

  lemma OneStatement(line: string)
    ensures Writable(Statements([line])) <==> Formats(line)
  {
    StatementsWritable([line]);
    assert [line][0] == line;
  }

  lemma FixedWritable(me: Own, r: ResourceInfo)
    ensures (forall i :: 0 <= i < 5 ==> Writable(FixedEntries(me, r)[i].1))
            <==> Formats(r.handlers) && Formats(r.resourceOptions) && Formats(r.diskOptions) && Formats(r.netOptions)
                 && Formats(r.transport) && Formats(me.fencing)
  {
    hide DiskEntry, NetEntry;
    OneStatement(r.handlers);
    OneStatement(r.resourceOptions);
    DiskEntryWritable(me, r);
    NetEntryWritable(me, r);
    var es := FixedEntries(me, r);
    assert es[0] == HandlersEntry(r) && es[1] == OptionsEntry(r) && es[2] == DiskEntry(me, r);
    assert es[3] == NetEntry(me, r) && es[4] == ProxyEntry();
  }

  lemma HostsWritable(ns: seq<NodeInfo>)
    ensures (forall i :: 0 <= i < |ns| ==> Writable(HostEntries(ns)[i].1))
            <==> forall i, k :: 0 <= i < |ns| && 0 <= k < |ns[i].volumes| ==> WritableVolume(ns[i].volumes[k])
  {
    hide HostEntry, WritableVolume;
    forall i | 0 <= i < |ns|
      ensures Writable(HostEntries(ns)[i].1)
              <==> forall k :: 0 <= k < |ns[i].volumes| ==> WritableVolume(ns[i].volumes[k])
    {
      HostWritable(ns[i]);
    }
  }

  lemma ConnectionsWritable(ns: seq<NodeInfo>)
    ensures var es := ConnectionEntries(ns, NodePairs(|ns|, |ns|));
            (forall k :: 0 <= k < |es| ==> Writable(es[k].1))
            <==> forall i, j :: 0 <= i < j < |ns| ==> WritablePaths(ns[i], ns[j])
  {
    hide ConnectionEntry, WritablePaths;
    var ps := NodePairs(|ns|, |ns|);
    var es := ConnectionEntries(ns, ps);
    forall k | 0 <= k < |ps|
      ensures ps[k].0 < ps[k].1 < |ns| && (Writable(es[k].1) <==> WritablePaths(ns[ps[k].0], ns[ps[k].1]))
    {
      PairsExact(|ns|, |ns|, ps[k]);
      ConnectionWritable(ns[ps[k].0], ns[ps[k].1]);
    }
    if forall k :: 0 <= k < |es| ==> Writable(es[k].1) {
      forall i, j | 0 <= i < j < |ns|
        ensures WritablePaths(ns[i], ns[j])
      {
        PairsExact(|ns|, |ns|, (i, j));
        var k :| 0 <= k < |ps| && ps[k] == (i, j);
        assert Writable(es[k].1);
      }
    }
  }

  lemma ThreeParts(a: seq<Entry>, b: seq<Entry>, c: seq<Entry>)
    ensures Writable(BlockList(a + b + c))
            <==> (forall i :: 0 <= i < |a| ==> Writable(a[i].1))
                 && (forall i :: 0 <= i < |b| ==> Writable(b[i].1))
                 && (forall i :: 0 <= i < |c| ==> Writable(c[i].1))
  {
    hide Writable;
    BlocksWritable(a + b + c);
    var es := a + b + c;
    assert forall i :: 0 <= i < |a| ==> es[i] == a[i];
    assert forall i :: 0 <= i < |b| ==> es[|a| + i] == b[i];
    assert forall i :: 0 <= i < |c| ==> es[|a| + |b| + i] == c[i];
    assert forall i :: 0 <= i < |es| ==>
        es[i] == if i < |a| then a[i] else if i < |a| + |b| then b[i - |a|] else c[i - |a| - |b|];
  }

  /** `config()` raises exactly when some piece of state that it writes cannot be
      formatted. */
  lemma ConfigRaisesIff(me: Own, r: ResourceInfo)
    ensures Config(me, r).None? <==> !WritableState(me, r)
  {
    hide FixedEntries, HostEntries, ConnectionEntries, WritableVolume, WritablePaths;
    var c := ConnectionEntries(r.nodes, NodePairs(|r.nodes|, |r.nodes|));
    ThreeParts(FixedEntries(me, r), HostEntries(r.nodes), c);
    FixedLength(me, r);
    FixedWritable(me, r);
    HostsWritable(r.nodes);
    ConnectionsWritable(r.nodes);
    HostsLength(r.nodes);
    BlockWritable(("resource " + r.name, BlockList(ResourceEntries(me, r))));
  }

  lemma BlockWritable(e: Entry)
    ensures Writable(Block(e)) <==> Writable(e.1)
  {
    assert FormatAll(Nil) == Some(Nil);
    assert FormatAll(Sub(e.0, e.1, Nil)).Some? <==> FormatAll(e.1).Some?;
  }

  lemma FixedLength(me: Own, r: ResourceInfo)
    ensures |FixedEntries(me, r)| == 5
  {
  }

  lemma HostsLength(ns: seq<NodeInfo>)
    ensures |HostEntries(ns)| == |ns|
  {
  }

  /** An option that a test might set. */
  lemma PercentOptionRaises(me: Own, r: ResourceInfo)
    requires r.netOptions == "ping-timeout 50%;"
    ensures Config(me, r) == None
  {
    hide WritableVolume, WritablePaths, Config, Format;
    ConfigRaisesIff(me, r);
    FormatExamples();
    FormatAfter("ping-timeout ", "50%;");
    assert "ping-timeout " + "50%;" == "ping-timeout 50%;";
  }
}
