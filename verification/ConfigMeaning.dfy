/** What a reader finds in a configuration file, in terms of the settings that it was
    written for. */
module ConfigMeaning {
  import opened Wrappers
  import opened Decimals
  import opened ConfigText
  import opened NodeConfig

  // ---- statements ----

  /** A number in a line. */
  ghost predicate SaysNumber(line: string, before: string, n: nat, after: string) {
    exists d: string :: IsNumber(d, n) && line == before + d + after
  }

  ghost predicate IsNumber(d: string, n: nat) {
    IsDecimal(d) && Value(d) == n
  }

  /** An option text, as the reader keeps it: without leading blanks, and dropped when it is
      blank. */
  function Given(value: string): seq<string> {
    if Trim(value) == [] then [] else [Trim(value)]
  }

  /** A block with statements only. */
  ghost predicate Says(b: Entry, name: string, texts: seq<string>) {
    b.0 == name && Texts(b.1) == texts && Blocks(b.1) == []
  }

  ghost predicate HasText(needle: string, s: string) {
    exists a, b :: s == a + needle + b
  }

  /** The disk block; the workaround is for one release, and only where the options do not
      speak of the rate. */
  ghost predicate DiskSays(b: Entry, me: Own, r: ResourceInfo) {
    var workaround := me.osId == "ubuntu" && me.osVersion == "18.04" && !HasText("c-min-rate", r.diskOptions);
    Says(b, "disk",
         ["disk-flushes no;", "md-flushes no;"] + (if workaround then ["c-min-rate 0;"] else []) + Given(r.diskOptions))
  }

  ghost predicate NetSays(b: Entry, me: Own, r: ResourceInfo) {
    Says(b, "net",
         (if r.transport != "" then ["transport \"" + r.transport + "\";"] else [])
         + (if r.tls == "yes" then ["tls yes;"] else [])
         + (if me.fencing != "" then ["fencing " + me.fencing + ";"] else [])
         + Given(r.netOptions))
  }

  /** The statements on one volume. */
  ghost predicate VolumeTexts(ts: seq<string>, v: VolumeInfo) {
    |ts| == 2 + (if v.disk.Some? then 1 else 0) + (if v.tiebreaker.Some? then 1 else 0)
    && SaysNumber(ts[0], "device /dev/drbd", v.minor, ";")
    && ts[1] == "disk " + (if v.disk.Some? then v.disk.value else "none") + ";"
    && (v.disk.Some? ==> ts[2] == "meta-disk " + (if v.meta.Some? then v.meta.value else "internal") + ";")
    && ("tiebreaker yes;" in ts <==> v.tiebreaker == Some(true))
    && ("tiebreaker no;" in ts <==> v.tiebreaker == Some(false))
  }

  ghost predicate VolumeSays(b: Entry, position: nat, v: VolumeInfo) {
    SaysNumber(b.0, "volume ", position, "") && VolumeTexts(Texts(b.1), v) && Blocks(b.1) == []
  }

  /** A host: its node's id, and one block for each volume in order. */
  ghost predicate HostSays(b: Entry, n: NodeInfo) {
    b.0 == "on " + n.hostname
    && |Texts(b.1)| == 1 && SaysNumber(Texts(b.1)[0], "node-id ", n.id, ";")
    && |Blocks(b.1)| == |n.volumes|
    && forall k :: 0 <= k < |n.volumes| ==> VolumeSays(Blocks(b.1)[k], k, n.volumes[k])
  }

  /** One end of a path: the node's name, its address with this number, and its port. */
  ghost predicate EndSays(line: string, n: NodeInfo, k: nat)
    requires k < |n.addrs|
  {
    SaysNumber(line, "host " + n.name + " address " + n.addrs[k] + ":", n.port, ";")
  }

  ghost predicate PathSays(b: Entry, m: NodeInfo, n: NodeInfo, k: nat)
    requires k < |m.addrs| && k < |n.addrs|
  {
    b.0 == "path" && |Texts(b.1)| == 2 && EndSays(Texts(b.1)[0], m, k) && EndSays(Texts(b.1)[1], n, k) && Blocks(b.1) == []
  }

  /** A connection: an empty net block and one path for each pair of addresses. */
  ghost predicate ConnectionSays(b: Entry, m: NodeInfo, n: NodeInfo) {
    var bs, paths := Blocks(b.1), if |m.addrs| <= |n.addrs| then |m.addrs| else |n.addrs|;
    b.0 == "connection" && Texts(b.1) == [] && |bs| == 1 + paths && Says(bs[0], "net", [])
    && forall k :: 0 <= k < paths ==> PathSays(bs[1..][k], m, n, k)
  }

  /** Each pair of nodes once, in order. */
  ghost predicate AllPairs(ps: seq<(nat, nat)>, n: nat) {
    (forall a, b :: 0 <= a < b < |ps| ==> ps[a].0 < ps[b].0 || (ps[a].0 == ps[b].0 && ps[a].1 < ps[b].1))
    && forall i: nat, j: nat :: (i, j) in ps <==> i < j < n
  }

  ghost predicate PairSays(b: Entry, nodes: seq<NodeInfo>, p: (nat, nat)) {
    p.0 < |nodes| && p.1 < |nodes| && ConnectionSays(b, nodes[p.0], nodes[p.1])
  }

  ghost predicate ConnectionsSay(bs: seq<Entry>, nodes: seq<NodeInfo>) {
    exists ps :: AllPairs(ps, |nodes|) && |bs| == |ps| && forall a :: 0 <= a < |ps| ==> PairSays(bs[a], nodes, ps[a])
  }

  /** The whole file. */
  ghost predicate ResourceSays(f: Forest, me: Own, r: ResourceInfo) {
    f.Sub? && f.rest == Nil && f.name == "resource " + r.name && Texts(f.body) == []
    && var bs, n := Blocks(f.body), |r.nodes|;
       |bs| >= 5 + n
       && Says(bs[0], "handlers", Given(r.handlers)) && Says(bs[1], "options", Given(r.resourceOptions))
       && DiskSays(bs[2], me, r) && NetSays(bs[3], me, r) && Says(bs[4], "proxy", [])
       && (forall i :: 0 <= i < n ==> HostSays(bs[5 + i], r.nodes[i]))
       && ConnectionsSay(bs[5 + n..], r.nodes)
  }

  // ---- what is written is what is read ----

  /** Statements as the reader keeps them. */
  function Kept(lines: seq<string>): seq<string> {
    if lines == [] then [] else Kept(lines[..|lines| - 1]) + Given(lines[|lines| - 1])
  }

  lemma {:induction false} StatementsRead(name: string, lines: seq<string>)
    ensures Says(NormEntry((name, Statements(lines))), name, Kept(lines))
  {
    StatementsNoBlocks(lines);
    if lines != [] {
      var n := |lines| - 1;
      StatementsRead(name, lines[..n]);
      TextsThen(Statements(lines[..n]), Line(lines[n], Nil));
      LineRead(lines[n]);
    }
  }

  lemma LineRead(line: string)
    ensures Texts(Norm(Line(line, Nil))) == Given(line)
  {
    assert Norm(Nil) == Nil && Texts(Nil) == [];
    if Trim(line) != [] {
      assert Norm(Line(line, Nil)) == Line(Trim(line), Nil);
      assert Texts(Line(Trim(line), Nil)) == [Trim(line)] + Texts(Nil);
    }
  }

  lemma {:induction false} KeptThen(a: seq<string>, b: seq<string>)
    ensures Kept(a + b) == Kept(a) + Kept(b)
  {
    if b == [] {
      assert a + b == a;
    } else {
      var n := |b| - 1;
      assert (a + b)[..|a + b| - 1] == a + b[..n];
      KeptThen(a, b[..n]);
    }
  }

  lemma KeptOne(line: string)
    ensures Kept([line]) == Given(line)
  {
    assert [line][..0] == [];
  }

  lemma KeptDark(line: string)
    requires StartsDark(line)
    ensures Kept([line]) == [line] && Given(line) == [line]
  {
    KeptOne(line);
    assert Trim(line) == line;
  }

  lemma {:induction false} AllKept(lines: seq<string>)
    requires forall i :: 0 <= i < |lines| ==> StartsDark(lines[i])
    ensures Kept(lines) == lines
  {
    hide Trim, Given, StartsDark;
    if lines != [] {
      var n := |lines| - 1;
      AllKept(lines[..n]);
      KeptDark(lines[n]);
      assert lines == lines[..n] + [lines[n]];
    }
  }

  lemma WrittenNumber(n: nat)
    ensures IsNumber(Dec(n), n)
  {
    DecRead(n);
  }

  lemma VolumeLinesSay(v: VolumeInfo)
    ensures VolumeTexts(VolumeLines(v), v) && forall i :: 0 <= i < |VolumeLines(v)| ==> StartsDark(VolumeLines(v)[i])
  {
    hide Dec, Value;
    var ts := VolumeLines(v);
    WrittenNumber(v.minor);
    assert ts[0] == "device /dev/drbd" + Dec(v.minor) + ";";
    assert ts[1] == DiskLine(v) && (v.disk.Some? ==> ts[2] == MetaLine(v));
    LinesStart(v);
    TiebreakerSays(v);
  }

  lemma LinesStart(v: VolumeInfo)
    ensures var ts := VolumeLines(v);
            |ts| >= 2 && forall i :: 0 <= i < |ts| ==>
              StartsDark(ts[i]) && (ts[i][0] == 't' <==> v.tiebreaker.Some? && i == |ts| - 1)
    ensures v.tiebreaker.Some? ==> VolumeLines(v)[|VolumeLines(v)| - 1] == TiebreakerLine(v)
  {
    hide Dec;
    LineStarts(v);
  }

  lemma TiebreakerSays(v: VolumeInfo)
    ensures "tiebreaker yes;" in VolumeLines(v) <==> v.tiebreaker == Some(true)
    ensures "tiebreaker no;" in VolumeLines(v) <==> v.tiebreaker == Some(false)
  {
    hide VolumeLines;
    var ts := VolumeLines(v);
    LinesStart(v);
    YesOrNo();
    assert TiebreakerLine(v) == if v.tiebreaker == Some(true) then "tiebreaker yes;" else "tiebreaker no;";
    forall i | 0 <= i < |ts| && (ts[i] == "tiebreaker yes;" || ts[i] == "tiebreaker no;")
      ensures v.tiebreaker.Some? && ts[i] == TiebreakerLine(v)
    {
      assert ts[i][0] == 't';
    }
    if v.tiebreaker.Some? {
      assert TiebreakerLine(v) in ts;
      OneOfTwo(v.tiebreaker);
    }
  }

  lemma OneOfTwo(answer: Option<bool>)
    requires answer.Some?
    ensures answer == Some(true) || answer == Some(false)
    ensures !(answer == Some(true) && answer == Some(false))
  {
    if answer.value {
      assert answer == Some(true);
    } else {
      assert answer == Some(false);
    }
  }

  lemma YesOrNo()
    ensures "tiebreaker " + "yes" + ";" == "tiebreaker yes;" && "tiebreaker " + "no" + ";" == "tiebreaker no;"
    ensures "tiebreaker yes;" != "tiebreaker no;" && "tiebreaker yes;"[0] == 't' && "tiebreaker no;"[0] == 't'
  {
    assert |"tiebreaker yes;"| == 15 && |"tiebreaker no;"| == 14;
  }

  lemma VolumeRead(position: nat, v: VolumeInfo)
    ensures VolumeSays(NormEntry(VolumeEntry(position, v)), position, v)
  {
    hide VolumeLines, VolumeTexts, Dec, Value, Statements;
    StatementsRead("volume " + Dec(position), VolumeLines(v));
    VolumeLinesSay(v);
    AllKept(VolumeLines(v));
    WrittenNumber(position);
    assert "volume " + Dec(position) == "volume " + Dec(position) + "";
  }

  lemma HostRead(n: NodeInfo)
    ensures HostSays(NormEntry(HostEntry(n)), n)
  {
    hide Dec, Value, BlockList, VolumeEntry, VolumeSays;
    var f, g := Statements([IdLine(n)]), BlockList(VolumeEntries(n.volumes));
    ReadHost(n);
    TextsThen(f, g);
    StatementsRead("", [IdLine(n)]);
    KeptDark(IdLine(n));
    ListHasNoTexts(VolumeEntries(n.volumes));
    WrittenNumber(n.id);
    assert Texts(Norm(HostEntry(n).1)) == [IdLine(n)];
    assert [IdLine(n)][0] == "node-id " + Dec(n.id) + ";";
    forall k | 0 <= k < |n.volumes|
      ensures VolumeSays(Blocks(Norm(HostEntry(n).1))[k], k, n.volumes[k])
    {
      VolumeRead(k, n.volumes[k]);
      assert VolumeEntries(n.volumes)[k] == VolumeEntry(k, n.volumes[k]);
    }
  }

  lemma {:induction false} ListHasNoTexts(es: seq<Entry>)
    ensures Texts(Norm(BlockList(es))) == []
  {
    if es != [] {
      var n := |es| - 1;
      ListHasNoTexts(es[..n]);
      TextsThen(BlockList(es[..n]), Block(es[n]));
      assert Norm(Nil) == Nil && Texts(Nil) == [];
    }
  }

  lemma PathRead(m: NodeInfo, n: NodeInfo, k: nat)
    requires k < |m.addrs| && k < |n.addrs|
    ensures PathSays(NormEntry(PathEntry(m, m.addrs[k], n, n.addrs[k])), m, n, k)
  {
    hide Dec, Value, Statements;
    var a, b := AddressLine(m, m.addrs[k]), AddressLine(n, n.addrs[k]);
    StatementsRead("path", [a, b]);
    assert a[0] == 'h' && b[0] == 'h';
    AllKept([a, b]);
    EndRead(m, k);
    EndRead(n, k);
  }

  lemma EndRead(n: NodeInfo, k: nat)
    requires k < |n.addrs|
    ensures EndSays(AddressLine(n, n.addrs[k]), n, k)
  {
    hide Dec, Value;
    WrittenNumber(n.port);
    assert AddressLine(n, n.addrs[k]) == ("host " + n.name + " address " + n.addrs[k] + ":") + Dec(n.port) + ";";
  }

  lemma ConnectionRead(m: NodeInfo, n: NodeInfo)
    ensures ConnectionSays(NormEntry(ConnectionEntry(m, n)), m, n)
  {
    hide PathEntry, BlockList, PathSays;
    var es := [("net", Nil)] + PathEntries(m, n);
    ReadConnection(m, n);
    ListHasNoTexts(es);
    var bs := Blocks(Norm(ConnectionEntry(m, n).1));
    assert bs[0] == NormEntry(es[0]) && es[0] == ("net", Nil);
    assert Norm(Nil) == Nil && Texts(Nil) == [] && Blocks(Nil) == [];
    forall k | 0 <= k < |PathEntries(m, n)|
      ensures PathSays(bs[1..][k], m, n, k)
    {
      assert bs[1..][k] == bs[1 + k] == NormEntry(es[1 + k]) && es[1 + k] == PathEntries(m, n)[k];
      PathRead(m, n, k);
    }
  }

  // ---- the pairs, in order ----

  predicate LexBefore(p: (nat, nat), q: (nat, nat)) {
    p.0 < q.0 || (p.0 == q.0 && p.1 < q.1)
  }

  lemma {:induction false} RowInOrder(i: nat, j: nat)
    ensures forall a, b :: 0 <= a < b < |RowOfPairs(i, j)| ==> LexBefore(RowOfPairs(i, j)[a], RowOfPairs(i, j)[b])
    ensures forall a :: 0 <= a < |RowOfPairs(i, j)| ==> RowOfPairs(i, j)[a].0 == i && RowOfPairs(i, j)[a].1 < j
  {
    if j > i + 1 {
      RowInOrder(i, j - 1);
    }
  }

  lemma {:induction false} PairsInOrder(i: nat, n: nat)
    ensures forall a, b :: 0 <= a < b < |NodePairs(i, n)| ==> LexBefore(NodePairs(i, n)[a], NodePairs(i, n)[b])
    ensures forall a :: 0 <= a < |NodePairs(i, n)| ==> NodePairs(i, n)[a].0 < i
  {
    if i > 0 {
      PairsInOrder(i - 1, n);
      RowInOrder(i - 1, n);
    }
  }

  lemma PairsAreAll(n: nat)
    ensures AllPairs(NodePairs(n, n), n)
  {
    hide NodePairs;
    PairsInOrder(n, n);
    forall i: nat, j: nat
      ensures (i, j) in NodePairs(n, n) <==> i < j < n
    {
      PairsExact(n, n, (i, j));
    }
  }

  lemma ConnectionsRead(bs: seq<Entry>, nodes: seq<NodeInfo>)
    requires var es := ConnectionEntries(nodes, NodePairs(|nodes|, |nodes|));
             |bs| == |es| && forall a :: 0 <= a < |es| ==> bs[a] == NormEntry(es[a])
    ensures ConnectionsSay(bs, nodes)
  {
    hide NodePairs, ConnectionEntry, AllPairs, ConnectionSays;
    var ps := NodePairs(|nodes|, |nodes|);
    PairsAreAll(|nodes|);
    forall a | 0 <= a < |ps|
      ensures PairSays(bs[a], nodes, ps[a])
    {
      PairInRange(nodes, ps, a);
      ConnectionRead(nodes[ps[a].0], nodes[ps[a].1]);
    }
  }

  lemma PairInRange(nodes: seq<NodeInfo>, ps: seq<(nat, nat)>, a: nat)
    requires AllPairs(ps, |nodes|) && a < |ps|
    ensures ps[a].0 < |nodes| && ps[a].1 < |nodes|
  {
    assert (ps[a].0, ps[a].1) in ps;
  }

  // ---- the whole file ----

  lemma NameOccurs(needle: string, s: string)
    ensures Occurs(needle, s) <==> HasText(needle, s)
  {
    if HasText(needle, s) {
      var a, b :| s == a + needle + b;
      assert s[|a|..|a| + |needle|] == needle;
      assert OccursAt(needle, s, |a|);
    }
    if i :| OccursAt(needle, s, i) {
      assert s == s[..i] + needle + s[i + |needle|..];
    }
  }

  lemma DiskBlockRead(me: Own, r: ResourceInfo)
    ensures DiskSays(NormEntry(DiskEntry(me, r)), me, r)
  {
    hide Statements, Occurs, HasText;
    NameOccurs("c-min-rate", r.diskOptions);
    StatementsRead("disk", DiskLines(me, r));
    var first, work := ["disk-flushes no;", "md-flushes no;"], When(Workaround(me, r), "c-min-rate 0;");
    assert DiskLines(me, r) == (first + work) + [r.diskOptions];
    KeptThen(first + work, [r.diskOptions]);
    KeptOne(r.diskOptions);
    assert forall i :: 0 <= i < |first + work| ==> StartsDark((first + work)[i]);
    AllKept(first + work);
  }

  lemma NetBlockRead(me: Own, r: ResourceInfo)
    ensures NetSays(NormEntry(NetEntry(me, r)), me, r)
  {
    hide Statements, TransportLine, TlsLine, FencingLine, StartsDark;
    StatementsRead("net", NetLines(me, r));
    var a, b, c := When(r.transport != "", TransportLine(r)), When(r.tls == "yes", TlsLine(r)), When(me.fencing != "", FencingLine(me));
    assert NetLines(me, r) == (a + b + c) + [r.netOptions];
    KeptThen(a + b + c, [r.netOptions]);
    KeptOne(r.netOptions);
    NetLinesDark(me, r);
    AllKept(a + b + c);
  }

  lemma NetLinesDark(me: Own, r: ResourceInfo)
    ensures StartsDark(TransportLine(r)) && StartsDark(TlsLine(r)) && StartsDark(FencingLine(me))
    ensures TransportLine(r) == "transport \"" + r.transport + "\";" && FencingLine(me) == "fencing " + me.fencing + ";"
    ensures r.tls == "yes" ==> TlsLine(r) == "tls yes;"
  {
    assert TransportLine(r)[0] == 't' && TlsLine(r)[0] == 't' && FencingLine(me)[0] == 'f';
    assert "tls " + "yes" + ";" == "tls yes;";
  }

  lemma OneRead(name: string, value: string)
    ensures Says(NormEntry((name, Statements([value]))), name, Given(value))
  {
    StatementsRead(name, [value]);
    KeptOne(value);
  }

  lemma FixedRead(me: Own, r: ResourceInfo)
    ensures var es := FixedEntries(me, r);
            Says(NormEntry(es[0]), "handlers", Given(r.handlers)) && Says(NormEntry(es[1]), "options", Given(r.resourceOptions))
            && DiskSays(NormEntry(es[2]), me, r) && NetSays(NormEntry(es[3]), me, r) && Says(NormEntry(es[4]), "proxy", [])
  {
    hide Statements, DiskEntry, NetEntry, DiskSays, NetSays;
    OneRead("handlers", r.handlers);
    OneRead("options", r.resourceOptions);
    DiskBlockRead(me, r);
    NetBlockRead(me, r);
    assert Norm(Nil) == Nil && Texts(Nil) == [] && Blocks(Nil) == [];
  }

  /** The blocks of the file, one part after the other. */
  lemma PartsRead(me: Own, r: ResourceInfo)
    ensures var es, bs, n := ResourceEntries(me, r), Blocks(Norm(BlockList(ResourceEntries(me, r)))), |r.nodes|;
            var cs := ConnectionEntries(r.nodes, NodePairs(n, n));
            |bs| == 5 + n + |cs| && (forall i :: 0 <= i < 5 ==> bs[i] == NormEntry(FixedEntries(me, r)[i]))
            && (forall i :: 0 <= i < n ==> bs[5 + i] == NormEntry(HostEntry(r.nodes[i])))
            && (forall a :: 0 <= a < |cs| ==> bs[5 + n..][a] == NormEntry(cs[a]))
  {
    hide FixedEntries, HostEntry, ConnectionEntries, BlockList;
    var es, n := ResourceEntries(me, r), |r.nodes|;
    var cs := ConnectionEntries(r.nodes, NodePairs(n, n));
    BlocksOfList(es);
    FixedCount(me, r);
    assert forall i :: 0 <= i < 5 ==> es[i] == FixedEntries(me, r)[i];
    assert forall i :: 0 <= i < n ==> es[5 + i] == HostEntries(r.nodes)[i];
    assert forall a :: 0 <= a < |cs| ==> es[5 + n + a] == cs[a];
  }

  lemma BodySays(me: Own, r: ResourceInfo)
    ensures ResourceSays(Sub("resource " + r.name, Norm(BlockList(ResourceEntries(me, r))), Nil), me, r)
  {
    hide FixedEntries, HostEntry, ConnectionEntries, BlockList, HostSays, ConnectionsSay, DiskSays, NetSays, Says, ResourceEntries;
    hide NodePairs, NormEntry, Given;
    var bs, n := Blocks(Norm(BlockList(ResourceEntries(me, r)))), |r.nodes|;
    ListHasNoTexts(ResourceEntries(me, r));
    PartsRead(me, r);
    FixedCount(me, r);
    FixedRead(me, r);
    forall i | 0 <= i < n
      ensures HostSays(bs[5 + i], r.nodes[i])
    {
      HostRead(r.nodes[i]);
    }
    ConnectionsRead(bs[5 + n..], r.nodes);
  }

  lemma FixedCount(me: Own, r: ResourceInfo)
    ensures |FixedEntries(me, r)| == 5
  {
  }

  /** For names and option lines without braces, newlines and percent signs, a reader of the
      file finds exactly the settings. */
  lemma ReaderFinds(me: Own, r: ResourceInfo)
    requires CleanState(me, r)
    ensures Config(me, r).Some? && Parse(Config(me, r).value).Some?
    ensures ResourceSays(Parse(Config(me, r).value).value, me, r)
  {
    hide CleanState, Config, Parse, ResourceSays;
    ReadResource(me, r);
    BodySays(me, r);
  }
}
