/** python/drbdtest.py, Node.config: the block tree that a node's configuration
    consists of, as a value, and what a reader of its text finds. */
module NodeConfig {
  import opened Wrappers
  import opened ConfigText
  import opened Decimals

  // ---- what the configuration depends on ----

  datatype VolumeInfo = VolumeInfo(minor: nat, disk: Option<string>, meta: Option<string>, tiebreaker: Option<bool>)

  datatype NodeInfo = NodeInfo(id: nat, name: string, hostname: string, addrs: seq<string>, port: nat,
                               volumes: seq<VolumeInfo>)

  datatype ResourceInfo = ResourceInfo(name: string, handlers: string, resourceOptions: string,
                                       diskOptions: string, netOptions: string,
                                       transport: string, tls: string, nodes: seq<NodeInfo>)

  /** What the writing node adds of its own. */
  datatype Own = Own(fencing: string, osId: string, osVersion: string)

  // ---- the block tree ----

  predicate OccursAt(needle: string, s: string, i: int) {
    0 <= i <= |s| - |needle| && s[i..i + |needle|] == needle
  }

  ghost predicate Occurs(needle: string, s: string) {
    exists i :: OccursAt(needle, s, i)
  }

  /** The statements that a block writes one after the other. */
  function Statements(lines: seq<string>): Forest {
    if lines == [] then Nil
    else Statements(lines[..|lines| - 1]).Then(Line(lines[|lines| - 1], Nil))
  }

  type Entry = (string, Forest)

  function Block(e: Entry): Forest {
    Sub(e.0, e.1, Nil)
  }

  /** Blocks one after the other. */
  function BlockList(es: seq<Entry>): Forest {
    if es == [] then Nil else BlockList(es[..|es| - 1]).Then(Block(es[|es| - 1]))
  }

  function When(c: bool, line: string): seq<string> {
    if c then [line] else []
  }

  function DeviceLine(v: VolumeInfo): string {
    "device /dev/drbd" + Dec(v.minor) + ";"
  }

  function DiskLine(v: VolumeInfo): string {
    "disk " + (if v.disk.Some? then v.disk.value else "none") + ";"
  }

  function MetaLine(v: VolumeInfo): string {
    "meta-disk " + (if v.meta.Some? then v.meta.value else "internal") + ";"
  }

  function TiebreakerLine(v: VolumeInfo): string {
    "tiebreaker " + (if v.tiebreaker == Some(true) then "yes" else "no") + ";"
  }

  function VolumeLines(v: VolumeInfo): seq<string> {
    [DeviceLine(v), DiskLine(v)] + When(v.disk.Some?, MetaLine(v)) + When(v.tiebreaker.Some?, TiebreakerLine(v))
  }

  /** A volume's block is named after its position. */
  function VolumeEntry(position: nat, v: VolumeInfo): Entry {
    ("volume " + Dec(position), Statements(VolumeLines(v)))
  }

  function VolumeEntries(vs: seq<VolumeInfo>): seq<Entry> {
    seq(|vs|, i requires 0 <= i < |vs| => VolumeEntry(i, vs[i]))
  }

  function IdLine(n: NodeInfo): string {
    "node-id " + Dec(n.id) + ";"
  }

  function HostEntry(n: NodeInfo): Entry {
    ("on " + n.hostname, Statements([IdLine(n)]).Then(BlockList(VolumeEntries(n.volumes))))
  }

  function HostEntries(ns: seq<NodeInfo>): seq<Entry> {
    seq(|ns|, i requires 0 <= i < |ns| => HostEntry(ns[i]))
  }

  function AddressLine(n: NodeInfo, addr: string): string {
    "host " + n.name + (" address " + addr + ":") + Dec(n.port) + ";"
  }

  function PathEntry(n1: NodeInfo, a1: string, n2: NodeInfo, a2: string): Entry {
    ("path", Statements([AddressLine(n1, a1), AddressLine(n2, a2)]))
  }

  function Min(a: nat, b: nat): nat {
    if a <= b then a else b
  }

  /** One path for each pair of addresses of the same number. */
  function PathEntries(n1: NodeInfo, n2: NodeInfo): seq<Entry> {
    seq(Min(|n1.addrs|, |n2.addrs|),
        i requires 0 <= i < Min(|n1.addrs|, |n2.addrs|) => PathEntry(n1, n1.addrs[i], n2, n2.addrs[i]))
  }

  function ConnectionEntry(n1: NodeInfo, n2: NodeInfo): Entry {
    ("connection", BlockList([("net", Nil)] + PathEntries(n1, n2)))
  }

  /** (i, i+1) ... (i, j-1) */
  function RowOfPairs(i: nat, j: nat): seq<(nat, nat)> {
    if j <= i + 1 then [] else RowOfPairs(i, j - 1) + [(i, j - 1)]
  }

  /** The node pairs that the double loop visits while its first index is below i. */
  function NodePairs(i: nat, n: nat): seq<(nat, nat)> {
    if i == 0 then [] else NodePairs(i - 1, n) + RowOfPairs(i - 1, n)
  }

  /** The connection block of a pair of positions (which NodePairs keeps in range). */
  function PairEntry(ns: seq<NodeInfo>, p: (nat, nat)): Entry {
    if p.0 < |ns| && p.1 < |ns| then ConnectionEntry(ns[p.0], ns[p.1]) else ("", Nil)
  }

  function ConnectionEntries(ns: seq<NodeInfo>, ps: seq<(nat, nat)>): seq<Entry> {
    seq(|ps|, k requires 0 <= k < |ps| => PairEntry(ns, ps[k]))
  }

  ghost predicate Workaround(me: Own, r: ResourceInfo) {
    !Occurs("c-min-rate", r.diskOptions) && me.osId == "ubuntu" && me.osVersion == "18.04"
  }

  ghost function DiskLines(me: Own, r: ResourceInfo): seq<string> {
    ["disk-flushes no;", "md-flushes no;"] + When(Workaround(me, r), "c-min-rate 0;") + [r.diskOptions]
  }

  function TransportLine(r: ResourceInfo): string {
    "transport \"" + r.transport + "\";"
  }

  function TlsLine(r: ResourceInfo): string {
    "tls " + r.tls + ";"
  }

  function FencingLine(me: Own): string {
    "fencing " + me.fencing + ";"
  }

  function NetLines(me: Own, r: ResourceInfo): seq<string> {
    When(r.transport != "", TransportLine(r)) + When(r.tls == "yes", TlsLine(r))
    + When(me.fencing != "", FencingLine(me)) + [r.netOptions]
  }

  function HandlersEntry(r: ResourceInfo): Entry {
    ("handlers", Statements([r.handlers]))
  }

  function OptionsEntry(r: ResourceInfo): Entry {
    ("options", Statements([r.resourceOptions]))
  }

  ghost function DiskEntry(me: Own, r: ResourceInfo): Entry {
    ("disk", Statements(DiskLines(me, r)))
  }

  function NetEntry(me: Own, r: ResourceInfo): Entry {
    ("net", Statements(NetLines(me, r)))
  }

  function ProxyEntry(): Entry {
    ("proxy", Nil)
  }

  function Five(a: Entry, b: Entry, c: Entry, d: Entry, e: Entry): (es: seq<Entry>)
    ensures |es| == 5
  {
    [a, b, c, d, e]
  }

  ghost function FixedEntries(me: Own, r: ResourceInfo): seq<Entry> {
    Five(HandlersEntry(r), OptionsEntry(r), DiskEntry(me, r), NetEntry(me, r), ProxyEntry())
  }

  ghost function ResourceEntries(me: Own, r: ResourceInfo): seq<Entry> {
    FixedEntries(me, r) + HostEntries(r.nodes) + ConnectionEntries(r.nodes, NodePairs(|r.nodes|, |r.nodes|))
  }

  /** The block tree of `config()`, statements not yet formatted. */
  ghost function Tree(me: Own, r: ResourceInfo): Forest {
    Block(("resource " + r.name, BlockList(ResourceEntries(me, r))))
  }

  /** What `config()` returns, None when formatting a statement raises. */
  ghost function Config(me: Own, r: ResourceInfo): Option<string> {
    var f := FormatAll(Tree(me, r));
    if f.None? then None else Some(Print(f.value, 1))
  }

  // ---- each unordered pair of nodes once ----

  lemma {:induction false} RowExact(i: nat, j: nat, p: (nat, nat))
    ensures p in RowOfPairs(i, j) <==> p.0 == i && i < p.1 < j
    ensures |RowOfPairs(i, j)| == if j <= i + 1 then 0 else j - i - 1
    decreases j
  {
    if j > i + 1 {
      RowExact(i, j - 1, p);
    }
  }

  lemma {:induction false} PairsExact(i: nat, n: nat, p: (nat, nat))
    ensures p in NodePairs(i, n) <==> p.0 < i && p.0 < p.1 < n
  {
    if i > 0 {
      PairsExact(i - 1, n, p);
      RowExact(i - 1, n, p);
    }
  }

  lemma {:induction false} PairsCount(i: nat, n: nat)
    requires i <= n
    ensures 2 * |NodePairs(i, n)| == i * (2 * n - i - 1)
  {
    hide RowOfPairs;
    if i > 0 {
      PairsCount(i - 1, n);
      RowExact(i - 1, n, (0, 0));
      RowsSum(i, n);
    }
  }

  lemma RowsSum(i: nat, n: nat)
    ensures (i - 1) * (2 * n - i) + 2 * (n - i) == i * (2 * n - i - 1)
  {
  }

  /** Every unordered pair of different nodes is visited, in one orientation
      only, and the number of visits leaves no room for a repetition. */
  lemma EachPairOnce(n: nat, i: nat, j: nat)
    requires i < n && j < n && i != j
    ensures (i, j) in NodePairs(n, n) <==> i < j
    ensures (i, j) in NodePairs(n, n) <==> (j, i) !in NodePairs(n, n)
    ensures 2 * |NodePairs(n, n)| == n * (n - 1)
  {
    PairsExact(n, n, (i, j));
    PairsExact(n, n, (j, i));
    PairsCount(n, n);
    assert n * (2 * n - n - 1) == n * (n - 1);
  }

  // ---- trees that survive formatting and reading ----

  /** A tree in which formatting changes nothing and which can be read back. */
  ghost predicate Plain(f: Forest) {
    Clean(f) && FormatAll(f) == Some(f)
  }

  predicate CleanWord(s: string) {
    CleanText(s) && '%' !in s
  }

  ghost predicate CleanWords(lines: seq<string>) {
    forall i :: 0 <= i < |lines| ==> CleanWord(lines[i])
  }

  ghost predicate PlainEntry(e: Entry) {
    CleanName(e.0) && Plain(e.1)
  }

  ghost predicate PlainEntries(es: seq<Entry>) {
    forall i :: 0 <= i < |es| ==> PlainEntry(es[i])
  }

  lemma PlainThen(f: Forest, g: Forest)
    requires Plain(f) && Plain(g)
    ensures Plain(f.Then(g))
  {
    CleanThen(f, g);
    FormatThen(f, g);
  }

  lemma {:induction false} PlainStatements(lines: seq<string>)
    requires CleanWords(lines)
    ensures Plain(Statements(lines))
  {
    if lines != [] {
      var n := |lines| - 1;
      PlainStatements(lines[..n]);
      FormatPlain(lines[n]);
      PlainThen(Statements(lines[..n]), Line(lines[n], Nil));
    }
  }

  lemma {:induction false} PlainBlockList(es: seq<Entry>)
    requires PlainEntries(es)
    ensures Plain(BlockList(es))
  {
    if es != [] {
      var n := |es| - 1;
      PlainBlockList(es[..n]);
      PlainThen(BlockList(es[..n]), Block(es[n]));
    }
  }

  /** The sub-blocks of block contents, in order. */
  function Blocks(f: Forest): seq<Entry> {
    match f
    case Nil => []
    case Line(_, rest) => Blocks(rest)
    case Sub(n, body, rest) => [(n, body)] + Blocks(rest)
  }

  lemma {:induction false} BlocksThen(f: Forest, g: Forest)
    ensures Blocks(Norm(f.Then(g))) == Blocks(Norm(f)) + Blocks(Norm(g))
  {
    match f
    case Nil =>
    case Line(_, rest) => BlocksThen(rest, g);
    case Sub(_, _, rest) => BlocksThen(rest, g);
  }

  lemma {:induction false} StatementsNoBlocks(lines: seq<string>)
    ensures Blocks(Norm(Statements(lines))) == []
  {
    if lines != [] {
      var n := |lines| - 1;
      StatementsNoBlocks(lines[..n]);
      BlocksThen(Statements(lines[..n]), Line(lines[n], Nil));
    }
  }

  /** A reader finds the blocks of a list in their order. */
  lemma {:induction false} BlocksOfList(es: seq<Entry>)
    ensures |Blocks(Norm(BlockList(es)))| == |es|
    ensures forall i :: 0 <= i < |es| ==> Blocks(Norm(BlockList(es)))[i] == (es[i].0, Norm(es[i].1))
  {
    if es != [] {
      var n := |es| - 1;
      BlocksOfList(es[..n]);
      BlocksThen(BlockList(es[..n]), Block(es[n]));
    }
  }

  // ---- reading the configuration back ----

  predicate CleanPath(p: Option<string>) {
    p.Some? ==> CleanWord(p.value)
  }

  predicate CleanVolume(v: VolumeInfo) {
    CleanPath(v.disk) && CleanPath(v.meta)
  }

  predicate CleanNode(n: NodeInfo) {
    CleanWord(n.name) && CleanText(n.hostname)
    && (forall i :: 0 <= i < |n.addrs| ==> CleanWord(n.addrs[i]))
    && (forall i :: 0 <= i < |n.volumes| ==> CleanVolume(n.volumes[i]))
  }

  /** No braces, newlines or percent signs in names and option lines (block names
      are not formatted and may hold percent signs). */
  predicate CleanState(me: Own, r: ResourceInfo) {
    CleanText(r.name) && CleanWord(r.handlers) && CleanWord(r.resourceOptions)
    && CleanWord(r.diskOptions) && CleanWord(r.netOptions) && CleanWord(r.transport)
    && CleanWord(me.fencing) && forall i :: 0 <= i < |r.nodes| ==> CleanNode(r.nodes[i])
  }

  lemma DecClean(n: nat)
    ensures CleanWord(Dec(n))
  {
    DecRead(n);
  }

  lemma CleanAround(a: string, s: string, b: string)
    requires CleanWord(a) && CleanWord(s) && CleanWord(b)
    ensures CleanWord(a + s + b)
  {
  }

  lemma CleanDeviceLine(v: VolumeInfo)
    ensures CleanWord(DeviceLine(v))
  {
    DecClean(v.minor);
    CleanAround("device /dev/drbd", Dec(v.minor), ";");
  }

  lemma CleanDiskLine(v: VolumeInfo)
    requires CleanVolume(v)
    ensures CleanWord(DiskLine(v))
  {
    CleanAround("disk ", if v.disk.Some? then v.disk.value else "none", ";");
  }

  lemma CleanMetaLine(v: VolumeInfo)
    requires CleanVolume(v)
    ensures CleanWord(MetaLine(v))
  {
    CleanAround("meta-disk ", if v.meta.Some? then v.meta.value else "internal", ";");
  }

  lemma CleanTiebreakerLine(v: VolumeInfo)
    ensures CleanWord(TiebreakerLine(v))
  {
    CleanAround("tiebreaker ", if v.tiebreaker == Some(true) then "yes" else "no", ";");
  }

  lemma PlainVolume(position: nat, v: VolumeInfo)
    requires CleanVolume(v)
    ensures PlainEntry(VolumeEntry(position, v))
  {
    CleanVolumeLines(v);
    PlainStatements(VolumeLines(v));
    assert CleanName("volume " + Dec(position)) by {
      DecClean(position);
    }
  }

  lemma CleanVolumeLines(v: VolumeInfo)
    requires CleanVolume(v)
    ensures CleanWords(VolumeLines(v))
  {
    CleanDeviceLine(v);
    CleanDiskLine(v);
    CleanMetaLine(v);
    CleanTiebreakerLine(v);
    hide CleanWord, DeviceLine, DiskLine, MetaLine, TiebreakerLine;
  }

  lemma CleanId(n: NodeInfo)
    ensures CleanWords([IdLine(n)])
  {
    DecClean(n.id);
    CleanAround("node-id ", Dec(n.id), ";");
  }

  lemma PlainHost(n: NodeInfo)
    requires CleanNode(n)
    ensures PlainEntry(HostEntry(n))
  {
    forall i | 0 <= i < |n.volumes|
      ensures PlainEntry(VolumeEntries(n.volumes)[i])
    {
      PlainVolume(i, n.volumes[i]);
    }
    PlainBlockList(VolumeEntries(n.volumes));
    CleanId(n);
    PlainStatements([IdLine(n)]);
    PlainThen(Statements([IdLine(n)]), BlockList(VolumeEntries(n.volumes)));
  }

  lemma CleanAddress(n: NodeInfo, addr: string)
    requires CleanWord(n.name) && CleanWord(addr)
    ensures CleanWord(AddressLine(n, addr))
  {
    DecClean(n.port);
    CleanAround(" address ", addr, ":");
    CleanAround("host ", n.name, " address " + addr + ":");
    CleanAround("host " + n.name + (" address " + addr + ":"), Dec(n.port), ";");
  }

  lemma PlainPath(n1: NodeInfo, a1: string, n2: NodeInfo, a2: string)
    requires CleanNode(n1) && CleanNode(n2) && CleanWord(a1) && CleanWord(a2)
    ensures PlainEntry(PathEntry(n1, a1, n2, a2))
  {
    CleanAddress(n1, a1);
    CleanAddress(n2, a2);
    PlainStatements([AddressLine(n1, a1), AddressLine(n2, a2)]);
  }

  lemma PlainConnection(n1: NodeInfo, n2: NodeInfo)
    requires CleanNode(n1) && CleanNode(n2)
    ensures PlainEntry(ConnectionEntry(n1, n2))
  {
    var es := PathEntries(n1, n2);
    forall i | 0 <= i < |es|
      ensures PlainEntry(es[i])
    {
      PlainPath(n1, n1.addrs[i], n2, n2.addrs[i]);
    }
    assert PlainEntries([("net", Nil)] + es);
    PlainBlockList([("net", Nil)] + es);
  }

  lemma CleanConcat(a: seq<string>, b: seq<string>)
    requires CleanWords(a) && CleanWords(b)
    ensures CleanWords(a + b)
  {
    hide CleanWord;
  }

  lemma CleanWhen(c: bool, line: string)
    requires c ==> CleanWord(line)
    ensures CleanWords(When(c, line))
  {
    hide CleanWord;
  }

  lemma CleanDiskLines(me: Own, r: ResourceInfo)
    requires CleanWord(r.diskOptions)
    ensures CleanWords(DiskLines(me, r))
  {
    var first := ["disk-flushes no;", "md-flushes no;"];
    assert CleanWords(first) && CleanWord("c-min-rate 0;");
    hide CleanWords, CleanWord, Workaround;
    CleanWhen(Workaround(me, r), "c-min-rate 0;");
    CleanConcat(first, When(Workaround(me, r), "c-min-rate 0;"));
    CleanWhen(true, r.diskOptions);
    CleanConcat(first + When(Workaround(me, r), "c-min-rate 0;"), When(true, r.diskOptions));
  }

  lemma CleanNetLines(me: Own, r: ResourceInfo)
    requires CleanWord(r.transport) && CleanWord(me.fencing) && CleanWord(r.netOptions)
    ensures CleanWords(NetLines(me, r))
  {
    hide CleanWords, CleanWord, TransportLine, TlsLine, FencingLine;
    NetPiecesClean(me, r);
    var a := When(r.transport != "", TransportLine(r));
    var b := When(r.tls == "yes", TlsLine(r));
    var c := When(me.fencing != "", FencingLine(me));
    CleanWhen(r.transport != "", TransportLine(r));
    CleanWhen(r.tls == "yes", TlsLine(r));
    CleanWhen(me.fencing != "", FencingLine(me));
    CleanWhen(true, r.netOptions);
    CleanConcat(a, b);
    CleanConcat(a + b, c);
    CleanConcat(a + b + c, When(true, r.netOptions));
  }

  lemma NetPiecesClean(me: Own, r: ResourceInfo)
    requires CleanWord(r.transport) && CleanWord(me.fencing)
    ensures CleanWord(TransportLine(r)) && CleanWord(FencingLine(me)) && (r.tls == "yes" ==> CleanWord(TlsLine(r)))
  {
    CleanAround("transport \"", r.transport, "\";");
    CleanAround("fencing ", me.fencing, ";");
    CleanAround("tls ", "yes", ";");
  }

  lemma PlainNamed(name: string, lines: seq<string>)
    requires CleanName(name) && CleanWords(lines)
    ensures PlainEntry((name, Statements(lines)))
  {
    PlainStatements(lines);
  }

  lemma PlainOptions(me: Own, r: ResourceInfo)
    requires CleanState(me, r)
    ensures PlainEntry(HandlersEntry(r)) && PlainEntry(OptionsEntry(r))
  {
    PlainNamed("handlers", [r.handlers]);
    PlainNamed("options", [r.resourceOptions]);
  }

  lemma PlainDisk(me: Own, r: ResourceInfo)
    requires CleanState(me, r)
    ensures PlainEntry(DiskEntry(me, r))
  {
    CleanDiskLines(me, r);
    PlainNamed("disk", DiskLines(me, r));
  }

  lemma PlainNet(me: Own, r: ResourceInfo)
    requires CleanState(me, r)
    ensures PlainEntry(NetEntry(me, r))
  {
    CleanNetLines(me, r);
    PlainNamed("net", NetLines(me, r));
  }

  lemma PlainFive(a: Entry, b: Entry, c: Entry, d: Entry, e: Entry)
    requires PlainEntry(a) && PlainEntry(b) && PlainEntry(c) && PlainEntry(d) && PlainEntry(e)
    ensures PlainEntries(Five(a, b, c, d, e))
  {
  }

  lemma PlainProxy()
    ensures PlainEntry(ProxyEntry())
  {
  }

  lemma PlainFixed(me: Own, r: ResourceInfo)
    requires CleanState(me, r)
    ensures PlainEntries(FixedEntries(me, r))
  {
    PlainOptions(me, r);
    PlainDisk(me, r);
    PlainNet(me, r);
    PlainProxy();
    PlainFive(HandlersEntry(r), OptionsEntry(r), DiskEntry(me, r), NetEntry(me, r), ProxyEntry());
  }

  lemma PlainHosts(ns: seq<NodeInfo>)
    requires forall i :: 0 <= i < |ns| ==> CleanNode(ns[i])
    ensures PlainEntries(HostEntries(ns))
  {
    forall i | 0 <= i < |ns|
      ensures PlainEntry(HostEntries(ns)[i])
    {
      PlainHost(ns[i]);
    }
  }

  lemma PlainConnections(ns: seq<NodeInfo>)
    requires forall i :: 0 <= i < |ns| ==> CleanNode(ns[i])
    ensures PlainEntries(ConnectionEntries(ns, NodePairs(|ns|, |ns|)))
  {
    var ps := NodePairs(|ns|, |ns|);
    forall k | 0 <= k < |ps|
      ensures PlainEntry(ConnectionEntries(ns, ps)[k])
    {
      PairsExact(|ns|, |ns|, ps[k]);
      PlainConnection(ns[ps[k].0], ns[ps[k].1]);
    }
  }

  lemma PlainThree(a: seq<Entry>, b: seq<Entry>, c: seq<Entry>)
    requires PlainEntries(a) && PlainEntries(b) && PlainEntries(c)
    ensures Plain(BlockList(a + b + c))
  {
    PlainBlockList(a + b + c);
  }

  lemma PlainTree(me: Own, r: ResourceInfo)
    requires CleanState(me, r)
    ensures Plain(Tree(me, r))
  {
    var n := |r.nodes|;
    PlainFixed(me, r);
    PlainHosts(r.nodes);
    PlainConnections(r.nodes);
    PlainThree(FixedEntries(me, r), HostEntries(r.nodes), ConnectionEntries(r.nodes, NodePairs(n, n)));
    CleanResourceName(r);
  }

  lemma CleanResourceName(r: ResourceInfo)
    requires CleanText(r.name)
    ensures CleanName("resource " + r.name)
  {
  }

  /** Round trip: the text of `config()`, read as nested blocks, is the block
      tree again. */
  lemma ConfigRoundTrip(me: Own, r: ResourceInfo)
    requires CleanState(me, r)
    ensures Config(me, r).Some?
    ensures Parse(Config(me, r).value) == Some(Norm(Tree(me, r)))
  {
    PlainTree(me, r);
    RoundTrip(Tree(me, r));
  }

  /** What the reader finds: one resource block ... */
  lemma ReadResource(me: Own, r: ResourceInfo)
    requires CleanState(me, r)
    ensures Config(me, r).Some? && Parse(Config(me, r).value).Some?
    ensures var f := Parse(Config(me, r).value).value;
            f.Sub? && f.rest == Nil && f.name == "resource " + r.name
            && f.body == Norm(BlockList(ResourceEntries(me, r)))
  {
    ConfigRoundTrip(me, r);
  }

  function NormEntry(e: Entry): Entry {
    (e.0, Norm(e.1))
  }

  /** After `skip` blocks: the entries b in order, then the entries c in order. */
  ghost predicate PartsRead(bs: seq<Entry>, skip: nat, b: seq<Entry>, c: seq<Entry>) {
    |bs| == skip + |b| + |c|
    && (forall i :: 0 <= i < |b| ==> bs[skip + i] == NormEntry(b[i]))
    && (forall i :: 0 <= i < |c| ==> bs[skip + |b| + i] == NormEntry(c[i]))
  }

  lemma PartsInOrder(a: seq<Entry>, b: seq<Entry>, c: seq<Entry>)
    ensures PartsRead(Blocks(Norm(BlockList(a + b + c))), |a|, b, c)
  {
    var es := a + b + c;
    BlocksOfList(es);
    assert forall i :: 0 <= i < |b| ==> es[|a| + i] == b[i];
    assert forall i :: 0 <= i < |c| ==> es[|a| + |b| + i] == c[i];
  }

  /** ... in it the five fixed blocks, one block per host in order and one
      connection block per visited pair ... */
  lemma ReadParts(me: Own, r: ResourceInfo)
    ensures PartsRead(Blocks(Norm(BlockList(ResourceEntries(me, r)))), 5,
                      HostEntries(r.nodes), ConnectionEntries(r.nodes, NodePairs(|r.nodes|, |r.nodes|)))
  {
    PartsInOrder(FixedEntries(me, r), HostEntries(r.nodes), ConnectionEntries(r.nodes, NodePairs(|r.nodes|, |r.nodes|)));
  }

  /** The entries of a list, read back in order. */
  ghost predicate ListRead(bs: seq<Entry>, es: seq<Entry>) {
    |bs| == |es| && forall i :: 0 <= i < |es| ==> bs[i] == NormEntry(es[i])
  }

  /** ... in a host block: one block per volume, in order ... */
  lemma ReadHost(n: NodeInfo)
    ensures ListRead(Blocks(Norm(HostEntry(n).1)), VolumeEntries(n.volumes))
  {
    hide VolumeEntry, IdLine, Statements, BlockList;
    BlocksThen(Statements([IdLine(n)]), BlockList(VolumeEntries(n.volumes)));
    StatementsNoBlocks([IdLine(n)]);
    BlocksOfList(VolumeEntries(n.volumes));
  }

  /** ... and in a connection block: the net block and one path per address pair. */
  lemma ReadConnection(n1: NodeInfo, n2: NodeInfo)
    ensures ListRead(Blocks(Norm(ConnectionEntry(n1, n2).1)), [("net", Nil)] + PathEntries(n1, n2))
  {
    hide PathEntry, BlockList;
    BlocksOfList([("net", Nil)] + PathEntries(n1, n2));
  }

  /** A configuration determines the number of volumes of every node: a volume
      more on any node changes every member's file. */
  lemma VolumeCountsDetermined(me: Own, r: ResourceInfo, me': Own, r': ResourceInfo, i: nat)
    requires CleanState(me, r) && CleanState(me', r')
    requires |r.nodes| == |r'.nodes| && i < |r.nodes|
    requires Config(me, r) == Config(me', r')
    ensures |r.nodes[i].volumes| == |r'.nodes[i].volumes|
  {
    ReadResource(me, r);
    ReadResource(me', r');
    ReadParts(me, r);
    ReadParts(me', r');
    ReadHost(r.nodes[i]);
    ReadHost(r'.nodes[i]);
    assert NormEntry(HostEntries(r.nodes)[i]) == NormEntry(HostEntries(r'.nodes)[i]);
  }

  lemma PartsCount(me: Own, r: ResourceInfo)
    ensures var n := |r.nodes|;
            2 * |Blocks(Norm(BlockList(ResourceEntries(me, r))))| == 10 + 2 * n + n * (n - 1)
  {
    ReadParts(me, r);
    PairsCount(|r.nodes|, |r.nodes|);
  }

  /** A configuration determines the number of nodes. */
  lemma NodeCountDetermined(me: Own, r: ResourceInfo, me': Own, r': ResourceInfo)
    requires CleanState(me, r) && CleanState(me', r')
    requires Config(me, r) == Config(me', r')
    ensures |r.nodes| == |r'.nodes|
  {
    hide *;
    ReadResource(me, r);
    ReadResource(me', r');
    PartsCount(me, r);
    PartsCount(me', r');
    Triangular(|r.nodes|, |r'.nodes|);
  }

  lemma Triangular(n: nat, m: nat)
    requires 2 * n + n * (n - 1) == 2 * m + m * (m - 1)
    ensures n == m
  {
    assert (n - m) * (n + m + 1) == 0;
  }

  // ---- what a configuration says of one volume ----

  /** The statements directly in a block. */
  function Texts(f: Forest): seq<string> {
    match f
    case Nil => []
    case Line(t, rest) => [t] + Texts(rest)
    case Sub(_, _, rest) => Texts(rest)
  }

  predicate StartsDark(line: string) {
    line != [] && line[0] != ' '
  }

  lemma {:induction false} TextsThen(f: Forest, g: Forest)
    ensures Texts(Norm(f.Then(g))) == Texts(Norm(f)) + Texts(Norm(g))
  {
    match f
    case Nil =>
    case Line(_, rest) => TextsThen(rest, g);
    case Sub(_, _, rest) => TextsThen(rest, g);
  }

  /** Statements that do not begin with a blank are read back as they are. */
  lemma {:induction false} TextsOfStatements(lines: seq<string>)
    requires forall i :: 0 <= i < |lines| ==> StartsDark(lines[i])
    ensures Texts(Norm(Statements(lines))) == lines
  {
    if lines != [] {
      var n := |lines| - 1;
      TextsOfStatements(lines[..n]);
      TextsThen(Statements(lines[..n]), Line(lines[n], Nil));
      assert StartsDark(lines[n]);
      assert Trim(lines[n]) == lines[n];
      assert Texts(Norm(Line(lines[n], Nil))) == [lines[n]];
    }
  }

  function MetaName(v: VolumeInfo): string {
    if v.meta.Some? then v.meta.value else "internal"
  }

  /** Two volumes of which a configuration says the same, their minors being equal: a
      volume without a disk has no statement on metadata, and metadata that are not
      given are internal. */
  predicate SameVolume(v: VolumeInfo, w: VolumeInfo) {
    v.disk == w.disk && (v.disk.Some? ==> MetaName(v) == MetaName(w)) && v.tiebreaker == w.tiebreaker
  }

  lemma WrappedEqual(p: string, a: string, b: string)
    requires p + a + ";" == p + b + ";"
    ensures a == b
  {
    assert (p + a + ";")[|p|..|p| + |a|] == a;
    assert (p + b + ";")[|p|..|p| + |b|] == b;
  }

  lemma SameVolumeIff(v: VolumeInfo, w: VolumeInfo)
    requires v.minor == w.minor
    ensures VolumeLines(v) == VolumeLines(w) <==> SameVolume(v, w)
  {
    if VolumeLines(v) == VolumeLines(w) {
      SameLines(v, w);
    }
  }

  lemma SameLines(v: VolumeInfo, w: VolumeInfo)
    requires v.minor == w.minor && VolumeLines(v) == VolumeLines(w)
    ensures SameVolume(v, w)
  {
    var a, b := VolumeLines(v), VolumeLines(w);
    assert a[1] == DiskLine(v) && b[1] == DiskLine(w);
    WrappedEqual("disk ", if v.disk.Some? then v.disk.value else "none", if w.disk.Some? then w.disk.value else "none");
    LineStarts(v);
    LineStarts(w);
    assert v.disk.Some? ==> a[2] == MetaLine(v);
    assert w.disk.Some? ==> b[2] == MetaLine(w);
    assert v.disk.None? && v.tiebreaker.Some? ==> a[2] == TiebreakerLine(v);
    assert w.disk.None? && w.tiebreaker.Some? ==> b[2] == TiebreakerLine(w);
    if v.disk.Some? && w.disk.Some? {
      WrappedEqual("meta-disk ", MetaName(v), MetaName(w));
    }
    SameTiebreaker(v, w);
  }

  lemma LineStarts(v: VolumeInfo)
    ensures MetaLine(v)[0] == 'm' && TiebreakerLine(v)[0] == 't'
    ensures DeviceLine(v)[0] == 'd' && DiskLine(v)[0] == 'd'
  {
  }

  lemma SameTiebreaker(v: VolumeInfo, w: VolumeInfo)
    requires VolumeLines(v) == VolumeLines(w) && v.disk.Some? == w.disk.Some?
    ensures v.tiebreaker == w.tiebreaker
  {
    var a, b := VolumeLines(v), VolumeLines(w);
    assert v.tiebreaker.Some? ==> a[|a| - 1] == TiebreakerLine(v);
    assert w.tiebreaker.Some? ==> b[|b| - 1] == TiebreakerLine(w);
    assert |a| == 2 + |When(v.disk.Some?, MetaLine(v))| + |When(v.tiebreaker.Some?, TiebreakerLine(v))|;
    assert |b| == 2 + |When(w.disk.Some?, MetaLine(w))| + |When(w.tiebreaker.Some?, TiebreakerLine(w))|;
    if v.tiebreaker.Some? && w.tiebreaker.Some? {
      WrappedEqual("tiebreaker ", if v.tiebreaker == Some(true) then "yes" else "no",
                   if w.tiebreaker == Some(true) then "yes" else "no");
      assert |"yes"| == 3 && |"no"| == 2;
      assert v.tiebreaker.value == w.tiebreaker.value;
      assert v.tiebreaker == Some(v.tiebreaker.value) && w.tiebreaker == Some(w.tiebreaker.value);
    }
  }

  /** A configuration determines what is said of every volume. */
  lemma VolumeDetermined(me: Own, r: ResourceInfo, me': Own, r': ResourceInfo, i: nat, k: nat)
    requires CleanState(me, r) && CleanState(me', r')
    requires |r.nodes| == |r'.nodes| && i < |r.nodes|
    requires k < |r.nodes[i].volumes| && k < |r'.nodes[i].volumes|
    requires Config(me, r) == Config(me', r')
    ensures VolumeLines(r.nodes[i].volumes[k]) == VolumeLines(r'.nodes[i].volumes[k])
  {
    hide Config, Parse, CleanState, VolumeLines;
    var v, w := r.nodes[i].volumes[k], r'.nodes[i].volumes[k];
    ReadResource(me, r);
    ReadResource(me', r');
    ReadParts(me, r);
    ReadParts(me', r');
    ReadHost(r.nodes[i]);
    ReadHost(r'.nodes[i]);
    assert NormEntry(HostEntries(r.nodes)[i]) == NormEntry(HostEntries(r'.nodes)[i]);
    assert NormEntry(VolumeEntries(r.nodes[i].volumes)[k]) == NormEntry(VolumeEntries(r'.nodes[i].volumes)[k]);
    VolumeStatements(k, v);
    VolumeStatements(k, w);
  }

  /** A configuration determines the minor of every volume. */
  lemma MinorDetermined(v: VolumeInfo, w: VolumeInfo)
    requires VolumeLines(v) == VolumeLines(w)
    ensures v.minor == w.minor
  {
    assert VolumeLines(v)[0] == DeviceLine(v) && VolumeLines(w)[0] == DeviceLine(w);
    WrappedEqual("device /dev/drbd", Dec(v.minor), Dec(w.minor));
    DecInjective(v.minor, w.minor);
  }

  /** A configuration determines the host of every node. */
  lemma HostnameDetermined(me: Own, r: ResourceInfo, me': Own, r': ResourceInfo, i: nat)
    requires CleanState(me, r) && CleanState(me', r')
    requires |r.nodes| == |r'.nodes| && i < |r.nodes|
    requires Config(me, r) == Config(me', r')
    ensures r.nodes[i].hostname == r'.nodes[i].hostname
  {
    hide Config, Parse, CleanState;
    ReadResource(me, r);
    ReadResource(me', r');
    ReadParts(me, r);
    ReadParts(me', r');
    var a, b := HostEntry(r.nodes[i]), HostEntry(r'.nodes[i]);
    assert NormEntry(HostEntries(r.nodes)[i]) == NormEntry(HostEntries(r'.nodes)[i]);
    assert a.0 == b.0;
    assert a.0[3..] == r.nodes[i].hostname && b.0[3..] == r'.nodes[i].hostname;
  }

  lemma OneStatementMore(lines: seq<string>, last: string)
    ensures Texts(Norm(Statements(lines + [last]))) == Texts(Norm(Statements(lines))) + Texts(Norm(Line(last, Nil)))
  {
    hide Texts, Norm;
    assert (lines + [last])[..|lines|] == lines;
    TextsThen(Statements(lines), Line(last, Nil));
  }

  lemma FencingText(me: Own)
    ensures Texts(Norm(Line(FencingLine(me), Nil))) == [FencingLine(me)]
  {
    assert FencingLine(me)[0] == 'f';
    assert Trim(FencingLine(me)) == FencingLine(me);
  }

  lemma NetStatements(me: Own, r: ResourceInfo)
    ensures var rest := When(r.transport != "", TransportLine(r)) + When(r.tls == "yes", TlsLine(r));
            Texts(Norm(NetEntry(me, r).1))
            == Texts(Norm(Statements(rest))) + When(me.fencing != "", FencingLine(me)) + Texts(Norm(Line(r.netOptions, Nil)))
  {
    hide TransportLine, TlsLine, FencingLine, Texts, Norm, Statements;
    var rest := When(r.transport != "", TransportLine(r)) + When(r.tls == "yes", TlsLine(r));
    OneStatementMore(rest + When(me.fencing != "", FencingLine(me)), r.netOptions);
    FencingText(me);
    if me.fencing != "" {
      OneStatementMore(rest, FencingLine(me));
    } else {
      assert rest + [] == rest;
    }
  }

  lemma NetRead(me: Own, r: ResourceInfo)
    ensures |Blocks(Norm(BlockList(ResourceEntries(me, r))))| > 3
    ensures Blocks(Norm(BlockList(ResourceEntries(me, r))))[3] == NormEntry(NetEntry(me, r))
  {
    hide HandlersEntry, OptionsEntry, DiskEntry, NetEntry, ProxyEntry, HostEntries, ConnectionEntries;
    BlocksOfList(ResourceEntries(me, r));
    assert ResourceEntries(me, r)[3] == NetEntry(me, r);
  }

  /** The configurations of two nodes of one resource determine their fencing modes. */
  lemma FencingDetermined(me: Own, me': Own, r: ResourceInfo)
    requires CleanState(me, r) && CleanState(me', r) && Config(me, r) == Config(me', r)
    ensures me.fencing == me'.fencing
  {
    hide Config, Parse, CleanState, NetEntry, TransportLine, TlsLine, Texts;
    ReadResource(me, r);
    ReadResource(me', r);
    NetRead(me, r);
    NetRead(me', r);
    NetStatements(me, r);
    NetStatements(me', r);
    var a, b := When(me.fencing != "", FencingLine(me)), When(me'.fencing != "", FencingLine(me'));
    var before := Texts(Norm(Statements(When(r.transport != "", TransportLine(r)) + When(r.tls == "yes", TlsLine(r)))));
    var after := Texts(Norm(Line(r.netOptions, Nil)));
    assert before + a + after == before + b + after;
    MiddleEqual(before, a, b, after);
    if me.fencing != "" {
      assert a[0] == FencingLine(me) && b[0] == FencingLine(me');
      WrappedEqual("fencing ", me.fencing, me'.fencing);
    }
  }

  lemma MiddleEqual<T>(before: seq<T>, a: seq<T>, b: seq<T>, after: seq<T>)
    requires before + a + after == before + b + after
    ensures a == b
  {
    assert (before + a + after)[|before|..|before| + |a|] == a;
    assert (before + b + after)[|before|..|before| + |b|] == b;
  }

  lemma VolumeStatements(position: nat, v: VolumeInfo)
    ensures Texts(Norm(VolumeEntry(position, v).1)) == VolumeLines(v)
  {
    LineStarts(v);
    TextsOfStatements(VolumeLines(v));
  }

  /** Two nodes that differ in what they know of their volumes only, and not in what is
      said of them. */
  predicate SameNode(n: NodeInfo, m: NodeInfo) {
    n.(volumes := []) == m.(volumes := []) && |n.volumes| == |m.volumes|
    && forall k :: 0 <= k < |n.volumes| ==> VolumeLines(n.volumes[k]) == VolumeLines(m.volumes[k])
  }

  lemma SameEntry(n: NodeInfo, m: NodeInfo)
    requires SameNode(n, m)
    ensures HostEntry(n) == HostEntry(m)
  {
    hide VolumeLines;
    assert VolumeEntries(n.volumes) == VolumeEntries(m.volumes);
  }

  lemma SameConnection(n1: NodeInfo, n2: NodeInfo, m1: NodeInfo, m2: NodeInfo)
    requires n1.(volumes := []) == m1.(volumes := []) && n2.(volumes := []) == m2.(volumes := [])
    ensures ConnectionEntry(n1, n2) == ConnectionEntry(m1, m2)
  {
    hide PathEntry;
    forall k | 0 <= k < |PathEntries(n1, n2)|
      ensures PathEntries(n1, n2)[k] == PathEntries(m1, m2)[k]
    {
      SamePath(n1, n2, m1, m2, k);
    }
    assert PathEntries(n1, n2) == PathEntries(m1, m2);
  }

  lemma SamePath(n1: NodeInfo, n2: NodeInfo, m1: NodeInfo, m2: NodeInfo, k: nat)
    requires n1.(volumes := []) == m1.(volumes := []) && n2.(volumes := []) == m2.(volumes := [])
    requires k < |n1.addrs| && k < |n2.addrs|
    ensures PathEntry(n1, n1.addrs[k], n2, n2.addrs[k]) == PathEntry(m1, m1.addrs[k], m2, m2.addrs[k])
  {
  }

  /** Such nodes are interchangeable. */
  lemma SameConfig(me: Own, r: ResourceInfo, r': ResourceInfo)
    requires r.(nodes := []) == r'.(nodes := []) && |r.nodes| == |r'.nodes|
    requires forall i :: 0 <= i < |r.nodes| ==> SameNode(r.nodes[i], r'.nodes[i])
    ensures Config(me, r) == Config(me, r')
  {
    hide HostEntry, ConnectionEntry, BlockList, FormatAll, Print;
    forall i | 0 <= i < |r.nodes|
      ensures HostEntry(r.nodes[i]) == HostEntry(r'.nodes[i])
    {
      SameEntry(r.nodes[i], r'.nodes[i]);
    }
    assert HostEntries(r.nodes) == HostEntries(r'.nodes);
    var ps := NodePairs(|r.nodes|, |r.nodes|);
    forall k | 0 <= k < |ps|
      ensures PairEntry(r.nodes, ps[k]) == PairEntry(r'.nodes, ps[k])
    {
      if ps[k].0 < |r.nodes| && ps[k].1 < |r.nodes| {
        assert SameNode(r.nodes[ps[k].0], r'.nodes[ps[k].0]) && SameNode(r.nodes[ps[k].1], r'.nodes[ps[k].1]);
        SameConnection(r.nodes[ps[k].0], r.nodes[ps[k].1], r'.nodes[ps[k].0], r'.nodes[ps[k].1]);
      }
    }
    assert ConnectionEntries(r.nodes, ps) == ConnectionEntries(r'.nodes, ps);
    SameFixed(me, r, r');
  }

  lemma SameFixed(me: Own, r: ResourceInfo, r': ResourceInfo)
    requires r.(nodes := []) == r'.(nodes := [])
    ensures FixedEntries(me, r) == FixedEntries(me, r')
  {
  }
}
