/** python/drbdtest.py, ConfigBlock and Node.config, as they are written: blocks
    are objects on a stack that belongs to the class, every block writes to the
    text of the block that was open when it was created. */
module ConfigWriter {
  import opened Wrappers
  import opened ConfigText
  import opened NodeConfig
  import opened ConfigMeaning

  /** The list of strings that config() collects. */
  class TextBuffer {
    var text: string

    constructor ()
      ensures text == ""
    {
      text := "";
    }
  }

  class ConfigBlock {
    const parent: ConfigBlock?
    const name: string
    const indent: string
    const out: TextBuffer

    /** `parent` is null for a block created below the sentinel "top". */
    constructor (parent: ConfigBlock?, name: string, indent: string, out: TextBuffer)
      ensures this.parent == parent && this.name == name && this.indent == indent && this.out == out
    {
      this.parent, this.name, this.indent, this.out := parent, name, indent, out;
    }
  }

  /** The class-level stack; the sentinel "top" below the blocks is left implicit. */
  class BlockStack {
    var blocks: seq<ConfigBlock>

    constructor ()
      ensures blocks == []
    {
      blocks := [];
    }

    /** Every block's indentation is that of its place in the stack, its parent is
        the block below, and all blocks write to the same text. */
    ghost predicate Valid(t: TextBuffer)
      reads this
    {
      (forall k :: 0 <= k < |blocks| ==> blocks[k].indent == BlockIndent(k + 1) && blocks[k].out == t)
      && (forall j, k :: 0 <= j < k < |blocks| && k == j + 1 ==> blocks[k].parent == blocks[j])
    }
  }

  /** What writing the contents f does, the stack having `len` entries: it fails
      exactly when a statement cannot be formatted, and otherwise adds the printed
      contents to the text. */
  ghost predicate Emitted(ok: bool, before: string, after: string, f: Forest, len: nat)
    requires len >= 1
  {
    var g := FormatAll(f);
    (ok <==> g.Some?) && (ok ==> after == before + Print(g.value, len))
  }

  lemma EmittedThen(ok: bool, a: string, b: string, c: string, f: Forest, g: Forest, len: nat)
    requires len >= 1
    requires Emitted(true, a, b, f, len) && Emitted(ok, b, c, g, len)
    ensures Emitted(ok, a, c, f.Then(g), len)
  {
    FormatThen(f, g);
    if ok {
      PrintThen(FormatAll(f).value, FormatAll(g).value, len);
      Assoc(a, Print(FormatAll(f).value, len), Print(FormatAll(g).value, len));
    }
  }

  lemma EmittedBlock(ok: bool, a: string, inner: string, e: Entry, len: nat)
    requires len >= 1
    requires Emitted(ok, a + Header(e.0, len), inner, e.1, len + 1)
    ensures Emitted(ok, a, inner + Footer(len), Block(e), len)
  {
    if ok {
      var b := Print(FormatAll(e.1).value, len + 1);
      assert Print(Nil, len) == "";
      assert Footer(len) + "" == Footer(len);
      Assoc(a, Header(e.0, len), b + Footer(len));
      Assoc(a + Header(e.0, len), b, Footer(len));
    }
  }

  /** A part that fails makes the whole fail. */
  lemma EmittedFails(a: string, b: string, c: string, d: string, f: Forest, g: Forest, h: Forest, len: nat)
    requires len >= 1
    requires Emitted(false, a, b, g, len)
    ensures Emitted(false, c, d, f.Then(g).Then(h), len)
  {
    FormatThen(f, g);
    FormatThen(f.Then(g), h);
  }

  // ---- statements and blocks one after the other ----

  lemma LinesStart(a: string, lines: seq<string>, len: nat)
    requires len >= 1
    ensures Emitted(true, a, a, Statements(lines[..0]), len)
  {
  }

  lemma LinesNext(ok: bool, a: string, b: string, c: string, lines: seq<string>, i: nat, len: nat)
    requires len >= 1 && i < |lines|
    requires Emitted(true, a, b, Statements(lines[..i]), len) && Emitted(ok, b, c, Line(lines[i], Nil), len)
    ensures Emitted(ok, a, c, Statements(lines[..i + 1]), len)
  {
    assert lines[..i + 1][..i] == lines[..i];
    EmittedThen(ok, a, b, c, Statements(lines[..i]), Line(lines[i], Nil), len);
  }

  lemma {:induction false} LinesFail(a: string, c: string, lines: seq<string>, i: nat, len: nat)
    requires len >= 1 && i <= |lines|
    requires Emitted(false, a, c, Statements(lines[..i]), len)
    ensures Emitted(false, a, c, Statements(lines), len)
    decreases |lines|
  {
    if i == |lines| {
      assert lines[..i] == lines;
    } else {
      var n := |lines| - 1;
      assert lines[..n][..i] == lines[..i];
      LinesFail(a, c, lines[..n], i, len);
      FormatThen(Statements(lines[..n]), Line(lines[n], Nil));
    }
  }

  lemma BlocksStart(a: string, es: seq<Entry>, len: nat)
    requires len >= 1
    ensures Emitted(true, a, a, BlockList(es[..0]), len)
  {
  }

  lemma BlocksNext(ok: bool, a: string, b: string, c: string, es: seq<Entry>, i: nat, len: nat)
    requires len >= 1 && i < |es|
    requires Emitted(true, a, b, BlockList(es[..i]), len) && Emitted(ok, b, c, Block(es[i]), len)
    ensures Emitted(ok, a, c, BlockList(es[..i + 1]), len)
  {
    assert es[..i + 1][..i] == es[..i];
    EmittedThen(ok, a, b, c, BlockList(es[..i]), Block(es[i]), len);
  }

  lemma BlocksFail(a: string, c: string, es: seq<Entry>, i: nat, len: nat)
    requires len >= 1 && i <= |es|
    requires Emitted(false, a, c, BlockList(es[..i]), len)
    ensures Emitted(false, a, c, BlockList(es), len)
  {
    assert es == es[..i] + es[i..];
    BlockListConcat(es[..i], es[i..]);
    FormatThen(BlockList(es[..i]), BlockList(es[i..]));
  }

  lemma {:induction false} BlockListConcat(a: seq<Entry>, b: seq<Entry>)
    ensures BlockList(a + b) == BlockList(a).Then(BlockList(b))
    decreases |b|
  {
    if b == [] {
      assert a + b == a;
      ThenNil(BlockList(a));
    } else {
      var n := |b| - 1;
      assert (a + b)[..|a + b| - 1] == a + b[..n];
      BlockListConcat(a, b[..n]);
      ThenAssoc(BlockList(a), BlockList(b[..n]), Block(b[n]));
    }
  }

  lemma {:induction false} ThenNil(f: Forest)
    ensures f.Then(Nil) == f
  {
    match f
    case Nil =>
    case Line(_, rest) => ThenNil(rest);
    case Sub(_, _, rest) => ThenNil(rest);
  }

  lemma {:induction false} ThenAssoc(f: Forest, g: Forest, h: Forest)
    ensures f.Then(g).Then(h) == f.Then(g.Then(h))
  {
    match f
    case Nil =>
    case Line(_, rest) => ThenAssoc(rest, g, h);
    case Sub(_, _, rest) => ThenAssoc(rest, g, h);
  }

  // ---- ConfigBlock's own methods ----

  /** `__init__` and `__enter__`: a block below "top" takes the given destination. */
  method Enter(st: BlockStack, t: TextBuffer, name: string) returns (b: ConfigBlock)
    requires st.Valid(t)
    modifies st`blocks, t
    ensures st.Valid(t) && st.blocks == old(st.blocks) + [b]
    ensures t.text == old(t.text) + Header(name, |old(st.blocks)| + 1)
  {
    var indent := BlockIndent(|st.blocks| + 1);
    if st.blocks != [] {
      var parent := st.blocks[|st.blocks| - 1];
      b := new ConfigBlock(parent, name, indent, parent.out);
    } else {
      b := new ConfigBlock(null, name, indent, t);
    }
    st.blocks := st.blocks + [b];
    b.out.text := b.out.text + (b.indent + b.name + " {\n");
  }

  /** `__exit__`: the assertion that the block popped is the one being left is
      proved here, for every place that leaves a block. */
  method Exit(st: BlockStack, t: TextBuffer, b: ConfigBlock)
    requires st.Valid(t) && st.blocks != [] && st.blocks[|st.blocks| - 1] == b
    modifies st`blocks, t
    ensures st.Valid(t) && st.blocks == old(st.blocks)[..|old(st.blocks)| - 1]
    ensures t.text == old(t.text) + Footer(|old(st.blocks)|)
  {
    b.out.text := b.out.text + (b.indent + "}\n\n");
    var popped := st.blocks[|st.blocks| - 1];
    st.blocks := st.blocks[..|st.blocks| - 1];
    assert popped == b;
    assert forall k :: 0 <= k < |st.blocks| ==> st.blocks[k] == old(st.blocks)[k];
  }

  /** `write` with no further arguments; a failure is Python's exception. */
  method Write(st: BlockStack, t: TextBuffer, b: ConfigBlock, data: string) returns (ok: bool)
    requires st.Valid(t) && st.blocks != [] && st.blocks[|st.blocks| - 1] == b
    modifies t
    ensures Emitted(ok, old(t.text), t.text, Line(data, Nil), |st.blocks| + 1)
  {
    var formatted := Format(data);
    if formatted.None? {
      return false;
    }
    var content := b.indent + INDENT + formatted.value;
    b.out.text := b.out.text + EndLine(content);
    assert Print(Nil, |st.blocks| + 1) == "";
    assert LineText(formatted.value, |st.blocks| + 1) + "" == LineText(formatted.value, |st.blocks| + 1);
    ok := true;
  }

  // ---- Node.config ----

  /** The statements of one block. */
  method WriteLines(st: BlockStack, t: TextBuffer, b: ConfigBlock, lines: seq<string>) returns (ok: bool)
    requires st.Valid(t) && st.blocks != [] && st.blocks[|st.blocks| - 1] == b
    modifies t
    ensures Emitted(ok, old(t.text), t.text, Statements(lines), |st.blocks| + 1)
  {
    hide *;
    ghost var len := |st.blocks| + 1;
    LinesStart(t.text, lines, len);
    for i := 0 to |lines|
      invariant Emitted(true, old(t.text), t.text, Statements(lines[..i]), len)
    {
      ghost var before := t.text;
      ok := Write(st, t, b, lines[i]);
      LinesNext(ok, old(t.text), before, t.text, lines, i, len);
      if !ok {
        LinesFail(old(t.text), t.text, lines, i + 1, len);
        return;
      }
    }
    assert lines[..|lines|] == lines;
    ok := true;
  }

  /** A block of statements only; an exception in one of them leaves the block too. */
  method WriteBlock(st: BlockStack, t: TextBuffer, name: string, lines: seq<string>) returns (ok: bool)
    requires st.Valid(t)
    modifies st`blocks, t
    ensures st.Valid(t) && st.blocks == old(st.blocks)
    ensures Emitted(ok, old(t.text), t.text, Block((name, Statements(lines))), |st.blocks| + 1)
  {
    hide *;
    var b := Enter(st, t, name);
    ok := WriteLines(st, t, b, lines);
    EmittedBlock(ok, old(t.text), t.text, (name, Statements(lines)), |st.blocks|);
    Exit(st, t, b);
  }

  function StatementBlocks(n: nat, block: nat -> (string, seq<string>)): (es: seq<Entry>)
    ensures |es| == n
  {
    seq(n, i requires 0 <= i < n => (block(i).0, Statements(block(i).1)))
  }

  lemma StatementBlockAt(n: nat, block: nat -> (string, seq<string>), i: nat)
    requires i < n
    ensures StatementBlocks(n, block)[i] == (block(i).0, Statements(block(i).1))
  {
  }

  /** Statement blocks one after the other, the i-th with the given name and lines. */
  method WriteBlocks(st: BlockStack, t: TextBuffer, n: nat, block: nat -> (string, seq<string>)) returns (ok: bool)
    requires st.Valid(t)
    modifies st`blocks, t
    ensures st.Valid(t) && st.blocks == old(st.blocks)
    ensures Emitted(ok, old(t.text), t.text, BlockList(StatementBlocks(n, block)), |st.blocks| + 1)
  {
    hide *;
    ghost var es, len := StatementBlocks(n, block), |st.blocks| + 1;
    BlocksStart(t.text, es, len);
    for i := 0 to n
      invariant st.Valid(t) && st.blocks == old(st.blocks)
      invariant Emitted(true, old(t.text), t.text, BlockList(es[..i]), len)
    {
      ghost var before := t.text;
      ok := WriteBlock(st, t, block(i).0, block(i).1);
      StatementBlockAt(n, block, i);
      BlocksNext(ok, old(t.text), before, t.text, es, i, len);
      if !ok {
        BlocksFail(old(t.text), t.text, es, i + 1, len);
        return;
      }
    }
    assert es[..n] == es;
    ok := true;
  }

  /** A block of some statements and then some statement blocks. */
  method WriteLinesAndBlocks(st: BlockStack, t: TextBuffer, name: string, lines: seq<string>,
                             n: nat, block: nat -> (string, seq<string>)) returns (ok: bool)
    requires st.Valid(t)
    modifies st`blocks, t
    ensures st.Valid(t) && st.blocks == old(st.blocks)
    ensures Emitted(ok, old(t.text), t.text,
                    Block((name, Statements(lines).Then(BlockList(StatementBlocks(n, block))))), |st.blocks| + 1)
  {
    hide *;
    ghost var len := |st.blocks| + 2;
    ghost var f, g := Statements(lines), BlockList(StatementBlocks(n, block));
    var b := Enter(st, t, name);
    ghost var start := t.text;
    ok := WriteLines(st, t, b, lines);
    if ok {
      ghost var before := t.text;
      ok := WriteBlocks(st, t, n, block);
      EmittedThen(ok, start, before, t.text, f, g, len);
    } else {
      EmittedFirstFails(start, t.text, f, g, len);
    }
    EmittedBlock(ok, old(t.text), t.text, (name, f.Then(g)), |st.blocks|);
    Exit(st, t, b);
  }

  lemma EmittedFirstFails(a: string, b: string, f: Forest, g: Forest, len: nat)
    requires len >= 1 && Emitted(false, a, b, f, len)
    ensures Emitted(false, a, b, f.Then(g), len)
  {
    FormatThen(f, g);
  }

  /** `config_host` */
  method WriteHost(st: BlockStack, t: TextBuffer, n: NodeInfo) returns (ok: bool)
    requires st.Valid(t)
    modifies st`blocks, t
    ensures st.Valid(t) && st.blocks == old(st.blocks)
    ensures Emitted(ok, old(t.text), t.text, Block(HostEntry(n)), |st.blocks| + 1)
  {
    hide *;
    var vs := n.volumes;
    var block := i => if 0 <= i < |vs| then (VolumeEntry(i, vs[i]).0, VolumeLines(vs[i])) else ("", []);
    HostAsStatements(n, block);
    ok := WriteLinesAndBlocks(st, t, "on " + n.hostname, [IdLine(n)], |vs|, block);
  }

  lemma HostAsStatements(n: NodeInfo, block: nat -> (string, seq<string>))
    requires forall i :: 0 <= i < |n.volumes| ==> block(i) == (VolumeEntry(i, n.volumes[i]).0, VolumeLines(n.volumes[i]))
    ensures ("on " + n.hostname, Statements([IdLine(n)]).Then(BlockList(StatementBlocks(|n.volumes|, block)))) == HostEntry(n)
  {
    assert StatementBlocks(|n.volumes|, block) == VolumeEntries(n.volumes);
  }

  /** `_config_one_connection` */
  method WriteConnection(st: BlockStack, t: TextBuffer, n1: NodeInfo, n2: NodeInfo) returns (ok: bool)
    requires st.Valid(t)
    modifies st`blocks, t
    ensures st.Valid(t) && st.blocks == old(st.blocks)
    ensures Emitted(ok, old(t.text), t.text, Block(ConnectionEntry(n1, n2)), |st.blocks| + 1)
  {
    hide *;
    var paths := if |n1.addrs| <= |n2.addrs| then |n1.addrs| else |n2.addrs|;
    var block := i => if i == 0 then ("net", [])
                      else if 0 < i <= paths
                      then ("path", [AddressLine(n1, n1.addrs[i - 1]), AddressLine(n2, n2.addrs[i - 1])])
                      else ("", []);
    ConnectionAsStatements(n1, n2, paths, block);
    ok := WriteLinesAndBlocks(st, t, "connection", [], 1 + paths, block);
  }

  lemma ConnectionAsStatements(n1: NodeInfo, n2: NodeInfo, paths: nat, block: nat -> (string, seq<string>))
    requires paths == if |n1.addrs| <= |n2.addrs| then |n1.addrs| else |n2.addrs|
    requires block(0) == ("net", [])
    requires forall i :: 0 < i <= paths ==>
               block(i) == ("path", [AddressLine(n1, n1.addrs[i - 1]), AddressLine(n2, n2.addrs[i - 1])])
    ensures ("connection", Statements([]).Then(BlockList(StatementBlocks(1 + paths, block)))) == ConnectionEntry(n1, n2)
  {
    assert Statements([]) == Nil;
    assert StatementBlocks(1 + paths, block) == [("net", Nil)] + PathEntries(n1, n2);
  }

  /** The statements of the disk block; Python's substring test is a search here. */
  method CollectDiskLines(me: Own, r: ResourceInfo) returns (lines: seq<string>)
    ensures lines == DiskLines(me, r)
  {
    var found := Contains("c-min-rate", r.diskOptions);
    lines := ["disk-flushes no;", "md-flushes no;"];
    if !found && me.osId == "ubuntu" && me.osVersion == "18.04" {
      lines := lines + ["c-min-rate 0;"];
    }
    lines := lines + [r.diskOptions];
  }

  method Contains(needle: string, s: string) returns (found: bool)
    ensures found <==> Occurs(needle, s)
  {
    var i := 0;
    while i + |needle| <= |s|
      invariant 0 <= i && forall j :: j < i ==> !OccursAt(needle, s, j)
    {
      if OccursAt(needle, s, i) {
        return true;
      }
      i := i + 1;
    }
    return false;
  }

  /** The five blocks that do not depend on the nodes. */
  method WriteFixed(st: BlockStack, t: TextBuffer, me: Own, r: ResourceInfo) returns (ok: bool)
    requires st.Valid(t)
    modifies st`blocks, t
    ensures st.Valid(t) && st.blocks == old(st.blocks)
    ensures Emitted(ok, old(t.text), t.text, BlockList(FixedEntries(me, r)), |st.blocks| + 1)
  {
    hide *;
    var diskLines := CollectDiskLines(me, r);
    var netLines := NetLines(me, r);
    var block := i => if i == 0 then ("handlers", [r.handlers])
                      else if i == 1 then ("options", [r.resourceOptions])
                      else if i == 2 then ("disk", diskLines)
                      else if i == 3 then ("net", netLines)
                      else ("proxy", []);
    FixedAsStatements(me, r, block);
    ok := WriteBlocks(st, t, 5, block);
  }

  lemma FixedAsStatements(me: Own, r: ResourceInfo, block: nat -> (string, seq<string>))
    requires block(0) == ("handlers", [r.handlers]) && block(1) == ("options", [r.resourceOptions])
    requires block(2) == ("disk", DiskLines(me, r)) && block(3) == ("net", NetLines(me, r))
    requires block(4) == ("proxy", [])
    ensures StatementBlocks(5, block) == FixedEntries(me, r)
  {
    var es := StatementBlocks(5, block);
    assert es[0] == HandlersEntry(r);
    assert es[1] == OptionsEntry(r);
    assert es[2] == DiskEntry(me, r);
    assert es[3] == NetEntry(me, r);
    assert es[4] == ProxyEntry();
  }

  method WriteHosts(st: BlockStack, t: TextBuffer, ns: seq<NodeInfo>) returns (ok: bool)
    requires st.Valid(t)
    modifies st`blocks, t
    ensures st.Valid(t) && st.blocks == old(st.blocks)
    ensures Emitted(ok, old(t.text), t.text, BlockList(HostEntries(ns)), |st.blocks| + 1)
  {
    hide *;
    ghost var es, len := HostEntries(ns), |st.blocks| + 1;
    HostEntriesCount(ns);
    BlocksStart(t.text, es, len);
    for i := 0 to |ns|
      invariant st.Valid(t) && st.blocks == old(st.blocks)
      invariant Emitted(true, old(t.text), t.text, BlockList(es[..i]), len)
    {
      ghost var before := t.text;
      ok := WriteHost(st, t, ns[i]);
      BlocksNext(ok, old(t.text), before, t.text, es, i, len);
      if !ok {
        BlocksFail(old(t.text), t.text, es, i + 1, len);
        return;
      }
    }
    assert es[..|ns|] == es;
    ok := true;
  }

  lemma HostEntriesCount(ns: seq<NodeInfo>)
    ensures |HostEntries(ns)| == |ns|
    ensures forall i :: 0 <= i < |ns| ==> HostEntries(ns)[i] == HostEntry(ns[i])
  {
  }

  /** `_config_conns_9`: the double loop over the nodes. */
  method WriteConnections(st: BlockStack, t: TextBuffer, ns: seq<NodeInfo>) returns (ok: bool)
    requires st.Valid(t)
    modifies st`blocks, t
    ensures st.Valid(t) && st.blocks == old(st.blocks)
    ensures Emitted(ok, old(t.text), t.text, BlockList(ConnectionEntries(ns, NodePairs(|ns|, |ns|))), |st.blocks| + 1)
  {
    hide *;
    ghost var len := |st.blocks| + 1;
    NoPairs(t.text, ns, len);
    ok := true;
    for start := 0 to |ns|
      invariant ok && st.Valid(t) && st.blocks == old(st.blocks)
      invariant Emitted(true, old(t.text), t.text, BlockList(ConnectionEntries(ns, NodePairs(start, |ns|))), len)
    {
      ghost var before := t.text;
      ok := WriteConnectionRow(st, t, ns, start);
      RowDone(ok, old(t.text), before, t.text, ns, start, len);
      if !ok {
        return;
      }
    }
  }

  /** The inner loop, for the node at position `start`. */
  method WriteConnectionRow(st: BlockStack, t: TextBuffer, ns: seq<NodeInfo>, start: nat) returns (ok: bool)
    requires st.Valid(t) && start < |ns|
    modifies st`blocks, t
    ensures st.Valid(t) && st.blocks == old(st.blocks)
    ensures Emitted(ok, old(t.text), t.text, BlockList(ConnectionEntries(ns, RowOfPairs(start, |ns|))), |st.blocks| + 1)
  {
    hide *;
    ghost var len := |st.blocks| + 1;
    EmptyRow(t.text, ns, start, len);
    ok := true;
    for j := start + 1 to |ns|
      invariant ok && st.Valid(t) && st.blocks == old(st.blocks)
      invariant Emitted(true, old(t.text), t.text, BlockList(ConnectionEntries(ns, RowOfPairs(start, j))), len)
    {
      ghost var before := t.text;
      ok := WriteConnection(st, t, ns[start], ns[j]);
      PairDone(ok, old(t.text), before, t.text, ns, start, j, len);
      if !ok {
        return;
      }
    }
  }

  lemma NoPairs(a: string, ns: seq<NodeInfo>, len: nat)
    requires len >= 1
    ensures Emitted(true, a, a, BlockList(ConnectionEntries(ns, NodePairs(0, |ns|))), len)
  {
    NothingEmitted(a, ConnectionEntries(ns, NodePairs(0, |ns|)), len);
  }

  lemma NothingEmitted(a: string, es: seq<Entry>, len: nat)
    requires len >= 1 && es == []
    ensures Emitted(true, a, a, BlockList(es), len)
  {
    assert BlockList(es) == Nil && FormatAll(Nil) == Some(Nil) && Print(Nil, len) == "" && a + "" == a;
  }

  lemma EmptyRow(a: string, ns: seq<NodeInfo>, i: nat, len: nat)
    requires len >= 1
    ensures Emitted(true, a, a, BlockList(ConnectionEntries(ns, RowOfPairs(i, i + 1))), len)
  {
    NothingEmitted(a, ConnectionEntries(ns, RowOfPairs(i, i + 1)), len);
  }

  /** After one round of the inner loop: the row goes on, or fails as a whole. */
  lemma PairDone(ok: bool, a: string, b: string, c: string, ns: seq<NodeInfo>, i: nat, j: nat, len: nat)
    requires len >= 1 && i < j < |ns|
    requires Emitted(true, a, b, BlockList(ConnectionEntries(ns, RowOfPairs(i, j))), len)
    requires Emitted(ok, b, c, Block(ConnectionEntry(ns[i], ns[j])), len)
    ensures ok ==> Emitted(true, a, c, BlockList(ConnectionEntries(ns, RowOfPairs(i, j + 1))), len)
    ensures !ok ==> Emitted(false, a, c, BlockList(ConnectionEntries(ns, RowOfPairs(i, |ns|))), len)
  {
    SingleBlock(ConnectionEntry(ns[i], ns[j]), ConnectionEntries(ns, [(i, j)]));
    PartDone(ok, a, b, c, ns, RowOfPairs(i, j), [(i, j)], RowAfter(i, j + 1, |ns|), len);
  }

  /** After one round of the outer loop. */
  lemma RowDone(ok: bool, a: string, b: string, c: string, ns: seq<NodeInfo>, i: nat, len: nat)
    requires len >= 1 && i < |ns|
    requires Emitted(true, a, b, BlockList(ConnectionEntries(ns, NodePairs(i, |ns|))), len)
    requires Emitted(ok, b, c, BlockList(ConnectionEntries(ns, RowOfPairs(i, |ns|))), len)
    ensures ok ==> Emitted(true, a, c, BlockList(ConnectionEntries(ns, NodePairs(i + 1, |ns|))), len)
    ensures !ok ==> Emitted(false, a, c, BlockList(ConnectionEntries(ns, NodePairs(|ns|, |ns|))), len)
  {
    PartDone(ok, a, b, c, ns, NodePairs(i, |ns|), RowOfPairs(i, |ns|), PairsFrom(i + 1, |ns|, |ns|), len);
  }

  lemma SingleBlock(e: Entry, es: seq<Entry>)
    requires es == [e]
    ensures BlockList(es) == Block(e)
  {
    assert es[..0] == [];
    assert BlockList(es[..0]) == Nil;
  }

  lemma PartDone(ok: bool, a: string, b: string, c: string, ns: seq<NodeInfo>,
                 ps: seq<(nat, nat)>, qs: seq<(nat, nat)>, rs: seq<(nat, nat)>, len: nat)
    requires len >= 1
    requires Emitted(true, a, b, BlockList(ConnectionEntries(ns, ps)), len)
    requires Emitted(ok, b, c, BlockList(ConnectionEntries(ns, qs)), len)
    ensures ok ==> Emitted(true, a, c, BlockList(ConnectionEntries(ns, ps + qs)), len)
    ensures !ok ==> Emitted(false, a, c, BlockList(ConnectionEntries(ns, ps + qs + rs)), len)
  {
    hide Emitted, BlockList, FormatAll, Print;
    var x, y, z := ConnectionEntries(ns, ps), ConnectionEntries(ns, qs), ConnectionEntries(ns, rs);
    assert ConnectionEntries(ns, ps + qs) == x + y;
    BlockListConcat(x, y);
    if ok {
      EmittedThen(ok, a, b, c, BlockList(x), BlockList(y), len);
    } else {
      assert ConnectionEntries(ns, ps + qs + rs) == x + y + z;
      BlockListConcat(x + y, z);
      EmittedFails(b, c, a, c, BlockList(x), BlockList(y), BlockList(z), len);
    }
  }

  /** The pairs of a row from position j on. */
  ghost function RowAfter(i: nat, j: nat, n: nat): (rest: seq<(nat, nat)>)
    requires i < j <= n
    ensures RowOfPairs(i, j) + rest == RowOfPairs(i, n)
    decreases n
  {
    if j == n then [] else RowAfter(i, j, n - 1) + [(i, n - 1)]
  }

  /** The pairs whose first position is at least i, and below m. */
  ghost function PairsFrom(i: nat, m: nat, n: nat): (rest: seq<(nat, nat)>)
    requires i <= m
    ensures NodePairs(i, n) + rest == NodePairs(m, n)
    decreases m
  {
    if i == m then [] else PairsFrom(i, m - 1, n) + RowOfPairs(m - 1, n)
  }

  /** The contents of the resource block. */
  method WriteBody(st: BlockStack, t: TextBuffer, me: Own, r: ResourceInfo) returns (ok: bool)
    requires st.Valid(t)
    modifies st`blocks, t
    ensures st.Valid(t) && st.blocks == old(st.blocks)
    ensures Emitted(ok, old(t.text), t.text, BlockList(ResourceEntries(me, r)), |st.blocks| + 1)
  {
    hide *;
    ghost var len := |st.blocks| + 1;
    ok := WriteFixed(st, t, me, r);
    ghost var mid := t.text;
    ghost var mid' := t.text;
    ghost var okHosts, okConnections := false, false;
    ghost var okFixed := ok;
    if ok {
      ok := WriteHosts(st, t, r.nodes);
      okHosts := ok;
      mid' := t.text;
      if ok {
        ok := WriteConnections(st, t, r.nodes);
        okConnections := ok;
      }
    }
    BodyDone(okFixed, okHosts, okConnections, old(t.text), mid, mid', t.text, me, r, len);
  }

  lemma BodyDone(okFixed: bool, okHosts: bool, okConnections: bool,
                 w: string, x: string, y: string, z: string, me: Own, r: ResourceInfo, len: nat)
    requires len >= 1
    requires Emitted(okFixed, w, x, BlockList(FixedEntries(me, r)), len)
    requires okFixed ==> Emitted(okHosts, x, y, BlockList(HostEntries(r.nodes)), len)
    requires okFixed && okHosts ==>
               Emitted(okConnections, y, z, BlockList(ConnectionEntries(r.nodes, NodePairs(|r.nodes|, |r.nodes|))), len)
    ensures Emitted(okFixed && okHosts && okConnections, w, z, BlockList(ResourceEntries(me, r)), len)
  {
    ThreeDone(okFixed, okHosts, okConnections, w, x, y, z,
              FixedEntries(me, r), HostEntries(r.nodes), ConnectionEntries(r.nodes, NodePairs(|r.nodes|, |r.nodes|)), len);
  }

  lemma ThreeDone(ok1: bool, ok2: bool, ok3: bool, w: string, x: string, y: string, z: string,
                  a: seq<Entry>, b: seq<Entry>, c: seq<Entry>, len: nat)
    requires len >= 1
    requires Emitted(ok1, w, x, BlockList(a), len)
    requires ok1 ==> Emitted(ok2, x, y, BlockList(b), len)
    requires ok1 && ok2 ==> Emitted(ok3, y, z, BlockList(c), len)
    ensures Emitted(ok1 && ok2 && ok3, w, z, BlockList(a + b + c), len)
  {
    hide Emitted, BlockList, FormatAll, Print;
    BlockListConcat(a, b);
    BlockListConcat(a + b, c);
    if !ok1 {
      EmittedFirstFails(w, x, BlockList(a), BlockList(b), len);
      EmittedFirstFails(w, x, BlockList(a + b), BlockList(c), len);
      FailureAnyText(w, x, z, BlockList(a + b + c), len);
    } else if !ok2 {
      EmittedFails(x, y, w, z, BlockList(a), BlockList(b), BlockList(c), len);
    } else {
      EmittedThen(true, w, x, y, BlockList(a), BlockList(b), len);
      EmittedThen(ok3, w, y, z, BlockList(a + b), BlockList(c), len);
    }
  }

  lemma FailureAnyText(a: string, b: string, c: string, f: Forest, len: nat)
    requires len >= 1 && Emitted(false, a, b, f, len)
    ensures Emitted(false, a, c, f, len)
  {
  }

  /** `config()`: the returned text is the value NodeConfig.Config, and an
      exception is raised exactly when that has none; either way the shared stack
      is left as it was found. */
  method WriteConfig(st: BlockStack, me: Own, r: ResourceInfo) returns (text: Option<string>)
    requires st.blocks == []
    modifies st`blocks
    ensures st.blocks == []
    ensures text == Config(me, r)
    ensures CleanState(me, r) ==>
              text.Some? && Parse(text.value).Some? && ResourceSays(Parse(text.value).value, me, r)
  {
    hide *;
    if CleanState(me, r) {
      ReaderFinds(me, r);
    }
    var t := new TextBuffer();
    EmptyStack(st, t);
    ghost var e := ("resource " + r.name, BlockList(ResourceEntries(me, r)));
    var root := Enter(st, t, "resource " + r.name);
    assert "" + Header(e.0, 1) == Header(e.0, 1);
    var ok := WriteBody(st, t, me, r);
    EmittedBlock(ok, "", t.text, e, 1);
    Exit(st, t, root);
    ConfigEmitted(ok, t.text, me, r);
    return if ok then Some(t.text) else None;
  }

  lemma EmptyStack(st: BlockStack, t: TextBuffer)
    requires st.blocks == []
    ensures st.Valid(t)
  {
  }

  lemma ConfigEmitted(ok: bool, text: string, me: Own, r: ResourceInfo)
    requires Emitted(ok, "", text, Block(("resource " + r.name, BlockList(ResourceEntries(me, r)))), 1)
    ensures Config(me, r) == if ok then Some(text) else None
  {
    if ok {
      assert "" + Print(FormatAll(Tree(me, r)).value, 1) == Print(FormatAll(Tree(me, r)).value, 1);
    }
  }
}
