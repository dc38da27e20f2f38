/** The packet filter of one host: the two chains that belong to the tests, the
    commands that change them, and which packets they cut (python/drbdtest.py,
    python/linuxplatformhelper.py). */
module Firewall {
  import opened Wrappers

  datatype Chain = Output | Input
  datatype Protocol = Tcp | Udp
  datatype Target = DROP | REJECT | LOG

  /** The header of a DRBD packet, as the string match of a rule looks for it. */
  datatype Header = Header(volume: int, packet: int)

  datatype Rule = Rule(
    chain: Chain, protocol: Protocol,
    source: Option<int>, sourcePort: Option<int>,
    destination: Option<int>, destinationPort: Option<int>,
    header: Option<Header>, target: Target)

  datatype Action = Insert | Append | Delete
  datatype Command = Command(action: Action, rule: Rule)

  /** Rules are looked at from the front. */
  datatype Chains = Chains(output: seq<Rule>, input: seq<Rule>)

  function ChainOf(c: Chains, chain: Chain): seq<Rule> {
    if chain == Output then c.output else c.input
  }

  function WithChain(c: Chains, chain: Chain, rules: seq<Rule>): Chains {
    if chain == Output then c.(output := rules) else c.(input := rules)
  }

  function WithoutFirst(rules: seq<Rule>, r: Rule): seq<Rule> {
    if rules == [] then []
    else if rules[0] == r then rules[1..]
    else [rules[0]] + WithoutFirst(rules[1..], r)
  }

  /** One iptables command: the new chains, or None when it fails.  Only a deletion
      can fail, for lack of such a rule. */
  function Execute(c: Chains, command: Command): Option<Chains> {
    var r := command.rule;
    var rules := ChainOf(c, r.chain);
    match command.action
    case Insert => Some(WithChain(c, r.chain, [r] + rules))
    case Append => Some(WithChain(c, r.chain, rules + [r]))
    case Delete => if r in rules then Some(WithChain(c, r.chain, WithoutFirst(rules, r))) else None
  }

  /** Commands run one after the other up to the first failure. */
  function ExecuteAll(c: Chains, commands: seq<Command>): (Chains, bool)
    decreases |commands|
  {
    if commands == [] then (c, true)
    else
      var next := Execute(c, commands[0]);
      if next.None? then (c, false) else ExecuteAll(next.value, commands[1..])
  }

  // ---- what a node blocks ----

  /** A network path of a resource, as seen from the node that blocks it: its own
      address and port, the peer's, the transport and the target; or one kind of
      DRBD packet on its way in, possibly only from the first address of a peer. */
  datatype Block =
    | Path(rdma: bool, address: int, port: int, peerAddress: int, peerPort: int, target: Target)
    | Packet(overUdp: bool, from: Option<int>, header: Header)

  const RDMA_PORT := 4791

  function PathRule(chain: Chain, sa: int, sp: Option<int>, da: int, dp: Option<int>, t: Target, p: Protocol): Rule {
    Rule(chain, p, Some(sa), sp, Some(da), dp, None, t)
  }

  function Rules(b: Block): seq<Rule> {
    match b
    case Path(true, a, p, pa, pp, t) =>
      [PathRule(Output, a, None, pa, Some(RDMA_PORT), t, Udp),
       PathRule(Input, pa, None, a, Some(RDMA_PORT), t, Udp)]
    case Path(false, a, p, pa, pp, t) =>
      [PathRule(Output, a, Some(p), pa, None, t, Tcp),
       PathRule(Output, a, None, pa, Some(pp), t, Tcp),
       PathRule(Input, pa, None, a, Some(p), t, Tcp),
       PathRule(Input, pa, Some(pp), a, None, t, Tcp)]
    case Packet(udp, from, h) =>
      [PacketRule(udp, from, h, LOG), PacketRule(udp, from, h, DROP)]
  }

  function PacketRule(udp: bool, from: Option<int>, h: Header, t: Target): Rule {
    Rule(Input, if udp then Udp else Tcp, from, None, None, None, Some(h), t)
  }

  function Commands(action: Action, rules: seq<Rule>): (cs: seq<Command>)
    ensures |cs| == |rules| && forall k :: 0 <= k < |rules| ==> cs[k] == Command(action, rules[k])
  {
    seq(|rules|, k requires 0 <= k < |rules| => Command(action, rules[k]))
  }

  function BlockCommands(b: Block): seq<Command> {
    Commands(if b.Path? then Insert else Append, Rules(b))
  }

  function UnblockCommands(b: Block): seq<Command> {
    Commands(Delete, Rules(b))
  }

  // ---- the source's operations ----

  /** A node as far as the filters need it. */
  datatype FilterNode = FilterNode(addrs: seq<int>, port: int)

  /** Blocks of the path with a number that both nodes have; None stands for the
      IndexError otherwise. */
  function PathBlock(me: FilterNode, peer: FilterNode, net: nat, rdma: bool, t: Target): Option<Block> {
    if net < |me.addrs| && net < |peer.addrs|
    then Some(Path(rdma, me.addrs[net], me.port, peer.addrs[net], peer.port, t)) else None
  }

  /** The source names only the first address of the peer. */
  function PacketBlock(peer: Option<FilterNode>, rdma: bool, volume: int, packet: int): Option<Block> {
    match peer
    case None => Some(Packet(rdma, None, Header(volume, packet)))
    case Some(n) => if n.addrs == [] then None else Some(Packet(rdma, Some(n.addrs[0]), Header(volume, packet)))
  }

  class HostFilter {
    var output: seq<Rule>
    var input: seq<Rule>

    function Current(): Chains
      reads this
    {
      Chains(output, input)
    }

    constructor ()
      ensures Current() == Chains([], [])
    {
      output, input := [], [];
    }

    method Iptables(c: Command) returns (ok: bool)
      modifies this
      ensures ok == Execute(old(Current()), c).Some?
      ensures Current() == if ok then Execute(old(Current()), c).value else old(Current())
    {
      var r := c.rule;
      var rules := if r.chain == Output then output else input;
      ok := true;
      match c.action {
        case Insert => rules := [r] + rules;
        case Append => rules := rules + [r];
        case Delete =>
          ok := r in rules;
          rules := RemoveFirst(rules, r);
      }
      if ok {
        if r.chain == Output { output := rules; } else { input := rules; }
      }
    }

    /** Raises, here returns false, at the first command that fails. */
    method Run(commands: seq<Command>) returns (ok: bool)
      modifies this
      ensures (Current(), ok) == ExecuteAll(old(Current()), commands)
    {
      ok := true;
      var i := 0;
      while i < |commands| && ok
        invariant i <= |commands|
        invariant if ok then ExecuteAll(old(Current()), commands) == ExecuteAll(Current(), commands[i..])
                  else ExecuteAll(old(Current()), commands) == (Current(), false)
      {
        ok := Iptables(commands[i]);
        i := i + 1;
      }
    }

    method BlockPath(me: FilterNode, peer: FilterNode, net: nat, rdma: bool, t: Target) returns (ok: bool)
      modifies this
      ensures var b := PathBlock(me, peer, net, rdma, t);
              (Current(), ok) == if b.None? then (old(Current()), false)
                                 else ExecuteAll(old(Current()), BlockCommands(b.value))
      ensures ok <==> net < |me.addrs| && net < |peer.addrs|
      ensures ok ==> forall p :: Cut(output, p) <==>
                old(Cut(output, p)) || (t != LOG && p.source == me.addrs[net] && p.destination == peer.addrs[net]
                                        && if rdma then p.protocol == Udp && p.destinationPort == 4791
                                           else p.protocol == Tcp && (p.sourcePort == me.port || p.destinationPort == peer.port))
      ensures ok ==> forall p :: Cut(input, p) <==>
                old(Cut(input, p)) || (t != LOG && p.source == peer.addrs[net] && p.destination == me.addrs[net]
                                       && if rdma then p.protocol == Udp && p.destinationPort == 4791
                                          else p.protocol == Tcp && (p.destinationPort == me.port || p.sourcePort == peer.port))
    {
      var b := PathBlock(me, peer, net, rdma, t);
      if b.None? {
        return false;
      }
      BlockCuts(Current(), b.value);
      assert ChainOf(Current(), Output) == output && ChainOf(Current(), Input) == input;
      ok := Run(BlockCommands(b.value));
      assert ChainOf(Current(), Output) == output && ChainOf(Current(), Input) == input;
    }

    method UnblockPath(me: FilterNode, peer: FilterNode, net: nat, rdma: bool, t: Target) returns (ok: bool)
      modifies this
      ensures var b := PathBlock(me, peer, net, rdma, t);
              (Current(), ok) == if b.None? then (old(Current()), false)
                                 else ExecuteAll(old(Current()), UnblockCommands(b.value))
    {
      var b := PathBlock(me, peer, net, rdma, t);
      if b.None? {
        return false;
      }
      ok := Run(UnblockCommands(b.value));
    }

    /** `_block_packet_type`, which runs one command for each target. */
    method BlockPacketType(peer: Option<FilterNode>, rdma: bool, volume: int, packet: int, add: bool)
      returns (ok: bool)
      modifies this
      ensures var b := PacketBlock(peer, rdma, volume, packet);
              (Current(), ok) ==
              if b.None? then (old(Current()), false)
              else ExecuteAll(old(Current()), if add then BlockCommands(b.value) else UnblockCommands(b.value))
      ensures output == old(output)
      ensures add ==> (ok <==> peer.None? || peer.value.addrs != [])
      ensures ok && add ==> forall p :: Cut(input, p) <==>
                old(Cut(input, p)) || (p.protocol == (if rdma then Udp else Tcp)
                                       && (peer.Some? ==> p.source == peer.value.addrs[0])
                                       && Header(volume := volume, packet := packet) in p.headers)
    {
      var b := PacketBlock(peer, rdma, volume, packet);
      if b.None? {
        return false;
      }
      BlockCuts(Current(), b.value);
      assert ChainOf(Current(), Input) == input;
      var targets := [LOG, DROP];
      ghost var all := if add then BlockCommands(b.value) else UnblockCommands(b.value);
      KeepsOutput(Current(), all);
      ok := true;
      var i := 0;
      while i < |targets| && ok
        invariant i <= |targets|
        invariant if ok then ExecuteAll(old(Current()), all) == ExecuteAll(Current(), all[i..])
                  else ExecuteAll(old(Current()), all) == (Current(), false)
      {
        var rule := PacketRule(b.value.overUdp, b.value.from, b.value.header, targets[i]);
        assert all[i] == Command(if add then Append else Delete, rule);
        ok := Iptables(Command(if add then Append else Delete, rule));
        i := i + 1;
      }
      assert ChainOf(Current(), Input) == input;
    }
  }

  method RemoveFirst(rules: seq<Rule>, r: Rule) returns (rest: seq<Rule>)
    ensures rest == WithoutFirst(rules, r)
  {
    var i := 0;
    while i < |rules| && rules[i] != r
      invariant i <= |rules|
      invariant WithoutFirst(rules, r) == rules[..i] + WithoutFirst(rules[i..], r)
    {
      i := i + 1;
    }
    rest := if i < |rules| then rules[..i] + rules[i + 1..] else rules;
  }

  // ---- blocking and unblocking undo each other ----

  function Contents(c: Chains): multiset<Rule> {
    multiset(c.output) + multiset(c.input)
  }

  /** Every rule stands in the chain it names. */
  ghost predicate WellPlaced(c: Chains) {
    (forall r :: r in c.output ==> r.chain == Output) && (forall r :: r in c.input ==> r.chain == Input)
  }

  lemma {:induction false} WithoutFirstContents(rules: seq<Rule>, r: Rule)
    ensures multiset(WithoutFirst(rules, r)) == multiset(rules) - multiset{r}
    ensures forall x :: x in WithoutFirst(rules, r) ==> x in rules
  {
    if rules != [] {
      assert rules == [rules[0]] + rules[1..];
      if rules[0] != r {
        WithoutFirstContents(rules[1..], r);
        assert multiset(WithoutFirst(rules, r)) == multiset{rules[0]} + multiset(WithoutFirst(rules[1..], r));
      }
    }
  }

  lemma ChainsContents(c: Chains, r: Rule, rules: seq<Rule>)
    requires WellPlaced(c)
    ensures Contents(WithChain(c, r.chain, rules))
            == Contents(c) - multiset(ChainOf(c, r.chain)) + multiset(rules)
    ensures r in Contents(c) <==> r in ChainOf(c, r.chain)
  {
  }

  /** What one command does to the contents of the chains, and when it fails. */
  lemma ExecuteContents(c: Chains, command: Command)
    requires WellPlaced(c)
    ensures Execute(c, command).None? <==> command.action == Delete && command.rule !in Contents(c)
    ensures Execute(c, command).Some? ==>
              var after := Execute(c, command).value;
              WellPlaced(after)
              && Contents(after) == if command.action == Delete then Contents(c) - multiset{command.rule}
                                    else Contents(c) + multiset{command.rule}
  {
    hide Contents, WithoutFirst;
    var r := command.rule;
    var rules := ChainOf(c, r.chain);
    assert multiset(rules) <= Contents(c) by { ChainBelow(c, r.chain); }
    match command.action
    case Insert =>
      assert multiset([r] + rules) == multiset(rules) + multiset{r};
      ChainsContents(c, r, [r] + rules);
    case Append =>
      assert multiset(rules + [r]) == multiset(rules) + multiset{r};
      ChainsContents(c, r, rules + [r]);
    case Delete =>
      WithoutFirstContents(rules, r);
      ChainsContents(c, r, WithoutFirst(rules, r));
  }

  lemma ChainBelow(c: Chains, chain: Chain)
    ensures multiset(ChainOf(c, chain)) <= Contents(c)
  {
  }

  lemma CommandsTail(action: Action, rules: seq<Rule>)
    requires rules != []
    ensures Commands(action, rules)[0] == Command(action, rules[0])
    ensures Commands(action, rules)[1..] == Commands(action, rules[1..])
  {
  }

  /** Adding rules never fails. */
  lemma {:induction false} AddedContents(c: Chains, action: Action, rules: seq<Rule>)
    requires WellPlaced(c) && action != Delete
    ensures var (after, ok) := ExecuteAll(c, Commands(action, rules));
            ok && WellPlaced(after) && Contents(after) == Contents(c) + multiset(rules)
    decreases |rules|
  {
    hide Execute, Contents, WellPlaced;
    if rules != [] {
      CommandsTail(action, rules);
      ExecuteContents(c, Command(action, rules[0]));
      AddedContents(Execute(c, Command(action, rules[0])).value, action, rules[1..]);
      assert rules == [rules[0]] + rules[1..];
    }
  }

  /** Deleting rules that are there never fails. */
  lemma {:induction false} DeletedContents(c: Chains, rules: seq<Rule>)
    requires WellPlaced(c) && multiset(rules) <= Contents(c)
    ensures var (after, ok) := ExecuteAll(c, Commands(Delete, rules));
            ok && WellPlaced(after) && Contents(after) == Contents(c) - multiset(rules)
    decreases |rules|
  {
    hide Execute, Contents, WellPlaced;
    if rules != [] {
      assert rules == [rules[0]] + rules[1..];
      assert multiset(rules) == multiset{rules[0]} + multiset(rules[1..]);
      assert rules[0] in Contents(c);
      CommandsTail(Delete, rules);
      ExecuteContents(c, Command(Delete, rules[0]));
      DeletedContents(Execute(c, Command(Delete, rules[0])).value, rules[1..]);
    }
  }

  /** Blocking and unblocking restores the contents of the chains. */
  lemma BlockUndone(c: Chains, b: Block)
    requires WellPlaced(c)
    ensures var (after, ok) := ExecuteAll(ExecuteAll(c, BlockCommands(b)).0, UnblockCommands(b));
            ok && Contents(after) == Contents(c)
  {
    hide Contents, WellPlaced, Rules;
    AddedContents(c, if b.Path? then Insert else Append, Rules(b));
    DeletedContents(ExecuteAll(c, BlockCommands(b)).0, Rules(b));
  }

  /** Unblocking what nobody blocks fails and changes nothing. */
  lemma UnblockFails(c: Chains, b: Block)
    requires WellPlaced(c) && Rules(b)[0] !in Contents(c)
    ensures ExecuteAll(c, UnblockCommands(b)) == (c, false)
  {
    hide Contents, Execute;
    ExecuteContents(c, Command(Delete, Rules(b)[0]));
  }

  /** The rules that belong in a chain, the one added last first. */
  function Stacked(rules: seq<Rule>, chain: Chain): seq<Rule> {
    if rules == [] then [] else Stacked(rules[1..], chain) + (if rules[0].chain == chain then [rules[0]] else [])
  }

  function OnTop(c: Chains, rules: seq<Rule>): Chains {
    Chains(Stacked(rules, Output) + c.output, Stacked(rules, Input) + c.input)
  }

  lemma OnTopTail(c: Chains, rules: seq<Rule>)
    requires rules != []
    ensures OnTop(WithChain(c, rules[0].chain, [rules[0]] + ChainOf(c, rules[0].chain)), rules[1..]) == OnTop(c, rules)
  {
    var r := rules[0];
    assert Stacked(rules, r.chain) + ChainOf(c, r.chain)
        == Stacked(rules[1..], r.chain) + ([r] + ChainOf(c, r.chain));
  }

  lemma {:induction false} Inserted(c: Chains, rules: seq<Rule>)
    ensures ExecuteAll(c, Commands(Insert, rules)) == (OnTop(c, rules), true)
    decreases |rules|
  {
    hide Stacked;
    if rules == [] {
      StackedNone(c);
    } else {
      hide OnTop;
      CommandsTail(Insert, rules);
      OnTopTail(c, rules);
      Inserted(Execute(c, Command(Insert, rules[0])).value, rules[1..]);
    }
  }

  lemma StackedNone(c: Chains)
    ensures OnTop(c, []) == c
  {
  }

  lemma {:induction false} WithoutFirstOfSum(a: seq<Rule>, b: seq<Rule>, r: Rule)
    requires r in a
    ensures WithoutFirst(a + b, r) == WithoutFirst(a, r) + b
  {
    assert (a + b)[0] == a[0] && (a + b)[1..] == a[1..] + b;
    if a[0] != r {
      WithoutFirstOfSum(a[1..], b, r);
    }
  }

  lemma {:induction false} WithoutLast(a: seq<Rule>, r: Rule)
    requires r !in a
    ensures WithoutFirst(a + [r], r) == a
  {
    if a != [] {
      assert (a + [r])[1..] == a[1..] + [r];
      WithoutLast(a[1..], r);
    }
  }

  lemma {:induction false} StackedIn(rules: seq<Rule>, chain: Chain, r: Rule)
    ensures r in Stacked(rules, chain) <==> r in rules && r.chain == chain
  {
    if rules != [] {
      StackedIn(rules[1..], chain, r);
    }
  }

  predicate Distinct(rules: seq<Rule>) {
    forall i, j :: 0 <= i < j < |rules| ==> rules[i] != rules[j]
  }

  /** Deleting distinct rules from the chains they were inserted into takes exactly
      those away, however many equal ones there were before. */
  lemma {:induction false} Removed(c: Chains, rules: seq<Rule>)
    requires Distinct(rules)
    ensures ExecuteAll(OnTop(c, rules), Commands(Delete, rules)) == (c, true)
    decreases |rules|
  {
    hide OnTop, Execute;
    if rules == [] {
      StackedNone(c);
    } else {
      RemovedOne(c, rules);
      CommandsTail(Delete, rules);
      Removed(c, rules[1..]);
    }
  }

  lemma RemovedOne(c: Chains, rules: seq<Rule>)
    requires rules != [] && Distinct(rules)
    ensures Execute(OnTop(c, rules), Command(Delete, rules[0])) == Some(OnTop(c, rules[1..]))
  {
    hide WithoutFirst;
    var r := rules[0];
    var tail, below := Stacked(rules[1..], r.chain), ChainOf(c, r.chain);
    StackedIn(rules[1..], r.chain, r);
    WithoutLast(tail, r);
    WithoutFirstOfSum(tail + [r], below, r);
    assert ChainOf(OnTop(c, rules), r.chain) == tail + [r] + below;
    assert r in tail + [r] + below;
    var other := if r.chain == Output then Input else Output;
    assert Stacked(rules, other) == Stacked(rules[1..], other);
  }

  /** Blocking a path and unblocking it again restores both chains exactly, order
      included, whatever they held. */
  lemma PathUndone(c: Chains, b: Block)
    requires b.Path?
    ensures ExecuteAll(ExecuteAll(c, BlockCommands(b)).0, UnblockCommands(b)) == (c, true)
  {
    Inserted(c, Rules(b));
    Removed(c, Rules(b));
  }

  // ---- what a chain cuts ----

  /** A segment on the wire; `headers` are the DRBD packet headers among its bytes. */
  datatype Segment = Segment(protocol: Protocol, source: int, sourcePort: int,
                             destination: int, destinationPort: int, headers: set<Header>)

  predicate Admits<T(==)>(want: Option<T>, value: T) {
    want.None? || want.value == value
  }

  predicate Matches(r: Rule, p: Segment) {
    r.protocol == p.protocol
    && Admits(r.source, p.source) && Admits(r.sourcePort, p.sourcePort)
    && Admits(r.destination, p.destination) && Admits(r.destinationPort, p.destinationPort)
    && (r.header.Some? ==> r.header.value in p.headers)
  }

  /** The walk along a chain: a matching LOG rule lets the segment go on, the first
      other matching rule ends it. */
  function Cut(rules: seq<Rule>, p: Segment): bool {
    rules != [] && (if Matches(rules[0], p) && rules[0].target != LOG then true else Cut(rules[1..], p))
  }

  lemma {:induction false} CutIff(rules: seq<Rule>, p: Segment)
    ensures Cut(rules, p) <==> exists r :: r in rules && Matches(r, p) && r.target != LOG
  {
    if rules != [] {
      CutIff(rules[1..], p);
      assert rules == [rules[0]] + rules[1..];
    }
  }

  /** The segments that a block is meant to cut in a chain. */
  predicate Cuts(b: Block, chain: Chain, p: Segment) {
    match b
    case Path(rdma, a, port, pa, pport, t) =>
      var local := if chain == Output then (p.source, p.sourcePort) else (p.destination, p.destinationPort);
      var remote := if chain == Output then (p.destination, p.destinationPort) else (p.source, p.sourcePort);
      t != LOG && local.0 == a && remote.0 == pa
      && (if rdma then p.protocol == Udp && p.destinationPort == RDMA_PORT
          else p.protocol == Tcp && (local.1 == port || remote.1 == pport))
    case Packet(udp, from, h) =>
      chain == Input && p.protocol == (if udp then Udp else Tcp) && Admits(from, p.source) && h in p.headers
  }

  /** The rules of a block cut exactly those. */
  lemma RulesCut(b: Block, chain: Chain, p: Segment)
    ensures Cuts(b, chain, p)
            <==> exists r :: r in Rules(b) && r.chain == chain && Matches(r, p) && r.target != LOG
  {
    var rules := Rules(b);
    assert forall k :: 0 <= k < |rules| ==> rules[k] in rules;
    assert b.Packet? ==> rules[1].target == DROP;
  }

  function AllRules(blocks: seq<Block>): (m: multiset<Rule>) {
    if blocks == [] then multiset{} else AllRules(blocks[..|blocks| - 1]) + multiset(Rules(blocks[|blocks| - 1]))
  }

  lemma {:induction false} InAllRules(blocks: seq<Block>, r: Rule)
    ensures r in AllRules(blocks) <==> exists k :: 0 <= k < |blocks| && r in Rules(blocks[k])
  {
    hide Rules;
    if blocks != [] {
      var n := |blocks| - 1;
      InAllRules(blocks[..n], r);
      assert r in AllRules(blocks) <==> r in AllRules(blocks[..n]) || r in Rules(blocks[n]);
      assert forall k :: 0 <= k < n ==> blocks[..n][k] == blocks[k];
    }
  }

  /** With exactly the rules of some blocks in the chains, in whatever order, a
      segment is cut iff one of the blocks is meant to cut it. */
  lemma CutMeaning(c: Chains, blocks: seq<Block>, chain: Chain, p: Segment)
    requires WellPlaced(c) && Contents(c) == AllRules(blocks)
    ensures Cut(ChainOf(c, chain), p) <==> exists k :: 0 <= k < |blocks| && Cuts(blocks[k], chain, p)
  {
    hide Cut, Rules, Matches, Cuts, AllRules;
    CutIff(ChainOf(c, chain), p);
    if r :| r in ChainOf(c, chain) && Matches(r, p) && r.target != LOG {
      assert r in Contents(c);
      InAllRules(blocks, r);
      var k :| 0 <= k < |blocks| && r in Rules(blocks[k]);
      RulesCut(blocks[k], chain, p);
    }
    if k :| 0 <= k < |blocks| && Cuts(blocks[k], chain, p) {
      RulesCut(blocks[k], chain, p);
      var r :| r in Rules(blocks[k]) && r.chain == chain && Matches(r, p) && r.target != LOG;
      InAllRules(blocks, r);
      assert r in Contents(c);
    }
  }

  /** A command that adds a rule, in front or behind, adds what the rule cuts. */
  lemma AddedCuts(c: Chains, command: Command, chain: Chain, p: Segment)
    requires command.action != Delete
    ensures var r := command.rule;
            Execute(c, command).Some?
            && (Cut(ChainOf(Execute(c, command).value, chain), p) <==>
                Cut(ChainOf(c, chain), p) || (r.chain == chain && Matches(r, p) && r.target != LOG))
  {
    hide Cut, Matches;
    CutIff(ChainOf(c, chain), p);
    CutIff(ChainOf(Execute(c, command).value, chain), p);
    var r, rules := command.rule, ChainOf(c, command.rule.chain);
    assert forall x :: x in [r] + rules <==> x == r || x in rules;
    assert forall x :: x in rules + [r] <==> x == r || x in rules;
  }

  lemma {:induction false} AllAddedCut(c: Chains, commands: seq<Command>, chain: Chain, p: Segment)
    requires forall k :: 0 <= k < |commands| ==> commands[k].action != Delete
    ensures var (after, ok) := ExecuteAll(c, commands);
            ok && (Cut(ChainOf(after, chain), p) <==>
                   Cut(ChainOf(c, chain), p)
                   || exists k :: 0 <= k < |commands| && RuleCuts(commands[k].rule, chain, p))
    decreases |commands|
  {
    hide Execute, Cut, RuleCuts;
    if commands != [] {
      AddedCuts(c, commands[0], chain, p);
      RuleCutsIs(commands[0].rule, chain, p);
      AllAddedCut(Execute(c, commands[0]).value, commands[1..], chain, p);
      assert forall k :: 0 < k < |commands| ==> commands[1..][k - 1] == commands[k];
      if k :| 0 <= k < |commands| && RuleCuts(commands[k].rule, chain, p) {
        assert k > 0 ==> RuleCuts(commands[1..][k - 1].rule, chain, p);
      }
    }
  }

  predicate RuleCuts(r: Rule, chain: Chain, p: Segment) {
    r.chain == chain && Matches(r, p) && r.target != LOG
  }

  lemma RuleCutsIs(r: Rule, chain: Chain, p: Segment)
    ensures RuleCuts(r, chain, p) <==> r.chain == chain && Matches(r, p) && r.target != LOG
  {
  }

  /** Whatever the chains held, blocking adds exactly what the block is meant to cut. */
  lemma BlockCuts(c: Chains, b: Block)
    ensures ExecuteAll(c, BlockCommands(b)).1
    ensures forall chain, p :: Cut(ChainOf(ExecuteAll(c, BlockCommands(b)).0, chain), p)
                          <==> Cut(ChainOf(c, chain), p) || Cuts(b, chain, p)
  {
    hide Cut, Rules, ExecuteAll, Cuts, RuleCuts;
    var commands := BlockCommands(b);
    AllAddedCut(c, commands, Output, Segment(Tcp, 0, 0, 0, 0, {}));
    forall chain, p
      ensures Cut(ChainOf(ExecuteAll(c, commands).0, chain), p) <==> Cut(ChainOf(c, chain), p) || Cuts(b, chain, p)
    {
      AllAddedCut(c, commands, chain, p);
      RulesCut(b, chain, p);
      forall k | 0 <= k < |commands|
        ensures commands[k].rule == Rules(b)[k] && commands[k].rule in Rules(b)
        ensures RuleCuts(commands[k].rule, chain, p) <==>
                  commands[k].rule.chain == chain && Matches(commands[k].rule, p) && commands[k].rule.target != LOG
      {
        RuleCutsIs(commands[k].rule, chain, p);
      }
      if r :| r in Rules(b) && r.chain == chain && Matches(r, p) && r.target != LOG {
        var k :| 0 <= k < |Rules(b)| && Rules(b)[k] == r;
        assert RuleCuts(commands[k].rule, chain, p);
      }
    }
  }

  lemma {:induction false} KeepsOutput(c: Chains, commands: seq<Command>)
    requires forall k :: 0 <= k < |commands| ==> commands[k].rule.chain == Input
    ensures ExecuteAll(c, commands).0.output == c.output
    decreases |commands|
  {
    if commands != [] && Execute(c, commands[0]).Some? {
      KeepsOutput(Execute(c, commands[0]).value, commands[1..]);
    }
  }

  // ---- a flow between two hosts ----

  /** The two filters a segment passes on its way. */
  predicate Passes(sender: Chains, receiver: Chains, p: Segment) {
    !Cut(sender.output, p) && !Cut(receiver.input, p)
  }

  /** A block of a TCP path between these two addresses that meets a flow between
      port x at the first and port y at the second. */
  predicate PathMeets(b: Block, a: int, x: int, pa: int, y: int) {
    b.Path? && !b.rdma && b.target != LOG && b.address == a && b.peerAddress == pa && (b.port == x || b.peerPort == y)
  }

  predicate Meets(blocks: seq<Block>, a: int, x: int, pa: int, y: int) {
    exists k :: 0 <= k < |blocks| && PathMeets(blocks[k], a, x, pa, y)
  }

  /** A block of packets with one of these headers, from address a, over TCP. */
  predicate PacketMeets(b: Block, a: int, headers: set<Header>) {
    b.Packet? && !b.overUdp && Admits(b.from, a) && b.header in headers
  }

  predicate PacketsMeet(blocks: seq<Block>, a: int, headers: set<Header>) {
    exists k :: 0 <= k < |blocks| && PacketMeets(blocks[k], a, headers)
  }

  /** The meaning of the filters.  Let two hosts hold exactly the rules of some
      outstanding blocks of theirs.  A segment from port x of address a at the first
      to port y of address pa at the second is cut iff an outstanding path block at
      either end names both addresses and one of the two ports as that node's DRBD
      port, or a packet block at the receiver names the sender and a header in it. */
  lemma SegmentCut(first: Chains, second: Chains, firstBlocks: seq<Block>, secondBlocks: seq<Block>,
                   a: int, x: int, pa: int, y: int, headers: set<Header>)
    requires WellPlaced(first) && Contents(first) == AllRules(firstBlocks)
    requires WellPlaced(second) && Contents(second) == AllRules(secondBlocks)
    ensures !Passes(first, second, Segment(Tcp, a, x, pa, y, headers))
            <==> Meets(firstBlocks, a, x, pa, y) || Meets(secondBlocks, pa, y, a, x)
                 || PacketsMeet(secondBlocks, a, headers)
  {
    hide Cut, WellPlaced, Contents, AllRules;
    var there := Segment(Tcp, a, x, pa, y, headers);
    CutMeaning(first, firstBlocks, Output, there);
    CutMeaning(second, secondBlocks, Input, there);
    assert forall k :: 0 <= k < |firstBlocks| ==>
        (Cuts(firstBlocks[k], Output, there) <==> PathMeets(firstBlocks[k], a, x, pa, y));
    assert forall k :: 0 <= k < |secondBlocks| ==>
        (Cuts(secondBlocks[k], Input, there)
         <==> PathMeets(secondBlocks[k], pa, y, a, x) || PacketMeets(secondBlocks[k], a, headers));
  }

  /** A path block cuts a flow in both directions or not at all, whichever end made
      it; where no packets are blocked a flow passes both ways or neither. */
  lemma FlowCutBothWays(first: Chains, second: Chains, firstBlocks: seq<Block>, secondBlocks: seq<Block>,
                        a: int, x: int, pa: int, y: int)
    requires WellPlaced(first) && Contents(first) == AllRules(firstBlocks)
    requires WellPlaced(second) && Contents(second) == AllRules(secondBlocks)
    ensures var cut := Meets(firstBlocks, a, x, pa, y) || Meets(secondBlocks, pa, y, a, x);
            Passes(first, second, Segment(Tcp, a, x, pa, y, {})) == !cut
            && Passes(second, first, Segment(Tcp, pa, y, a, x, {})) == !cut
  {
    hide Passes, WellPlaced, Contents, AllRules, Meets;
    SegmentCut(first, second, firstBlocks, secondBlocks, a, x, pa, y, {});
    SegmentCut(second, first, secondBlocks, firstBlocks, pa, y, a, x, {});
    assert !PacketsMeet(firstBlocks, pa, {}) && !PacketsMeet(secondBlocks, a, {});
  }

  // ---- what stays untouched ----

  /** No two addresses of the hosts, on whatever net, are equal. */
  ghost predicate DistinctAddresses(hosts: seq<seq<int>>) {
    forall h, g, k, l :: 0 <= h < |hosts| && 0 <= g < |hosts| && 0 <= k < |hosts[h]| && 0 <= l < |hosts[g]| ==>
      hosts[h][k] == hosts[g][l] ==> h == g && k == l
  }

  /** A path block touches a flow between two hosts iff they are the two ends of the
      block, on its net, and the flow uses the DRBD port of one of the two nodes: no
      other pair, net or resource is affected. */
  lemma OnlyThatPath(hosts: seq<seq<int>>, h: nat, g: nat, net: nat, port: int, peerPort: int, t: Target,
                     i: nat, k: nat, x: int, j: nat, l: nat, y: int)
    requires DistinctAddresses(hosts) && h < |hosts| && g < |hosts| && i < |hosts| && j < |hosts|
    requires k < |hosts[i]| && l < |hosts[j]| && t != LOG
    ensures var b := PathBlock(FilterNode(hosts[h], port), FilterNode(hosts[g], peerPort), net, false, t);
            b.Some? && PathMeets(b.value, hosts[i][k], x, hosts[j][l], y)
            <==> h == i && g == j && net == k == l && (x == port || y == peerPort)
  {
  }

  /** Packets that a peer sends from another of its addresses are not blocked, as the
      rule names only its first. */
  lemma PacketBlockFirstAddressOnly(hosts: seq<seq<int>>, g: nat, k: nat, volume: int, packet: int)
    requires DistinctAddresses(hosts) && g < |hosts| && k < |hosts[g]|
    ensures var b := PacketBlock(Some(FilterNode(hosts[g], 0)), false, volume, packet);
            b.Some? && (PacketMeets(b.value, hosts[g][k], {Header(volume, packet)}) <==> k == 0)
  {
    assert hosts[g][0] == hosts[g][k] ==> k == 0;
  }
}
