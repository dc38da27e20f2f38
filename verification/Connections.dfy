/** python/drbdtest.py: the connection builder `connections()` and the
    collection operations `extend`, `bidir_add` and `difference`. */
module Connections {
  import opened Wrappers
  import opened OrderedSets

  /** A Node object: its identity within its Resource object. */
  datatype Node = Node(resource: nat, id: nat)

  type Pair = (Node, Node)

  datatype Error = BothFrom | BothTo | Neither | DifferentResource

  function Reverse(p: Pair): Pair {
    (p.1, p.0)
  }

  function Reversed(ps: seq<Pair>): (r: seq<Pair>)
    ensures |r| == |ps| && forall i :: 0 <= i < |ps| ==> r[i] == Reverse(ps[i])
  {
    seq(|ps|, i requires 0 <= i < |ps| => Reverse(ps[i]))
  }

  /** What adding the members of `s` one after the other to `acc` leaves. */
  function AddAll<T(==)>(acc: seq<T>, s: seq<T>): seq<T>
    decreases s
  {
    if s == [] then acc
    else AddAll(if s[0] in acc then acc else acc + [s[0]], s[1..])
  }

  /** Adding is union without duplicates that keeps what was there in front. */
  lemma {:induction false} AddAllUnion<T>(acc: seq<T>, s: seq<T>)
    requires NoDup(acc)
    ensures NoDup(AddAll(acc, s))
    ensures acc <= AddAll(acc, s)
    ensures forall x :: x in AddAll(acc, s) <==> x in acc || x in s
    decreases s
  {
    if s == [] {
    } else {
      var acc' := if s[0] in acc then acc else acc + [s[0]];
      AddAllUnion(acc', s[1..]);
      assert s == [s[0]] + s[1..];
    }
  }

  lemma {:induction false} AddAllSnoc<T>(acc: seq<T>, s: seq<T>, x: T)
    ensures AddAll(acc, s + [x]) == (var b := AddAll(acc, s); if x in b then b else b + [x])
    decreases s
  {
    if s == [] {
      assert s + [x] == [x];
      assert [x][1..] == [];
      assert AddAll(acc, [x]) == AddAll(if x in acc then acc else acc + [x], []);
    } else {
      assert (s + [x])[1..] == s[1..] + [x];
      AddAllSnoc(if s[0] in acc then acc else acc + [s[0]], s[1..], x);
    }
  }

  /** One row of the double loop: the pairs from f to every other node. */
  function Row(f: Node, to: seq<Node>): seq<Pair> {
    if to == [] then [] else (if f != to[0] then [(f, to[0])] else []) + Row(f, to[1..])
  }

  function Rows(from: seq<Node>, to: seq<Node>): seq<Pair> {
    if from == [] then [] else Row(from[0], to) + Rows(from[1..], to)
  }

  lemma {:induction false} RowExact(f: Node, to: seq<Node>, p: Pair)
    ensures p in Row(f, to) <==> p.0 == f && p.1 in to && p.0 != p.1
  {
    if to != [] {
      RowExact(f, to[1..], p);
    }
  }

  lemma {:induction false} RowsExact(from: seq<Node>, to: seq<Node>, p: Pair)
    ensures p in Rows(from, to) <==> p.0 in from && p.1 in to && p.0 != p.1
  {
    if from != [] {
      RowExact(from[0], to, p);
      RowsExact(from[1..], to, p);
    }
  }

  lemma {:induction false} RowSnoc(f: Node, to: seq<Node>, t: Node)
    ensures Row(f, to + [t]) == Row(f, to) + (if f != t then [(f, t)] else [])
  {
    if to == [] {
      assert to + [t] == [t];
      assert [t][1..] == [];
    } else {
      assert (to + [t])[1..] == to[1..] + [t];
      RowSnoc(f, to[1..], t);
    }
  }

  lemma {:induction false} RowsSnoc(from: seq<Node>, to: seq<Node>, f: Node)
    ensures Rows(from + [f], to) == Rows(from, to) + Row(f, to)
  {
    if from == [] {
      assert from + [f] == [f];
      assert [f][1..] == [];
    } else {
      assert (from + [f])[1..] == from[1..] + [f];
      RowsSnoc(from[1..], to, f);
    }
  }

  lemma {:induction false} AddAllConcat<T>(acc: seq<T>, a: seq<T>, b: seq<T>)
    ensures AddAll(acc, a + b) == AddAll(AddAll(acc, a), b)
    decreases a
  {
    if a == [] {
      assert a + b == b;
    } else {
      assert (a + b)[1..] == a[1..] + b;
      AddAllConcat(if a[0] in acc then acc else acc + [a[0]], a[1..], b);
    }
  }

  /** All pairs of two node lists, each once, in the order of the double loop. */
  function Between(from: seq<Node>, to: seq<Node>): seq<Pair> {
    AddAll([], Rows(from, to))
  }

  function WithReversed(ps: seq<Pair>): seq<Pair> {
    AddAll(ps, Reversed(ps))
  }

  /** `connections()` holds exactly the pairs of different nodes, each once,
      even when the arguments repeat a node. */
  lemma BetweenExact(from: seq<Node>, to: seq<Node>)
    ensures NoDup(Between(from, to))
    ensures forall p :: p in Between(from, to) <==> p.0 in from && p.1 in to && p.0 != p.1
  {
    AddAllUnion([], Rows(from, to));
    forall p: Pair
      ensures p in Between(from, to) <==> p.0 in from && p.1 in to && p.0 != p.1
    {
      RowsExact(from, to, p);
    }
  }

  ghost predicate ReversalClosed(ps: seq<Pair>) {
    forall p :: p in ps ==> Reverse(p) in ps
  }

  /** With bidir the result is the least reversal-closed superset, the original
      pairs staying in front in their order. */
  lemma BidirLeast(ps: seq<Pair>)
    requires NoDup(ps)
    ensures NoDup(WithReversed(ps)) && ps <= WithReversed(ps)
    ensures ReversalClosed(WithReversed(ps))
    ensures forall qs: seq<Pair> | ReversalClosed(qs) && (forall p :: p in ps ==> p in qs) ::
              forall p :: p in WithReversed(ps) ==> p in qs
  {
    var rs := Reversed(ps);
    AddAllUnion(ps, rs);
    forall p | p in WithReversed(ps)
      ensures Reverse(p) in WithReversed(ps)
    {
      if p in ps {
        var i :| 0 <= i < |ps| && ps[i] == p;
        assert rs[i] == Reverse(p);
      } else {
        var i :| 0 <= i < |rs| && rs[i] == p;
        assert Reverse(p) == ps[i];
      }
    }
    forall qs: seq<Pair>, p | ReversalClosed(qs) && (forall q :: q in ps ==> q in qs) && p in WithReversed(ps)
      ensures p in qs
    {
      if p !in ps {
        var i :| 0 <= i < |rs| && rs[i] == p;
        assert ps[i] in qs;
      }
    }
  }

  /** `Connections.bidir_add` along a list of edges. */
  function BidirChain(edges: seq<Pair>): seq<Pair> {
    if edges == [] then []
    else AddAll(BidirChain(edges[..|edges| - 1]), [edges[|edges| - 1], Reverse(edges[|edges| - 1])])
  }

  lemma {:induction false} BidirChainExact(edges: seq<Pair>, p: Pair)
    ensures NoDup(BidirChain(edges))
    ensures p in BidirChain(edges) <==> p in edges || Reverse(p) in edges
  {
    if edges == [] {
    } else {
      var n := |edges| - 1;
      BidirChainExact(edges[..n], p);
      AddAllUnion(BidirChain(edges[..n]), [edges[n], Reverse(edges[n])]);
      assert edges == edges[..n] + [edges[n]];
      assert Reverse(p) == edges[n] <==> p == Reverse(edges[n]);
    }
  }

  /** All connections of a resource, less a chain: exactly the pairs that are
      not neighbours in the chain, in either direction. */
  lemma NonChainPairs(nodes: seq<Node>, edges: seq<Pair>, p: Pair)
    ensures p in Without(Between(nodes, nodes), Elements(BidirChain(edges)))
       <==> p.0 in nodes && p.1 in nodes && p.0 != p.1 && p !in edges && Reverse(p) !in edges
  {
    BetweenExact(nodes, nodes);
    BidirChainExact(edges, p);
    WithoutKeeps(Between(nodes, nodes), Elements(BidirChain(edges)), p);
  }

  /** The node lists that the optional arguments select.  A resource's members
      are given by `members`. */
  function Select(fromNode: Option<Node>, toNode: Option<Node>,
                  fromNodes: Option<seq<Node>>, toNodes: Option<seq<Node>>,
                  members: nat -> seq<Node>): Result<(seq<Node>, seq<Node>), Error>
  {
    if fromNode.Some? && fromNodes.Some? && fromNodes.value != [] then Err(BothFrom)
    else
      var from := if fromNode.Some? then Some([fromNode.value]) else fromNodes;
      if toNode.Some? && toNodes.Some? && toNodes.value != [] then Err(BothTo)
      else
        var to := if toNode.Some? then Some([toNode.value]) else toNodes;
        if from.None? && to.None? then Err(Neither)
        else
          var fs := if from.Some? then from.value
                    else if to.value != [] then members(to.value[0].resource) else [];
          var ts := if to.Some? then to.value
                    else if fs != [] then members(fs[0].resource) else [];
          Ok((fs, ts))
  }

  /** Of one given node the other ends are all members of its resource, and of two given
      nodes nobody else is asked; lists are taken as they are, and too many arguments or none
      are refused. */
  lemma SelectsByDefault(x: Node, y: Node, xs: seq<Node>, ys: seq<Node>, members: nat -> seq<Node>)
    ensures Select(Some(x), None, None, None, members) == Ok(([x], members(x.resource)))
    ensures Select(None, Some(y), None, None, members) == Ok((members(y.resource), [y]))
    ensures Select(Some(x), Some(y), None, None, members) == Ok(([x], [y]))
    ensures Select(None, None, Some(xs), Some(ys), members) == Ok((xs, ys))
    ensures xs != [] ==> Select(None, None, Some(xs), None, members) == Ok((xs, members(xs[0].resource)))
    ensures ys != [] ==> Select(None, None, None, Some(ys), members) == Ok((members(ys[0].resource), ys))
    ensures Select(None, None, None, None, members) == Err(Neither)
    ensures xs != [] ==> Select(Some(x), None, Some(xs), None, members) == Err(BothFrom)
    ensures ys != [] ==> Select(Some(x), Some(y), None, Some(ys), members) == Err(BothTo)
  {
  }

  /** So `connections(node)` are those from the node to each other member, and
      `connections(to_node=node)` those from each other member to it. */
  lemma OfOneNode(x: Node, members: nat -> seq<Node>, p: Pair)
    ensures var sel := Select(Some(x), None, None, None, members);
            sel.Ok? && (p in Between(sel.value.0, sel.value.1) <==> p.0 == x && p.1 in members(x.resource) && p.1 != x)
    ensures var sel := Select(None, Some(x), None, None, members);
            sel.Ok? && (p in Between(sel.value.0, sel.value.1) <==> p.1 == x && p.0 in members(x.resource) && p.0 != x)
  {
    BetweenExact([x], members(x.resource));
    BetweenExact(members(x.resource), [x]);
  }

  /** The assertion of the Connection constructor, over all pairs it is given. */
  ghost predicate OneResource(from: seq<Node>, to: seq<Node>) {
    forall f, t :: f in from && t in to && f != t ==> f.resource == t.resource
  }

  /** Collection.add asserts that a new member shares the first member's resource. */
  ghost predicate SameResource(ps: seq<Pair>) {
    forall p :: p in ps ==> p.0.resource == ps[0].0.resource
  }

  /** `connections()`: the arguments, the double loop, then the reversed pairs. */
  method Build(fromNode: Option<Node>, toNode: Option<Node>,
               fromNodes: Option<seq<Node>>, toNodes: Option<seq<Node>>, bidir: bool,
               members: nat -> seq<Node>) returns (r: Result<seq<Pair>, Error>)
    ensures var sel := Select(fromNode, toNode, fromNodes, toNodes, members);
            match sel
            case Err(e) => r == Err(e)
            case Ok((from, to)) =>
              if OneResource(from, to) && SameResource(Between(from, to))
              then r == Ok(if bidir then WithReversed(Between(from, to)) else Between(from, to))
              else r == Err(DifferentResource)
  {
    var sel := Select(fromNode, toNode, fromNodes, toNodes, members);
    if sel.Err? {
      return Err(sel.error);
    }
    var (from, to) := sel.value;
    var cs := new OrderedSet<Pair>([]);
    var ok := AddBetween(cs, from, to);
    if !ok {
      return Err(DifferentResource);
    }
    if bidir {
      AddReversed(cs);
    }
    r := Ok(cs.items);
  }

  /** `extend` by the reversed connections, which are listed before any is added. */
  method AddReversed(cs: OrderedSet<Pair>)
    requires cs.Valid()
    modifies cs
    ensures cs.Valid() && cs.items == WithReversed(old(cs.items))
  {
    hide Replay, AddAll;
    ghost var ps := cs.items;
    var reversed := Reversed(cs.items);
    AddAllEmpty(ps);
    for i := 0 to |reversed|
      invariant cs.Valid()
      invariant cs.items == AddAll(ps, reversed[..i])
    {
      assert reversed[..i + 1] == reversed[..i] + [reversed[i]];
      AddAllSnoc(ps, reversed[..i], reversed[i]);
      var _ := cs.Insert(reversed[i]);
    }
    assert reversed[..|reversed|] == reversed;
  }

  lemma AddAllEmpty<T>(acc: seq<T>)
    ensures forall s: seq<T> :: s == [] ==> AddAll(acc, s) == acc
  {
  }

  method AddBetween(cs: OrderedSet<Pair>, from: seq<Node>, to: seq<Node>) returns (ok: bool)
    requires cs.Valid() && cs.items == []
    modifies cs
    ensures cs.Valid()
    ensures ok <==> OneResource(from, to) && SameResource(Between(from, to))
    ensures ok ==> cs.items == Between(from, to)
  {
    for i := 0 to |from|
      invariant cs.Valid()
      invariant cs.items == Between(from[..i], to)
      invariant OneResource(from[..i], to) && SameResource(cs.items)
    {
      assert from[..i + 1] == from[..i] + [from[i]];
      RowsSnoc(from[..i], to, from[i]);
      ok := AddRow(cs, from, to, i);
      if !ok {
        return;
      }
    }
    assert from[..|from|] == from;
    ok := true;
  }

  /** The inner loop, at position i of the outer one. */
  method AddRow(cs: OrderedSet<Pair>, from: seq<Node>, to: seq<Node>, i: nat) returns (ok: bool)
    requires i < |from| && cs.Valid()
    requires cs.items == Between(from[..i], to) && SameResource(cs.items)
    modifies cs
    ensures cs.Valid()
    ensures ok ==> OneResource([from[i]], to) && SameResource(cs.items)
    ensures ok ==> cs.items == AddAll([], Rows(from[..i], to) + Row(from[i], to))
    ensures !ok ==> !(OneResource(from, to) && SameResource(Between(from, to)))
  {
    hide Replay, AddAll, Rows, Row;
    ghost var base := Rows(from[..i], to);
    EmptyRow(from[i], to);
    assert base + Row(from[i], to[..0]) == base;
    for j := 0 to |to|
      invariant cs.Valid()
      invariant cs.items == AddAll([], base + Row(from[i], to[..j]))
      invariant OneResource([from[i]], to[..j]) && SameResource(cs.items)
    {
      assert to[..j + 1] == to[..j] + [to[j]];
      if from[i] != to[j] {
        if from[i].resource != to[j].resource
           || (cs.items != [] && from[i].resource != cs.items[0].0.resource) {
          BetweenPrefix(from, to, i, j);
          return false;
        }
        var _ := cs.Insert((from[i], to[j]));
      }
      Extended(base, from[i], to, j);
    }
    assert to[..|to|] == to;
    ok := true;
  }

  lemma EmptyRow(f: Node, to: seq<Node>)
    ensures Row(f, to[..0]) == []
  {
  }

  lemma Extended(base: seq<Pair>, f: Node, to: seq<Node>, j: nat)
    requires j < |to|
    ensures AddAll([], base + Row(f, to[..j + 1])) ==
            (var b := AddAll([], base + Row(f, to[..j]));
             if f == to[j] || (f, to[j]) in b then b else b + [(f, to[j])])
  {
    assert to[..j + 1] == to[..j] + [to[j]];
    RowSnoc(f, to[..j], to[j]);
    if f == to[j] {
      assert Row(f, to[..j + 1]) == Row(f, to[..j]);
    } else {
      AddAllSnoc([], base + Row(f, to[..j]), (f, to[j]));
      assert base + Row(f, to[..j + 1]) == base + Row(f, to[..j]) + [(f, to[j])];
    }
  }

  /** What was collected when the double loop stands at (i, j) is a prefix of
      what it collects in the end. */
  lemma BetweenPrefix(from: seq<Node>, to: seq<Node>, i: nat, j: nat)
    requires i < |from| && j < |to|
    ensures AddAll([], Rows(from[..i], to) + Row(from[i], to[..j])) <= Between(from, to)
    ensures from[i] != to[j] ==> (from[i], to[j]) in Between(from, to)
  {
    hide Rows, Row, AddAll;
    var done := Rows(from[..i], to) + Row(from[i], to[..j]);
    var rest := RowsSplit(from, to, i, j);
    AddAllConcat([], done, rest);
    AddAllUnion([], done);
    AddAllUnion(AddAll([], done), rest);
    BetweenExact(from, to);
  }

  lemma RowsSplit(from: seq<Node>, to: seq<Node>, i: nat, j: nat) returns (rest: seq<Pair>)
    requires i < |from| && j < |to|
    ensures Rows(from, to) == Rows(from[..i], to) + Row(from[i], to[..j]) + rest
  {
    var tail := from[i..];
    assert from == from[..i] + tail;
    RowsConcat(from[..i], tail, to);
    assert tail[0] == from[i];
    var a, b := to[..j], to[j..];
    assert to == a + b;
    RowConcat(from[i], a, b);
    rest := Row(from[i], b) + Rows(tail[1..], to);
    assert Rows(tail, to) == Row(from[i], a) + rest;
  }

  lemma {:induction false} RowsConcat(a: seq<Node>, b: seq<Node>, to: seq<Node>)
    ensures Rows(a + b, to) == Rows(a, to) + Rows(b, to)
  {
    if a == [] {
      assert a + b == b;
    } else {
      assert (a + b)[1..] == a[1..] + b;
      RowsConcat(a[1..], b, to);
    }
  }

  lemma {:induction false} RowConcat(f: Node, a: seq<Node>, b: seq<Node>)
    ensures Row(f, a + b) == Row(f, a) + Row(f, b)
  {
    if a == [] {
      assert a + b == b;
    } else {
      assert (a + b)[1..] == a[1..] + b;
      RowConcat(f, a[1..], b);
    }
  }

  // ---- the order of the result ----

  /** The order of the double loop, where repeated nodes count at their first occurrence. */
  predicate Earlier(p: Pair, q: Pair, from: seq<Node>, to: seq<Node>) {
    p.0 in from && q.0 in from && p.1 in to && q.1 in to
    && (FirstAt(from, p.0) < FirstAt(from, q.0) || (p.0 == q.0 && FirstAt(to, p.1) < FirstAt(to, q.1)))
  }

  ghost predicate InOrder(ps: seq<Pair>, from: seq<Node>, to: seq<Node>) {
    forall a, b :: 0 <= a < b < |ps| ==> Earlier(ps[a], ps[b], from, to)
  }

  /** What was collected when the double loop stands at (i, j). */
  function Collected(from: seq<Node>, to: seq<Node>, i: nat, j: nat): seq<Pair>
    requires i < |from| && j <= |to|
  {
    AddAll([], Rows(from[..i], to) + Row(from[i], to[..j]))
  }

  lemma CollectedExact(from: seq<Node>, to: seq<Node>, i: nat, j: nat)
    requires i < |from| && j <= |to|
    ensures forall p :: p in Collected(from, to, i, j) <==>
                          p.0 != p.1 && ((p.0 in from[..i] && p.1 in to) || (p.0 == from[i] && p.1 in to[..j]))
  {
    hide AddAll, Rows, Row;
    AddAllUnion([], Rows(from[..i], to) + Row(from[i], to[..j]));
    forall p: Pair
      ensures p in Collected(from, to, i, j) <==>
                p.0 != p.1 && ((p.0 in from[..i] && p.1 in to) || (p.0 == from[i] && p.1 in to[..j]))
    {
      RowsExact(from[..i], to, p);
      RowExact(from[i], to[..j], p);
    }
  }

  lemma NextInOrder(from: seq<Node>, to: seq<Node>, i: nat, j: nat)
    requires i < |from| && j < |to| && InOrder(Collected(from, to, i, j), from, to)
    ensures InOrder(Collected(from, to, i, j + 1), from, to)
  {
    hide Collected;
    var before, q := Collected(from, to, i, j), (from[i], to[j]);
    assert Collected(from, to, i, j + 1) == if q.0 == q.1 || q in before then before else before + [q] by {
      CollectedNext(from, to, i, j);
    }
    CollectedExact(from, to, i, j);
    if q.0 != q.1 && q !in before {
      NewAt(from, i);
      NewAt(to, j);
      forall p | p in before
        ensures Earlier(p, q, from, to)
      {
        if p.0 in from[..i] {
          FirstStays(from, i, p.0);
        } else {
          FirstStays(to, j, p.1);
        }
      }
    }
  }

  lemma CollectedNext(from: seq<Node>, to: seq<Node>, i: nat, j: nat)
    requires i < |from| && j < |to|
    ensures var before, q := Collected(from, to, i, j), (from[i], to[j]);
            Collected(from, to, i, j + 1) == if q.0 == q.1 || q in before then before else before + [q]
  {
    hide AddAll, Rows, Row;
    Extended(Rows(from[..i], to), from[i], to, j);
  }

  lemma NewAt(keys: seq<Node>, i: nat)
    requires i < |keys| && keys[i] !in keys[..i]
    ensures FirstAt(keys, keys[i]) == i
  {
    assert forall k :: 0 <= k < i ==> keys[..i][k] == keys[k];
  }

  lemma {:induction false} RowsInOrder(from: seq<Node>, to: seq<Node>, i: nat, j: nat)
    requires i < |from| && j <= |to|
    ensures InOrder(Collected(from, to, i, j), from, to)
    decreases i, j
  {
    hide InOrder, Collected;
    if j > 0 {
      RowsInOrder(from, to, i, j - 1);
      NextInOrder(from, to, i, j - 1);
    } else if i > 0 {
      RowsInOrder(from, to, i - 1, |to|);
      assert Collected(from, to, i, 0) == Collected(from, to, i - 1, |to|) by { RowDone(from, to, i); }
    } else {
      assert Collected(from, to, 0, 0) == [] && InOrder([], from, to) by { NoRow(from, to); }
    }
  }

  lemma RowDone(from: seq<Node>, to: seq<Node>, i: nat)
    requires 0 < i < |from|
    ensures Collected(from, to, i, 0) == Collected(from, to, i - 1, |to|)
  {
    hide AddAll, Rows, Row;
    assert from[..i] == from[..i - 1] + [from[i - 1]] && to[..|to|] == to;
    RowsSnoc(from[..i - 1], to, from[i - 1]);
    EmptyRow(from[i], to);
    assert Rows(from[..i], to) + [] == Rows(from[..i], to);
  }

  lemma NoRow(from: seq<Node>, to: seq<Node>)
    requires from != []
    ensures Collected(from, to, 0, 0) == [] && InOrder([], from, to)
  {
    assert from[..0] == [] && to[..0] == [];
  }

  /** The pairs stand in the order of the double loop. */
  lemma BetweenInOrder(from: seq<Node>, to: seq<Node>)
    ensures InOrder(Between(from, to), from, to)
  {
    if from == [] {
      assert Between(from, to) == [];
    } else {
      hide InOrder, AddAll, Rows, Row;
      var n := |from| - 1;
      RowsInOrder(from, to, n, |to|);
      assert from == from[..n] + [from[n]] && to[..|to|] == to;
      RowsSnoc(from[..n], to, from[n]);
    }
  }

  /** And those added by bidir in the order of their originals. */
  lemma BidirInOrder(ps: seq<Pair>)
    requires NoDup(ps)
    ensures var rs := WithReversed(ps);
            |rs| >= |ps| && forall a, b :: |ps| <= a < b < |rs| ==>
              Reverse(rs[a]) in ps && Reverse(rs[b]) in ps && FirstAt(ps, Reverse(rs[a])) < FirstAt(ps, Reverse(rs[b]))
  {
    ReversedUpTo(ps, |ps|);
    assert Reversed(ps)[..|ps|] == Reversed(ps);
  }

  lemma {:induction false} ReversedUpTo(ps: seq<Pair>, k: nat)
    requires NoDup(ps) && k <= |ps|
    ensures var rs := AddAll(ps, Reversed(ps)[..k]);
            |rs| >= |ps|
            && (forall a :: |ps| <= a < |rs| ==> Reverse(rs[a]) in ps && FirstAt(ps, Reverse(rs[a])) < k)
            && forall a, b :: |ps| <= a < b < |rs| ==> FirstAt(ps, Reverse(rs[a])) < FirstAt(ps, Reverse(rs[b]))
  {
    hide AddAll;
    if k == 0 {
      AddAllEmpty(ps);
    } else {
      ReversedUpTo(ps, k - 1);
      assert Reversed(ps)[..k] == Reversed(ps)[..k - 1] + [Reversed(ps)[k - 1]];
      AddAllSnoc(ps, Reversed(ps)[..k - 1], Reversed(ps)[k - 1]);
      assert Reverse(Reversed(ps)[k - 1]) == ps[k - 1];
      assert forall i :: 0 <= i < k - 1 ==> ps[i] != ps[k - 1];
    }
  }
}
