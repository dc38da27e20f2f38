/** python/ordered_set.py: a list of items together with a dictionary from item
    to index.  `add` and `discard` change both in place; `discard` does not
    renumber the dictionary, so stored indices drift away from the positions.
    The drift is characterized exactly from the history of the operations. */
module OrderedSets {
  import opened Wrappers

  datatype Op<T> = Add(key: T) | Discard(key: T)

  /** The two fields `items` and `map` of the source's class. */
  datatype Rep<T(==)> = Rep(items: seq<T>, index: map<T, nat>)

  /** Python's list.remove: drops the first occurrence. */
  function RemoveFirst<T(==)>(items: seq<T>, key: T): seq<T> {
    if items == [] then []
    else if items[0] == key then items[1..]
    else [items[0]] + RemoveFirst(items[1..], key)
  }

  function Apply<T(==)>(r: Rep<T>, op: Op<T>): Rep<T> {
    match op
    case Add(k) =>
      if k in r.index then r else Rep(r.items + [k], r.index[k := |r.items|])
    case Discard(k) =>
      Rep(RemoveFirst(r.items, k), r.index - {k})
  }

  /** The representation after a history of operations on an empty set. */
  function Replay<T(==)>(ops: seq<Op<T>>): Rep<T> {
    if ops == [] then Rep([], map[])
    else Apply(Replay(ops[..|ops| - 1]), ops[|ops| - 1])
  }

  ghost predicate NoDup<T>(s: seq<T>) {
    forall i, j :: 0 <= i < j < |s| ==> s[i] != s[j]
  }

  ghost predicate StandsBefore<T>(items: seq<T>, x: T, k: T) {
    exists i, j :: 0 <= i < j < |items| && items[i] == x && items[j] == k
  }

  /** How many discards, since the key was last inserted, removed a key that was
      standing before it.  Counted from the history, not from the indices. */
  ghost function Lost<T>(ops: seq<Op<T>>, k: T): nat
    requires k in Replay(ops).index
  {
    var before := ops[..|ops| - 1];
    var last := ops[|ops| - 1];
    if k !in Replay(before).index then
      0
    else
      Lost(before, k) + (if last.Discard? && StandsBefore(Replay(before).items, last.key, k) then 1 else 0)
  }

  /** The items that are not in `gone`, in their old order. */
  function Without<T(==)>(items: seq<T>, gone: set<T>): seq<T> {
    if items == [] then []
    else if items[0] in gone then Without(items[1..], gone)
    else [items[0]] + Without(items[1..], gone)
  }

  lemma {:induction false} RemoveFirstAbsent<T>(items: seq<T>, k: T)
    requires k !in items
    ensures RemoveFirst(items, k) == items
  {
    if items != [] {
      RemoveFirstAbsent(items[1..], k);
    }
  }

  lemma {:induction false} RemoveFirstAt<T>(items: seq<T>, p: nat)
    requires NoDup(items) && p < |items|
    ensures RemoveFirst(items, items[p]) == items[..p] + items[p + 1..]
  {
    if p == 0 {
    } else {
      assert items[0] != items[p];
      assert NoDup(items[1..]);
      RemoveFirstAt(items[1..], p - 1);
      assert items[1..][p - 1] == items[p];
      assert items[..p] == [items[0]] + items[1..][..p - 1];
      assert items[1..][p..] == items[p + 1..];
    }
  }

  lemma {:induction false} RemoveFirstKeeps<T>(items: seq<T>, k: T, x: T)
    requires NoDup(items)
    ensures NoDup(RemoveFirst(items, k))
    ensures x in RemoveFirst(items, k) <==> x in items && x != k
  {
    if k in items {
      var p :| 0 <= p < |items| && items[p] == k;
      RemoveFirstAt(items, p);
      assert items == items[..p] + [k] + items[p + 1..];
    } else {
      RemoveFirstAbsent(items, k);
    }
  }

  /** The representation invariant, at every point of every history: the items
      have no duplicates and are the dictionary's keys. */
  lemma {:induction false} Represented<T>(ops: seq<Op<T>>)
    ensures NoDup(Replay(ops).items)
    ensures forall k :: k in Replay(ops).items <==> k in Replay(ops).index
  {
    if ops == [] {
    } else {
      var before, last := ops[..|ops| - 1], ops[|ops| - 1];
      Represented(before);
      var r := Replay(before);
      if last.Discard? {
        forall k
          ensures NoDup(RemoveFirst(r.items, last.key))
          ensures k in RemoveFirst(r.items, last.key) <==> k in r.index - {last.key}
        {
          RemoveFirstKeeps(r.items, last.key, k);
        }
      }
    }
  }

  lemma BeforeAt<T>(items: seq<T>, d: nat, q: nat)
    requires NoDup(items) && d < |items| && q < |items|
    ensures StandsBefore(items, items[d], items[q]) <==> d < q
  {
  }

  lemma RemovedAt<T>(items: seq<T>, d: nat, p: nat)
    requires NoDup(items) && d < |items| && p < |items| - 1
    ensures |RemoveFirst(items, items[d])| == |items| - 1
    ensures RemoveFirst(items, items[d])[p] == items[if p < d then p else p + 1]
  {
    RemoveFirstAt(items, d);
  }

  /** The drift: a stored index exceeds the real position by exactly the number
      of keys lost in front of it. */
  lemma {:induction false} IndexDrift<T>(ops: seq<Op<T>>, p: nat)
    requires p < |Replay(ops).items|
    ensures Replay(ops).items[p] in Replay(ops).index
    ensures Replay(ops).index[Replay(ops).items[p]] == p + Lost(ops, Replay(ops).items[p])
    decreases |ops|
  {
    Represented(ops);
    var before, last := ops[..|ops| - 1], ops[|ops| - 1];
    Represented(before);
    if last.Add? {
      if p < |Replay(before).items| {
        IndexDrift(before, p);
      }
    } else {
      var q := OldPosition(before, last.key, p);
      IndexDrift(before, q);
    }
  }

  /** Where the item at position p stood before a discard. */
  lemma OldPosition<T>(before: seq<Op<T>>, key: T, p: nat) returns (q: nat)
    requires p < |RemoveFirst(Replay(before).items, key)|
    ensures q < |Replay(before).items|
    ensures Replay(before).items[q] == RemoveFirst(Replay(before).items, key)[p]
    ensures Replay(before).items[q] != key
    ensures q - p == if StandsBefore(Replay(before).items, key, Replay(before).items[q]) then 1 else 0
  {
    Represented(before);
    var items := Replay(before).items;
    if key in items {
      var d :| 0 <= d < |items| && items[d] == key;
      RemoveFirstAt(items, d);
      RemovedAt(items, d, p);
      q := if p < d then p else p + 1;
      BeforeAt(items, d, q);
    } else {
      RemoveFirstAbsent(items, key);
      q := p;
    }
  }

  /** "Every entry has an index that can be looked up" holds for a key exactly
      when no key in front of it has been discarded since it was inserted. */
  lemma LookupExactIff<T>(ops: seq<Op<T>>, k: T)
    requires k in Replay(ops).index
    ensures var r := Replay(ops);
            (r.index[k] < |r.items| && r.items[r.index[k]] == k) <==> Lost(ops, k) == 0
  {
    Represented(ops);
    var r := Replay(ops);
    var p :| 0 <= p < |r.items| && r.items[p] == k;
    IndexDrift(ops, p);
  }

  /** Without discards every index is exact. */
  lemma {:induction false} DiscardFreeExact<T>(ops: seq<Op<T>>, k: T)
    requires forall op :: op in ops ==> op.Add?
    requires k in Replay(ops).index
    ensures Lost(ops, k) == 0
  {
    var before := ops[..|ops| - 1];
    assert forall op :: op in before ==> op in ops;
    assert ops[|ops| - 1] in ops;
    if k in Replay(before).index {
      DiscardFreeExact(before, k);
    }
  }

  /** A drifted set can hand out an index that another key already holds. */
  lemma IndexCollision()
    ensures var r := Replay([Add('a'), Add('b'), Discard('a'), Add('c')]);
            r.items == ['b', 'c'] && r.index == map['b' := 1, 'c' := 1]
  {
    var ops := [Add('a'), Add('b'), Discard('a'), Add('c')];
    assert ops[..3] == [Add('a'), Add('b'), Discard('a')];
    assert ops[..3][..2] == [Add('a'), Add('b')];
    assert ops[..3][..2][..1] == [Add('a')];
    assert ops[..3][..2][..1][..0] == [];
    assert Replay([Add('a')]) == Rep(['a'], map['a' := 0]);
    assert Replay([Add('a'), Add('b')]) == Rep(['a', 'b'], map['a' := 0, 'b' := 1]);
    assert RemoveFirst(['a', 'b'], 'a') == ['b'];
    assert Replay(ops[..3]) == Rep(['b'], map['b' := 1]);
  }

  function Additions<T>(keys: seq<T>): seq<Op<T>> {
    seq(|keys|, i requires 0 <= i < |keys| => Add(keys[i]))
  }

  lemma AdditionsSnoc<T>(keys: seq<T>, i: nat)
    requires i < |keys|
    ensures Additions(keys[..i + 1]) == Additions(keys[..i]) + [Add(keys[i])]
  {
  }

  /** Adding duplicate-free keys to an empty set (`copy`, unpickling) keeps the
      order and makes every index exact. */
  lemma {:induction false} FreshExact<T>(keys: seq<T>)
    requires NoDup(keys)
    ensures var r := Replay(Additions(keys));
            r.items == keys && forall p :: 0 <= p < |keys| ==> keys[p] in r.index && r.index[keys[p]] == p
  {
    if keys == [] {
    } else {
      var n := |keys| - 1;
      FreshExact(keys[..n]);
      assert Additions(keys)[..n] == Additions(keys[..n]);
      Represented(Additions(keys[..n]));
      assert keys == keys[..n] + [keys[n]];
      assert forall p :: 0 <= p < n ==> keys[..n][p] == keys[p];
    }
  }

  /** Where a key occurs first. */
  function FirstAt<T(==)>(keys: seq<T>, k: T): (p: nat)
    requires k in keys
    ensures p < |keys| && keys[p] == k && forall q :: 0 <= q < p ==> keys[q] != k
  {
    if keys[0] == k then 0 else 1 + FirstAt(keys[1..], k)
  }

  /** The different keys of a list, in the order of their first occurrences. */
  ghost predicate FirstOccurrences<T>(items: seq<T>, keys: seq<T>) {
    (forall i :: 0 <= i < |items| ==> items[i] in keys) && (forall p :: 0 <= p < |keys| ==> keys[p] in items)
    && forall i, j :: 0 <= i < j < |items| ==> FirstAt(keys, items[i]) < FirstAt(keys, items[j])
  }

  lemma FirstStays<T>(keys: seq<T>, n: nat, k: T)
    requires n <= |keys| && k in keys[..n]
    ensures k in keys && FirstAt(keys, k) == FirstAt(keys[..n], k)
  {
    assert forall i :: 0 <= i < n ==> keys[..n][i] == keys[i];
  }

  lemma {:induction false} BuiltInOrder<T>(keys: seq<T>)
    ensures FirstOccurrences(Replay(Additions(keys)).items, keys)
  {
    hide FirstOccurrences;
    if keys == [] {
      assert FirstOccurrences<T>([], []) by { NoOccurrences<T>(); }
    } else {
      var n := |keys| - 1;
      BuiltInOrder(keys[..n]);
      assert Additions(keys)[..n] == Additions(keys[..n]);
      Represented(Additions(keys[..n]));
      OneMoreKey(Replay(Additions(keys[..n])).items, keys);
    }
  }

  lemma NoOccurrences<T>()
    ensures FirstOccurrences<T>([], [])
  {
  }

  /** A set built from any list, with repetitions or without, holds the first occurrences in
      order, with exact indexes. */
  lemma BuiltFrom<T>(keys: seq<T>)
    ensures var r := Replay(Additions(keys));
            FirstOccurrences(r.items, keys) && NoDup(r.items)
            && forall p :: 0 <= p < |r.items| ==> r.items[p] in r.index && r.index[r.items[p]] == p
  {
    hide FirstOccurrences;
    var ops := Additions(keys);
    BuiltInOrder(keys);
    Represented(ops);
    forall p | 0 <= p < |Replay(ops).items|
      ensures Replay(ops).items[p] in Replay(ops).index && Replay(ops).index[Replay(ops).items[p]] == p
    {
      IndexDrift(ops, p);
      DiscardFreeExact(ops, Replay(ops).items[p]);
    }
  }

  lemma OneMoreKey<T>(before: seq<T>, keys: seq<T>)
    requires keys != [] && FirstOccurrences(before, keys[..|keys| - 1])
    ensures FirstOccurrences(if keys[|keys| - 1] in before then before else before + [keys[|keys| - 1]], keys)
  {
    var n := |keys| - 1;
    var items := if keys[n] in before then before else before + [keys[n]];
    assert keys == keys[..n] + [keys[n]];
    forall k | k in before
      ensures k in keys && FirstAt(keys, k) == FirstAt(keys[..n], k) < n
    {
      FirstStays(keys, n, k);
    }
    assert forall p :: 0 <= p < n ==> keys[p] == keys[..n][p] && keys[p] in before;
    assert forall i :: 0 <= i < |items| - 1 ==> items[i] in before;
  }

  lemma {:induction false} WithoutNone<T>(items: seq<T>)
    ensures Without(items, {}) == items
  {
    if items != [] {
      WithoutNone(items[1..]);
    }
  }

  lemma {:induction false} WithoutKeeps<T>(items: seq<T>, gone: set<T>, k: T)
    ensures k in Without(items, gone) <==> k in items && k !in gone
  {
    if items != [] {
      WithoutKeeps(items[1..], gone, k);
    }
  }

  /** Filtering keeps the order: an item stands before another in the result
      exactly when both stay and it stood before the other. */
  lemma {:induction false} WithoutKeepsOrder<T>(items: seq<T>, gone: set<T>, x: T, k: T)
    ensures StandsBefore(Without(items, gone), x, k)
       <==> StandsBefore(items, x, k) && x !in gone && k !in gone
  {
    if items == [] {
    } else {
      var rest := Without(items[1..], gone);
      WithoutKeepsOrder(items[1..], gone, x, k);
      WithoutKeeps(items[1..], gone, k);
      WithoutKeeps(items[1..], gone, x);
      BeforeHead(items[0], items[1..], x, k);
      assert items == [items[0]] + items[1..];
      if items[0] !in gone {
        BeforeHead(items[0], rest, x, k);
      }
    }
  }

  lemma BeforeHead<T>(h: T, s: seq<T>, x: T, k: T)
    ensures StandsBefore([h] + s, x, k) <==> StandsBefore(s, x, k) || (h == x && k in s)
  {
    var t := [h] + s;
    assert forall i :: 0 <= i < |s| ==> t[i + 1] == s[i];
    if StandsBefore(s, x, k) {
      var i, j :| 0 <= i < j < |s| && s[i] == x && s[j] == k;
      assert t[i + 1] == x && t[j + 1] == k;
    }
    if h == x && k in s {
      var j :| 0 <= j < |s| && s[j] == k;
      assert t[0] == x && t[j + 1] == k;
    }
    if StandsBefore(t, x, k) {
      var i, j :| 0 <= i < j < |t| && t[i] == x && t[j] == k;
      assert s[j - 1] == k;
      if i > 0 {
        assert s[i - 1] == x;
      }
    }
  }

  /** Removing one more key from a filtered duplicate-free list. */
  lemma {:induction false} WithoutStep<T>(items: seq<T>, gone: set<T>, k: T)
    requires NoDup(items)
    ensures RemoveFirst(Without(items, gone), k) == Without(items, gone + {k})
  {
    if items != [] {
      assert NoDup(items[1..]);
      var rest := items[1..];
      WithoutStep(rest, gone, k);
      if items[0] !in gone {
        assert Without(items, gone)[1..] == Without(rest, gone);
      }
      if items[0] == k {
        assert k !in rest;
        WithoutKeeps(rest, gone, k);
        RemoveFirstAbsent(Without(rest, gone), k);
      }
    }
  }

  function Elements<T(==)>(s: seq<T>): set<T> {
    set k | k in s
  }

  /** What __getstate__ hands to pickle. */
  datatype PickleState<T> = NoneTuple | Items(items: seq<T>)

  class OrderedSet<T(==)> {
    var items: seq<T>
    var index: map<T, nat>
    ghost var history: seq<Op<T>>

    ghost predicate Valid()
      reads this
    {
      Rep(items, index) == Replay(history)
    }

    constructor (iterable: seq<T>)
      ensures Valid() && history == Additions(iterable)
      ensures FirstOccurrences(items, iterable) && NoDup(items)
      ensures forall p :: 0 <= p < |items| ==> items[p] in index && index[items[p]] == p
    {
      items, index, history := [], map[], [];
      new;
      for i := 0 to |iterable|
        invariant Valid() && history == Additions(iterable[..i])
      {
        var _ := Insert(iterable[i]);
        AdditionsSnoc(iterable, i);
      }
      assert iterable[..|iterable|] == iterable;
      BuiltFrom(iterable);
    }

    predicate Contains(key: T)
      reads this
    {
      key in index
    }

    /** `add`: returns the stored index, a new one only for a new key. */
    method Insert(key: T) returns (at: nat)
      requires Valid()
      modifies this
      ensures Valid() && history == old(history) + [Add(key)]
      ensures items == if key in old(items) then old(items) else old(items) + [key]
      ensures key in index && at == index[key]
      ensures at == if key in old(items) then old(Replay(history)).index[key] else |old(items)|
      ensures forall k :: k in old(index) ==> k in index && index[k] == old(index)[k]
    {
      Represented(history);
      if key !in index {
        index := index[key := |items|];
        items := items + [key];
      }
      history := history + [Add(key)];
      assert history[..|history| - 1] == old(history);
      at := index[key];
    }

    method Remove(key: T)
      requires Valid()
      modifies this
      ensures Valid() && history == old(history) + [Discard(key)]
      ensures items == Without(old(items), {key})
    {
      Represented(history);
      WithoutStep(items, {}, key);
      WithoutNone(items);
      assert {} + {key} == {key};
      index := index - {key};
      items := RemoveFirst(items, key);
      history := history + [Discard(key)];
      assert history[..|history| - 1] == old(history);
    }

    method Update(data: seq<T>) returns (indices: seq<nat>)
      requires Valid()
      modifies this
      ensures Valid() && history == old(history) + Additions(data)
      ensures |indices| == |data|
      ensures forall i :: 0 <= i < |data| ==> data[i] in index && indices[i] == index[data[i]]
    {
      indices := [];
      for i := 0 to |data|
        invariant Valid() && history == old(history) + Additions(data[..i])
        invariant |indices| == i
        invariant forall j :: 0 <= j < i ==> data[j] in index && indices[j] == index[data[j]]
      {
        var at := Insert(data[i]);
        indices := indices + [at];
        AdditionsSnoc(data, i);
      }
      assert data[..|data|] == data;
    }

    method DifferenceUpdate(delta: seq<T>)
      requires Valid()
      modifies this
      ensures Valid()
      ensures items == Without(old(items), Elements(delta))
    {
      WithoutNone(items);
      assert Elements(delta[..0]) == {};
      for i := 0 to |delta|
        invariant Valid()
        invariant items == Without(old(items), Elements(delta[..i]))
      {
        Represented(old(history));
        WithoutStep(old(items), Elements(delta[..i]), delta[i]);
        assert Elements(delta[..i + 1]) == Elements(delta[..i]) + {delta[i]};
        Represented(history);
        WithoutStep(items, {}, delta[i]);
        WithoutNone(items);
        assert {} + {delta[i]} == {delta[i]};
        Remove(delta[i]);
      }
      assert delta[..|delta|] == delta;
    }

    method Copy() returns (c: OrderedSet<T>)
      requires Valid()
      ensures fresh(c) && c.Valid() && c.items == items
      ensures forall p :: 0 <= p < |items| ==> items[p] in c.index && c.index[items[p]] == p
    {
      Represented(history);
      FreshExact(items);
      c := new OrderedSet(items);
    }

    method Difference(delta: seq<T>) returns (c: OrderedSet<T>)
      requires Valid()
      ensures fresh(c) && c.Valid()
      ensures c.items == Without(items, Elements(delta))
    {
      c := Copy();
      c.DifferenceUpdate(delta);
    }

    /** `index` raises KeyError for a missing key. */
    method Index(key: T) returns (at: Option<nat>)
      requires Valid()
      ensures at.Some? <==> key in items
      ensures at.Some? ==> exists p :: 0 <= p < |items| && items[p] == key
                             && key in Replay(history).index && at.value == p + Lost(history, key)
    {
      Represented(history);
      if key in index {
        at := Some(index[key]);
        var p :| 0 <= p < |items| && items[p] == key;
        IndexDrift(history, p);
      } else {
        at := None;
      }
    }

    /** `index` of an iterable of keys: their indexes in order, or the first KeyError. */
    method IndexAll(keys: seq<T>) returns (at: Option<seq<nat>>)
      requires Valid()
      ensures at.Some? <==> forall k :: 0 <= k < |keys| ==> keys[k] in items
      ensures at.Some? ==> |at.value| == |keys|
                           && forall k :: 0 <= k < |keys| ==>
                                keys[k] in Replay(history).index && at.value[k] == Replay(history).index[keys[k]]
    {
      Represented(history);
      var found: seq<nat> := [];
      for k := 0 to |keys|
        invariant |found| == k && forall j :: 0 <= j < k ==>
                    keys[j] in items && keys[j] in Replay(history).index && found[j] == Replay(history).index[keys[j]]
      {
        if keys[k] !in index {
          return None;
        }
        found := found + [index[keys[k]]];
      }
      at := Some(found);
    }

    function GetState(): PickleState<T>
      reads this
    {
      if |items| == 0 then NoneTuple else Items(items)
    }

    constructor SetState(state: PickleState<T>)
      ensures Valid()
      ensures history == Additions(if state.NoneTuple? then [] else state.items)
    {
      items, index, history := [], map[], [];
      new;
      if state.Items? {
        var _ := Update(state.items);
      }
    }

    /** Pickling and unpickling keeps the order and repairs every index. */
    method PickleRoundTrip() returns (c: OrderedSet<T>)
      requires Valid()
      ensures fresh(c) && c.Valid() && c.items == items
      ensures forall p :: 0 <= p < |items| ==> items[p] in c.index && c.index[items[p]] == p
    {
      Represented(history);
      FreshExact(items);
      c := new OrderedSet<T>.SetState(GetState());
      assert c.history == Additions(items);
    }
  }
}
