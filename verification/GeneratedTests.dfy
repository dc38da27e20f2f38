/** virter/vmshed_tests_generator.py: exactly which tests one run writes, and with what. */
module GeneratedTests {
  import opened Wrappers
  import opened VersionOrder
  import opened TestsGenerator

  // ---- when a version is too low ----

  /** Lexicographic order of versions cut after their first wildcard. */
  ghost predicate IsBelow(a: Version, b: Version) {
    LexLess(Cut(a), Cut(b))
  }

  /** A number meets a text first. */
  ghost predicate Incomparably(a: Version, b: Version) {
    Clash(Cut(a), Cut(b))
  }

  /** The first number is less than nine. */
  predicate IsOld(lower: Option<Version>)
    requires lower.Some? ==> lower.value != []
  {
    lower.Some? && lower.value[0].Num? && lower.value[0].n < 9
  }

  // ---- what is kept of a list ----

  /** Strictly increasing positions. */
  ghost predicate Increasing(ps: seq<nat>, length: nat) {
    (forall i :: 0 <= i < |ps| ==> ps[i] < length) && (forall i, j :: 0 <= i < j < |ps| ==> ps[i] < ps[j])
  }

  /** The machine counts at these positions, which are those of at most two. */
  ghost predicate KeptAt(ps: seq<nat>, vms: seq<int>, kept: seq<int>) {
    Increasing(ps, |vms|) && |kept| == |ps| && (forall i :: 0 <= i < |ps| ==> kept[i] == vms[ps[i]])
    && forall p :: 0 <= p < |vms| ==> (p in ps <==> vms[p] <= 2)
  }

  /** The counts of at most two, in their order. */
  ghost predicate AtMostTwoOf(vms: seq<int>, kept: seq<int>) {
    exists ps :: KeptAt(ps, vms, kept)
  }

  function Shifted(ps: seq<nat>): (qs: seq<nat>)
    ensures |qs| == |ps| && forall i :: 0 <= i < |ps| ==> qs[i] == ps[i] + 1
  {
    seq(|ps|, i requires 0 <= i < |ps| => ps[i] + 1)
  }

  lemma {:induction false} KeepsAtMostTwo(vms: seq<int>)
    ensures AtMostTwoOf(vms, AtMostTwo(vms))
  {
    if vms == [] {
      assert KeptAt([], vms, []);
    } else {
      KeepsAtMostTwo(vms[1..]);
      var ps :| KeptAt(ps, vms[1..], AtMostTwo(vms[1..]));
      KeepsOneMore(ps, vms, AtMostTwo(vms[1..]));
    }
  }

  lemma KeepsOneMore(ps: seq<nat>, vms: seq<int>, kept: seq<int>)
    requires vms != [] && KeptAt(ps, vms[1..], kept)
    ensures AtMostTwoOf(vms, if vms[0] <= 2 then [vms[0]] + kept else kept)
  {
    var qs := Shifted(ps);
    ShiftedIn(ps);
    if vms[0] <= 2 {
      var all := [0] + qs;
      assert forall i :: 0 < i < |all| ==> all[i] == qs[i - 1];
      assert forall p :: p in all <==> p == 0 || p in qs;
      assert KeptAt(all, vms, [vms[0]] + kept);
    } else {
      assert 0 !in qs;
      assert KeptAt(qs, vms, kept);
    }
  }

  lemma ShiftedIn(ps: seq<nat>)
    ensures forall p: nat :: p in Shifted(ps) <==> p > 0 && p - 1 in ps
  {
    var qs := Shifted(ps);
    forall p: nat
      ensures p in qs <==> p > 0 && p - 1 in ps
    {
      if p in qs {
        var i :| 0 <= i < |qs| && qs[i] == p;
        assert ps[i] == p - 1;
      }
      if p > 0 && p - 1 in ps {
        var i :| 0 <= i < |ps| && ps[i] == p - 1;
        assert qs[i] == p;
      }
    }
  }

  /** The machine counts of a test in a run. */
  ghost predicate MachinesOf(c: TestConfig, lower: Option<Version>, vms: seq<int>)
    requires lower.Some? ==> lower.value != []
  {
    c.vms.Some? && (if IsOld(lower) then AtMostTwoOf(c.vms.value, vms) else vms == c.vms.value)
  }

  // ---- variants ----

  /** A variant is among those added: plainly, or since a version below the lower one, or
      since any version if none was given. */
  ghost predicate IsAdded(items: seq<VariantItem>, lower: Option<Version>, v: string) {
    exists k :: 0 <= k < |items| && ItemAdds(items[k], lower, v)
  }

  ghost predicate ItemRaises(item: VariantItem, lower: Option<Version>) {
    item.Since? && lower.Some? && Incomparably(ParseVersion(item.versionMin), lower.value)
  }

  ghost predicate SomeRaises(items: seq<VariantItem>, lower: Option<Version>) {
    exists k :: 0 <= k < |items| && ItemRaises(items[k], lower)
  }

  ghost predicate ItemAdds(item: VariantItem, lower: Option<Version>, v: string) {
    item.variant == v && (item.Plain? || lower.None? || IsBelow(ParseVersion(item.versionMin), lower.value))
  }

  /** The variants are those added, and the exception is that of some item. */
  lemma {:induction false} VariantsAddExact(items: seq<VariantItem>, lower: Option<Version>)
    ensures VariantsAdd(items, lower).Err? <==> SomeRaises(items, lower)
    ensures VariantsAdd(items, lower).Ok? ==>
              forall v :: v in VariantsAdd(items, lower).value <==> IsAdded(items, lower, v)
  {
    hide IsBelow, Incomparably, ParseVersion;
    if items != [] {
      var n := |items| - 1;
      VariantsAddExact(items[..n], lower);
      LastItem(items, lower);
      if items[n].Since? && lower.Some? {
        LexDecides(ParseVersion(items[n].versionMin), lower.value);
      }
    }
  }

  lemma LexDecides(a: Version, b: Version)
    ensures IsLower(a, b) == Ok(true) <==> IsBelow(a, b)
    ensures IsLower(a, b).Err? <==> Incomparably(a, b)
  {
    IsLowerIsLex(a, b);
  }

  lemma LastItem(items: seq<VariantItem>, lower: Option<Version>)
    requires items != []
    ensures var n := |items| - 1;
            (SomeRaises(items, lower) <==> SomeRaises(items[..n], lower) || ItemRaises(items[n], lower))
            && forall v :: IsAdded(items, lower, v) <==> IsAdded(items[..n], lower, v) || ItemAdds(items[n], lower, v)
  {
    hide ItemAdds, ItemRaises;
    var n := |items| - 1;
    assert forall k :: 0 <= k < n ==> items[..n][k] == items[k];
    forall v
      ensures IsAdded(items, lower, v) <==> IsAdded(items[..n], lower, v) || ItemAdds(items[n], lower, v)
    {
      if IsAdded(items[..n], lower, v) {
        var k :| 0 <= k < n && ItemAdds(items[..n][k], lower, v);
        assert ItemAdds(items[k], lower, v);
      }
    }
    if SomeRaises(items[..n], lower) {
      var k :| 0 <= k < n && ItemRaises(items[..n][k], lower);
      assert ItemRaises(items[k], lower);
    }
  }

  // ---- one test ----

  /** Some machine count is left. */
  ghost predicate HasMachines(c: TestConfig, lower: Option<Version>)
    requires lower.Some? ==> lower.value != []
  {
    c.vms.Some? && exists x :: x in c.vms.value && (IsOld(lower) ==> x <= 2)
  }

  ghost predicate TooLow(c: TestConfig, lower: Option<Version>) {
    lower.Some? && c.versionMin.Some? && IsBelow(lower.value, ParseVersion(c.versionMin.value))
  }

  /** A selection is there, some machine count is left, and no minimum is above the
      version. */
  ghost predicate IsWritten(c: TestConfig, lower: Option<Version>)
    requires lower.Some? ==> lower.value != []
  {
    HasMachines(c, lower) && !TooLow(c, lower)
  }

  /** What the test is written with. */
  ghost predicate WrittenAs(c: TestConfig, lower: Option<Version>, defaults: set<string>, e: Entry)
    requires lower.Some? ==> lower.value != []
  {
    e.name == c.name && e.rest == c.rest && MachinesOf(c, lower, e.vms)
    && forall v :: v in e.variants <==> v in defaults || IsAdded(c.variantsAdd, lower, v)
  }

  /** The first element of the version is a text, or a comparison with a minimum meets a
      text against a number. */
  ghost predicate TestRaises(c: TestConfig, lower: Option<Version>)
    requires lower.Some? ==> lower.value != []
  {
    c.vms.Some? && lower.Some?
    && (lower.value[0].Str?
        || (HasMachines(c, lower) && c.versionMin.Some? && Incomparably(lower.value, ParseVersion(c.versionMin.value)))
        || (IsWritten(c, lower) && SomeRaises(c.variantsAdd, lower)))
  }

  lemma VmListExact(c: TestConfig, lower: Option<Version>)
    requires lower.Some? ==> lower.value != []
    requires c.vms.Some?
    ensures VmList(c, lower).Err? <==> lower.Some? && lower.value[0].Str?
    ensures VmList(c, lower).Ok? ==> MachinesOf(c, lower, VmList(c, lower).value)
    ensures VmList(c, lower).Ok? ==> (VmList(c, lower).value != [] <==> HasMachines(c, lower))
  {
    KeepsAtMostTwo(c.vms.value);
    forall x
      ensures x in AtMostTwo(c.vms.value) <==> x in c.vms.value && x <= 2
    {
      AtMostTwoExact(c.vms.value, x);
    }
    if VmList(c, lower).Ok? && VmList(c, lower).value != [] {
      assert VmList(c, lower).value[0] in VmList(c, lower).value;
    }
  }

  /** Exactly when a run writes a test, with what, and when it raises instead. */
  lemma EmitExact(c: TestConfig, lower: Option<Version>, defaults: set<string>)
    requires lower.Some? ==> lower.value != []
    ensures var r := Emit(c, lower, defaults);
            (r.Err? <==> TestRaises(c, lower))
            && (r.Ok? ==> (r.value.Some? <==> IsWritten(c, lower)))
            && (r.Ok? && r.value.Some? ==> WrittenAs(c, lower, defaults, r.value.value))
  {
    hide VmList, MachinesOf, HasMachines, IsBelow, Incomparably, SomeRaises, IsAdded, ParseVersion;
    if c.vms.Some? {
      VmListExact(c, lower);
      VariantsAddExact(c.variantsAdd, lower);
      NothingRaises(c.variantsAdd, lower);
      if lower.Some? && c.versionMin.Some? {
        LexDecides(lower.value, ParseVersion(c.versionMin.value));
      }
    }
    NoMachines(c, lower);
  }

  lemma NoMachines(c: TestConfig, lower: Option<Version>)
    requires lower.Some? ==> lower.value != []
    ensures HasMachines(c, lower) ==> c.vms.Some?
  {
  }

  lemma NothingRaises(items: seq<VariantItem>, lower: Option<Version>)
    ensures SomeRaises(items, lower) ==> lower.Some?
  {
  }

  // ---- the run ----

  /** Which of two versions counts. */
  ghost function Counting(version: Option<Version>, other: Option<Version>): Option<Version> {
    if version.None? then other
    else if other.None? || IsBelow(version.value, other.value) then version
    else other
  }

  lemma LowerVersionExact(version: Option<Version>, other: Option<Version>)
    ensures LowerVersion(version, other).Err? <==> version.Some? && other.Some? && Incomparably(version.value, other.value)
    ensures LowerVersion(version, other).Ok? ==> LowerVersion(version, other).value == Counting(version, other)
  {
    hide IsBelow, Incomparably;
    if version.Some? && other.Some? {
      LexDecides(version.value, other.value);
    }
  }

  /** The entries are those of the configurations at these positions, which are the ones
      that are written. */
  ghost predicate WrittenAt(ps: seq<nat>, cs: seq<TestConfig>, lower: Option<Version>, defaults: set<string>, es: seq<Entry>)
    requires lower.Some? ==> lower.value != []
  {
    Increasing(ps, |cs|) && |es| == |ps| && (forall i :: 0 <= i < |ps| ==> WrittenAs(cs[ps[i]], lower, defaults, es[i]))
    && forall p :: 0 <= p < |cs| ==> (p in ps <==> IsWritten(cs[p], lower))
  }

  lemma {:induction false} EmitAllRaises(cs: seq<TestConfig>, lower: Option<Version>, defaults: set<string>)
    requires lower.Some? ==> lower.value != []
    ensures EmitAll(cs, lower, defaults).Err? <==> exists p :: 0 <= p < |cs| && TestRaises(cs[p], lower)
    decreases |cs|
  {
    hide Emit, TestRaises;
    if cs != [] {
      var n := |cs| - 1;
      assert forall p :: 0 <= p < n ==> cs[..n][p] == cs[p];
      EmitAllRaises(cs[..n], lower, defaults);
      EmitExact(cs[n], lower, defaults);
      if exists p :: 0 <= p < n && TestRaises(cs[..n][p], lower) {
        var p :| 0 <= p < n && TestRaises(cs[..n][p], lower);
        assert TestRaises(cs[p], lower);
      }
    }
  }

  lemma {:induction false} EmitAllWrites(cs: seq<TestConfig>, lower: Option<Version>, defaults: set<string>)
    requires lower.Some? ==> lower.value != []
    requires EmitAll(cs, lower, defaults).Ok?
    ensures exists ps :: WrittenAt(ps, cs, lower, defaults, EmitAll(cs, lower, defaults).value)
    decreases |cs|
  {
    hide Emit, WrittenAt, WrittenAs, IsWritten;
    if cs == [] {
      WrittenNothing(lower, defaults);
    } else {
      var n := |cs| - 1;
      EmitAllWrites(cs[..n], lower, defaults);
      EmitExact(cs[n], lower, defaults);
      var es, e := EmitAll(cs[..n], lower, defaults).value, Emit(cs[n], lower, defaults).value;
      var ps :| WrittenAt(ps, cs[..n], lower, defaults, es);
      assert cs == cs[..n] + [cs[n]];
      if e.Some? {
        WrittenNext(ps, cs[..n], cs[n], lower, defaults, es, e.value);
      } else {
        NotWrittenNext(ps, cs[..n], cs[n], lower, defaults, es);
      }
    }
  }

  lemma WrittenNothing(lower: Option<Version>, defaults: set<string>)
    requires lower.Some? ==> lower.value != []
    ensures WrittenAt([], [], lower, defaults, [])
  {
  }

  lemma WrittenNext(ps: seq<nat>, init: seq<TestConfig>, c: TestConfig, lower: Option<Version>, defaults: set<string>,
                    es: seq<Entry>, e: Entry)
    requires lower.Some? ==> lower.value != []
    requires WrittenAt(ps, init, lower, defaults, es) && IsWritten(c, lower) && WrittenAs(c, lower, defaults, e)
    ensures WrittenAt(ps + [|init|], init + [c], lower, defaults, es + [e])
  {
    hide WrittenAs, IsWritten;
    var qs := ps + [|init|];
    assert forall p :: p in qs <==> p in ps || p == |init|;
    assert Increasing(qs, |init| + 1);
    assert forall i :: 0 <= i < |ps| ==> qs[i] == ps[i] && (init + [c])[qs[i]] == init[ps[i]];
  }

  lemma NotWrittenNext(ps: seq<nat>, init: seq<TestConfig>, c: TestConfig, lower: Option<Version>, defaults: set<string>,
                       es: seq<Entry>)
    requires lower.Some? ==> lower.value != []
    requires WrittenAt(ps, init, lower, defaults, es) && !IsWritten(c, lower)
    ensures WrittenAt(ps, init + [c], lower, defaults, es)
  {
    hide WrittenAs, IsWritten;
    assert |init| !in ps;
  }

  /** What a whole run writes: in the order of the configurations exactly the tests that
      are written for the version that counts, each with its machines and variants; it
      raises iff the two versions cannot be compared or some test raises. */
  lemma GenerateExact(cs: seq<TestConfig>, version: Option<Version>, other: Option<Version>, defaults: set<string>)
    requires version.Some? ==> version.value != []
    requires other.Some? ==> other.value != []
    ensures var r, lower := Generate(cs, version, other, defaults), Counting(version, other);
            (r.Err? <==> (version.Some? && other.Some? && Incomparably(version.value, other.value))
                         || exists p :: 0 <= p < |cs| && TestRaises(cs[p], lower))
            && (r.Ok? ==> exists ps :: WrittenAt(ps, cs, lower, defaults, r.value))
  {
    hide IsBelow, Incomparably, TestRaises, WrittenAt;
    LowerVersionExact(version, other);
    EmitAllRaises(cs, Counting(version, other), defaults);
    if Generate(cs, version, other, defaults).Ok? {
      EmitAllWrites(cs, Counting(version, other), defaults);
    }
  }
}
