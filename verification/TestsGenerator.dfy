/** virter/vmshed_tests_generator.py: which tests, VM counts and variants are
    written for one or two DRBD versions. */
module TestsGenerator {
  import opened Wrappers
  import opened VersionOrder

  datatype VariantItem = Plain(variant: string) | Since(variant: string, versionMin: string)

  /** The configuration line of one test; `vms` is the list of the chosen selection.
      `rest` stands for the parts that are printed as they are. */
  datatype TestConfig = TestConfig(
    name: string,
    vms: Option<seq<int>>,
    versionMin: Option<string>,
    variantsAdd: seq<VariantItem>,
    rest: string)

  datatype Entry = Entry(name: string, vms: seq<int>, variants: set<string>, rest: string)

  type Version = seq<Element>

  /** Python's `v < [9]` on lists, for a parsed version. */
  function BelowNine(v: Version): Result<bool, Raise>
    requires v != []
  {
    if v[0] == Num(9) then Ok(|v| < 1) else ElementLess(v[0], Num(9))
  }

  function AtMostTwo(vms: seq<int>): seq<int> {
    if vms == [] then []
    else if vms[0] <= 2 then [vms[0]] + AtMostTwo(vms[1..])
    else AtMostTwo(vms[1..])
  }

  /** The lower of the requested versions, None when none was requested. */
  function LowerVersion(version: Option<Version>, other: Option<Version>): Result<Option<Version>, Raise> {
    if other.None? then Ok(version)
    else if version.None? then Ok(other)
    else
      var lower :- IsLower(version.value, other.value);
      Ok(if lower then version else other)
  }

  function VariantsAdd(items: seq<VariantItem>, lower: Option<Version>): Result<set<string>, Raise> {
    if items == [] then Ok({})
    else
      var n := |items| - 1;
      var before :- VariantsAdd(items[..n], lower);
      match items[n]
      case Plain(v) => Ok(before + {v})
      case Since(v, vmin) =>
        if lower.None? then Ok(before + {v})
        else
          var above :- IsLower(ParseVersion(vmin), lower.value);
          Ok(if above then before + {v} else before)
  }

  /** The VM list of a test after the restriction for DRBD 8. */
  function VmList(c: TestConfig, lower: Option<Version>): Result<seq<int>, Raise>
    requires c.vms.Some?
    requires lower.Some? ==> lower.value != []
  {
    if lower.None? then Ok(c.vms.value)
    else
      var isOld :- BelowNine(lower.value);
      Ok(if isOld then AtMostTwo(c.vms.value) else c.vms.value)
  }

  /** What is written for one test, None when it is passed over. */
  function Emit(c: TestConfig, lower: Option<Version>, defaults: set<string>): Result<Option<Entry>, Raise>
    requires lower.Some? ==> lower.value != []
  {
    if c.vms.None? then Ok(None)
    else
      var vms :- VmList(c, lower);
      if vms == [] then Ok(None)
      else
        var tooOld :- if lower.Some? && c.versionMin.Some?
                      then IsLower(lower.value, ParseVersion(c.versionMin.value)) else Ok(false);
        if tooOld then Ok(None)
        else
          var added :- VariantsAdd(c.variantsAdd, lower);
          Ok(Some(Entry(c.name, vms, defaults + added, c.rest)))
  }

  function EmitAll(cs: seq<TestConfig>, lower: Option<Version>, defaults: set<string>): Result<seq<Entry>, Raise>
    requires lower.Some? ==> lower.value != []
  {
    if cs == [] then Ok([])
    else
      var n := |cs| - 1;
      var before :- EmitAll(cs[..n], lower, defaults);
      var e :- Emit(cs[n], lower, defaults);
      Ok(Snoc(before, e))
  }

  function Snoc(es: seq<Entry>, e: Option<Entry>): seq<Entry> {
    if e.Some? then es + [e.value] else es
  }

  /** The whole run: None stands for an option that was not given. */
  function Generate(cs: seq<TestConfig>, version: Option<Version>, other: Option<Version>,
                    defaults: set<string>): Result<seq<Entry>, Raise>
    requires version.Some? ==> version.value != []
    requires other.Some? ==> other.value != []
  {
    var lower :- LowerVersion(version, other);
    EmitAll(cs, lower, defaults)
  }

  // ---- the loops of the script ----

  method ParseVariantsAdd(items: seq<VariantItem>, lower: Option<Version>) returns (r: Result<set<string>, Raise>)
    ensures r == VariantsAdd(items, lower)
  {
    var variants := {};
    for i := 0 to |items|
      invariant VariantsAdd(items[..i], lower) == Ok(variants)
    {
      assert items[..i + 1][..i] == items[..i];
      var add := true;
      if items[i].Since? && lower.Some? {
        var above := IsLowerLoop(ParseVersion(items[i].versionMin), lower.value);
        if above.Err? {
          FailsAt(items, lower, i);
          return Err(above.error);
        }
        add := above.value;
      }
      if add {
        variants := variants + {items[i].variant};
      }
    }
    assert items[..|items|] == items;
    r := Ok(variants);
  }

  lemma {:induction false} FailsAt(items: seq<VariantItem>, lower: Option<Version>, i: nat)
    requires i < |items| && VariantsAdd(items[..i + 1], lower).Err?
    ensures VariantsAdd(items, lower) == VariantsAdd(items[..i + 1], lower)
    decreases |items|
  {
    var n := |items| - 1;
    if i == n {
      assert items[..i + 1] == items;
    } else {
      assert items[..n][..i + 1] == items[..i + 1];
      FailsAt(items[..n], lower, i);
    }
  }

  lemma {:induction false} EmitFailsAt(cs: seq<TestConfig>, lower: Option<Version>, defaults: set<string>, i: nat)
    requires lower.Some? ==> lower.value != []
    requires i < |cs| && EmitAll(cs[..i + 1], lower, defaults).Err?
    ensures EmitAll(cs, lower, defaults) == EmitAll(cs[..i + 1], lower, defaults)
    decreases |cs|
  {
    hide Emit;
    var n := |cs| - 1;
    if i == n {
      assert cs[..i + 1] == cs;
    } else {
      assert cs[..n][..i + 1] == cs[..i + 1];
      EmitFailsAt(cs[..n], lower, defaults, i);
    }
  }

  /** One round of the writing loop. */
  method WriteTest(c: TestConfig, lower: Option<Version>, defaults: set<string>)
    returns (r: Result<Option<Entry>, Raise>)
    requires lower.Some? ==> lower.value != []
    ensures r == Emit(c, lower, defaults)
  {
    if c.vms.None? {
      return Ok(None);
    }
    var vms := c.vms.value;
    if lower.Some? {
      var isOld := BelowNine(lower.value);
      if isOld.Err? {
        return Err(isOld.error);
      }
      if isOld.value {
        vms := AtMostTwo(vms);
      }
    }
    if vms == [] {
      return Ok(None);
    }
    if lower.Some? && c.versionMin.Some? {
      var tooOld := IsLowerLoop(lower.value, ParseVersion(c.versionMin.value));
      if tooOld.Err? {
        return Err(tooOld.error);
      }
      if tooOld.value {
        return Ok(None);
      }
    }
    var added := ParseVariantsAdd(c.variantsAdd, lower);
    if added.Err? {
      return Err(added.error);
    }
    r := Ok(Some(Entry(c.name, vms, defaults + added.value, c.rest)));
  }

  method WriteTests(cs: seq<TestConfig>, version: Option<Version>, other: Option<Version>, defaults: set<string>)
    returns (r: Result<seq<Entry>, Raise>)
    requires version.Some? ==> version.value != []
    requires other.Some? ==> other.value != []
    ensures r == Generate(cs, version, other, defaults)
  {
    var lower := version;
    if other.Some? {
      lower := other;
      if version.Some? {
        var isLower := IsLowerLoop(version.value, other.value);
        if isLower.Err? {
          return Err(isLower.error);
        }
        if isLower.value {
          lower := version;
        }
      }
    }
    var written := [];
    for i := 0 to |cs|
      invariant EmitAll(cs[..i], lower, defaults) == Ok(written)
    {
      assert cs[..i + 1][..i] == cs[..i];
      var e := WriteTest(cs[i], lower, defaults);
      if e.Err? {
        EmitFailsAt(cs, lower, defaults, i);
        return Err(e.error);
      }
      if e.value.Some? {
        written := written + [e.value.value];
      }
    }
    assert cs[..|cs|] == cs;
    r := Ok(written);
  }

  // ---- selection is monotone in the version order ----

  /** b is not below a. */
  ghost predicate AtLeast(b: Version, a: Version) {
    IsLower(b, a) == Ok(false)
  }

  lemma LowerThenAtLeast(x: Version, a: Version, b: Version)
    requires Lower(x, a) && AtLeast(b, a)
    ensures Lower(x, b)
  {
    Trichotomy(a, b);
    if Lower(a, b) {
      Transitive(x, a, b);
    } else {
      IsLowerCutEqual(a, b);
      LowerRespects(a, b, x);
    }
  }

  lemma AtLeastMonotone(m: Version, a: Version, b: Version)
    requires AtLeast(a, m) && AtLeast(b, a) && IsLower(b, m).Ok?
    ensures AtLeast(b, m)
  {
    Trichotomy(b, m);
    if Lower(b, m) {
      Trichotomy(b, a);
      if Lower(a, b) {
        Transitive(a, b, m);
      } else {
        IsLowerCutEqual(a, b);
        LowerRespects(a, b, m);
      }
    }
  }

  lemma BelowNineMonotone(a: Version, b: Version)
    requires a != [] && b != [] && AtLeast(b, a)
    requires BelowNine(a).Ok? && BelowNine(b) == Ok(true)
    ensures BelowNine(a) == Ok(true)
  {
    Trichotomy(a, b);
  }

  lemma {:induction false} VariantsMonotone(items: seq<VariantItem>, a: Version, b: Version)
    requires AtLeast(b, a)
    requires VariantsAdd(items, Some(a)).Ok? && VariantsAdd(items, Some(b)).Ok?
    ensures VariantsAdd(items, Some(a)).value <= VariantsAdd(items, Some(b)).value
  {
    if items != [] {
      var n := |items| - 1;
      VariantsMonotone(items[..n], a, b);
      if items[n].Since? {
        var m := ParseVersion(items[n].versionMin);
        if Lower(m, a) {
          LowerThenAtLeast(m, a, b);
        }
      }
    }
  }

  lemma {:induction false} AtMostTwoExact(vms: seq<int>, x: int)
    ensures x in AtMostTwo(vms) <==> x in vms && x <= 2
  {
    if vms != [] {
      AtMostTwoExact(vms[1..], x);
    }
  }

  // ---- the meet of two single-version runs ----

  function Common(s: seq<int>, t: seq<int>): seq<int> {
    if s == [] then []
    else if s[0] in t then [s[0]] + Common(s[1..], t)
    else Common(s[1..], t)
  }

  lemma {:induction false} CommonExact(s: seq<int>, t: seq<int>, x: int)
    ensures x in Common(s, t) <==> x in s && x in t
  {
    if s != [] {
      CommonExact(s[1..], t, x);
    }
  }

  lemma {:induction false} CommonAll(s: seq<int>, t: seq<int>)
    requires forall x :: x in s ==> x in t
    ensures Common(s, t) == s
  {
    if s != [] {
      var x := s[0];
      assert x in s && x in t;
      assert forall y :: y in s[1..] ==> y in s;
      CommonAll(s[1..], t);
      assert s == [x] + s[1..];
    }
  }

  lemma {:induction false} CommonAtMostTwo(s: seq<int>, t: seq<int>)
    requires forall x :: x in s ==> x in t
    ensures Common(s, AtMostTwo(t)) == AtMostTwo(s)
  {
    if s != [] {
      assert forall x :: x in s[1..] ==> x in s;
      CommonAtMostTwo(s[1..], t);
      AtMostTwoExact(t, s[0]);
    }
  }

  function MeetEntry(e: Entry, f: Entry): Entry {
    Entry(e.name, Common(e.vms, f.vms), e.variants * f.variants, e.rest)
  }

  function Find(es: seq<Entry>, name: string): Option<Entry> {
    if es == [] then None
    else if es[|es| - 1].name == name then Some(es[|es| - 1])
    else Find(es[..|es| - 1], name)
  }

  /** The tests written by both runs, with the VM counts and the variants that
      both runs give them. */
  function Meet(es: seq<Entry>, fs: seq<Entry>): seq<Entry> {
    if es == [] then []
    else
      var n := |es| - 1;
      var f := Find(fs, es[n].name);
      Meet(es[..n], fs) + (if f.Some? then [MeetEntry(es[n], f.value)] else [])
  }

  ghost predicate DistinctNames(cs: seq<TestConfig>) {
    forall i, j :: 0 <= i < j < |cs| ==> cs[i].name != cs[j].name
  }

  /** The VM list of the lower version is the part common to both lists. */
  lemma VmListMonotone(c: TestConfig, a: Version, b: Version)
    requires a != [] && b != [] && c.vms.Some? && AtLeast(b, a)
    requires VmList(c, Some(a)).Ok? && VmList(c, Some(b)).Ok?
    ensures var s, t := VmList(c, Some(a)).value, VmList(c, Some(b)).value;
            s == Common(s, t) == Common(t, s) && (t == [] ==> s == [])
  {
    if BelowNine(b) == Ok(true) {
      BelowNineMonotone(a, b);
    }
    var vms := c.vms.value;
    forall x | x in AtMostTwo(vms)
      ensures x in vms
    {
      AtMostTwoExact(vms, x);
    }
    CommonAll(vms, vms);
    CommonAll(AtMostTwo(vms), AtMostTwo(vms));
    CommonAll(AtMostTwo(vms), vms);
    CommonAtMostTwo(vms, vms);
  }

  /** For one test: what the lower version emits the higher one emits too, and
      the two agree on everything that both give. */
  lemma EmitMonotone(c: TestConfig, a: Version, b: Version, defaults: set<string>)
    requires a != [] && b != [] && AtLeast(b, a)
    requires Emit(c, Some(a), defaults).Ok? && Emit(c, Some(b), defaults).Ok?
    ensures var e, f := Emit(c, Some(a), defaults).value, Emit(c, Some(b), defaults).value;
            e.Some? ==> f.Some? && e.value == MeetEntry(e.value, f.value)
                        && e.value == MeetEntry(f.value, e.value)
  {
    var e, f := Emit(c, Some(a), defaults).value, Emit(c, Some(b), defaults).value;
    if e.Some? {
      VmListMonotone(c, a, b);
      if c.versionMin.Some? {
        var m := ParseVersion(c.versionMin.value);
        if IsLower(b, m).Ok? {
          AtLeastMonotone(m, a, b);
        }
      }
      assert f.Some?;
      VariantsMonotone(c.variantsAdd, a, b);
      assert e.value.variants <= f.value.variants;
      assert e.value.variants * f.value.variants == e.value.variants == f.value.variants * e.value.variants;
    }
  }

  lemma {:induction false} NamesFromConfigs(cs: seq<TestConfig>, v: Version, defaults: set<string>, name: string)
    requires v != [] && EmitAll(cs, Some(v), defaults).Ok?
    requires forall c :: c in cs ==> c.name != name
    ensures Find(EmitAll(cs, Some(v), defaults).value, name) == None
    decreases |cs|
  {
    if cs != [] {
      var n := |cs| - 1;
      assert forall c :: c in cs[..n] ==> c in cs;
      assert cs[n] in cs;
      NamesFromConfigs(cs[..n], v, defaults, name);
      var es := EmitAll(cs[..n], Some(v), defaults).value;
      var e := Emit(cs[n], Some(v), defaults).value;
      if e.Some? {
        assert (es + [e.value])[..|es|] == es;
      }
    }
  }

  /** A name that does not occur on the left leaves the meet alone. */
  lemma {:induction false} MeetIgnores(es: seq<Entry>, fs: seq<Entry>, f: Entry)
    requires Find(es, f.name) == None
    ensures Meet(es, fs + [f]) == Meet(es, fs)
  {
    if es != [] {
      var n := |es| - 1;
      MeetIgnores(es[..n], fs, f);
      assert (fs + [f])[..|fs|] == fs;
    }
  }

  /** The two runs in step: what the lower version writes is the meet, taken from
      either side. */
  lemma {:induction false} EmitAllMeet(cs: seq<TestConfig>, a: Version, b: Version, defaults: set<string>)
    requires a != [] && b != [] && AtLeast(b, a) && DistinctNames(cs)
    requires EmitAll(cs, Some(a), defaults).Ok? && EmitAll(cs, Some(b), defaults).Ok?
    ensures var es, fs := EmitAll(cs, Some(a), defaults).value, EmitAll(cs, Some(b), defaults).value;
            es == Meet(es, fs) && es == Meet(fs, es)
    decreases |cs|
  {
    if cs != [] {
      var n := |cs| - 1;
      var c := cs[n];
      EmitAllMeet(cs[..n], a, b, defaults);
      EmitMonotone(c, a, b, defaults);
      var es, fs := EmitAll(cs[..n], Some(a), defaults).value, EmitAll(cs[..n], Some(b), defaults).value;
      var e, f := Emit(c, Some(a), defaults).value, Emit(c, Some(b), defaults).value;
      assert forall d :: d in cs[..n] ==> d.name != c.name;
      NamesFromConfigs(cs[..n], a, defaults, c.name);
      NamesFromConfigs(cs[..n], b, defaults, c.name);
      MeetStep(es, fs, e, f, c.name);
    }
  }

  /** One more test, of a new name, on both sides. */
  lemma MeetStep(es: seq<Entry>, fs: seq<Entry>, e: Option<Entry>, f: Option<Entry>, name: string)
    requires es == Meet(es, fs) && es == Meet(fs, es)
    requires Find(es, name) == None && Find(fs, name) == None
    requires e.Some? ==> f.Some? && e.value.name == name
    requires f.Some? ==> f.value.name == name
    requires e.Some? ==> e.value == MeetEntry(e.value, f.value) == MeetEntry(f.value, e.value)
    ensures Snoc(es, e) == Meet(Snoc(es, e), Snoc(fs, f)) == Meet(Snoc(fs, f), Snoc(es, e))
  {
    if f.Some? {
      MeetIgnores(es, fs, f.value);
      assert (fs + [f.value])[..|fs|] == fs;
      if e.Some? {
        MeetIgnores(fs, es, e.value);
        assert (es + [e.value])[..|es|] == es;
      }
    }
  }

  /** With two versions the script writes exactly what both single-version runs
      write: the same tests, with the common VM counts and variants. */
  lemma GenerateIsMeet(cs: seq<TestConfig>, version: Version, other: Version, defaults: set<string>)
    requires version != [] && other != [] && DistinctNames(cs)
    requires Generate(cs, Some(version), None, defaults).Ok?
    requires Generate(cs, Some(other), None, defaults).Ok?
    requires IsLower(version, other).Ok?
    ensures var es := Generate(cs, Some(version), None, defaults).value;
            var fs := Generate(cs, Some(other), None, defaults).value;
            Generate(cs, Some(version), Some(other), defaults) == Ok(Meet(es, fs))
  {
    Trichotomy(version, other);
    if Lower(version, other) {
      EmitAllMeet(cs, version, other, defaults);
    } else {
      EmitAllMeet(cs, other, version, defaults);
    }
  }

  /** The meet read entry by entry. */
  lemma {:induction false} MeetExact(es: seq<Entry>, fs: seq<Entry>, x: Entry)
    ensures x in Meet(es, fs) <==>
            exists e :: e in es && Find(fs, e.name).Some? && x == MeetEntry(e, Find(fs, e.name).value)
  {
    if es != [] {
      var n := |es| - 1;
      MeetExact(es[..n], fs, x);
      assert es == es[..n] + [es[n]];
    }
  }
}
