/** virter/vmshed_tests_generator.py: parsing of DRBD versions and the order
    `is_lower` on them. */
module VersionOrder {
  import opened Wrappers
  import opened Decimals

  /** An element of a parsed version: an integer, a string or float('inf'). */
  datatype Element = Num(n: int) | Inf | Str(s: string)

  /** Comparing an integer with a string raises TypeError. */
  datatype Raise = TypeError

  const Star := Str("*")

  predicate StrLess(s: string, t: string) {
    t != [] && (s == [] || s[0] < t[0] || (s[0] == t[0] && StrLess(s[1..], t[1..])))
  }

  /** Python's `x < y`, on elements that are not equal. */
  function ElementLess(x: Element, y: Element): Result<bool, Raise> {
    match (x, y)
    case (Str(s), Str(t)) => Ok(StrLess(s, t))
    case (Str(_), _) => Err(TypeError)
    case (_, Str(_)) => Err(TypeError)
    case (Num(i), Num(j)) => Ok(i < j)
    case (Num(_), Inf) => Ok(true)
    case (Inf, _) => Ok(false)
  }

  /** The answer of `is_lower`, element by element. */
  function IsLower(version: seq<Element>, minVersion: seq<Element>): Result<bool, Raise> {
    if minVersion == [] then Ok(false)
    else if version == [] then Ok(true)
    else if version[0] == Star then Ok(false)
    else if minVersion[0] == Star then Ok(true)
    else if version[0] == minVersion[0] then IsLower(version[1..], minVersion[1..])
    else ElementLess(version[0], minVersion[0])
  }

  /** `is_lower` as it is written: a loop over the positions of min_version. */
  method IsLowerLoop(version: seq<Element>, minVersion: seq<Element>) returns (r: Result<bool, Raise>)
    ensures r == IsLower(version, minVersion)
  {
    for i := 0 to |minVersion|
      invariant i <= |version|
      invariant IsLower(version, minVersion) == IsLower(version[i..], minVersion[i..])
    {
      if i >= |version| {
        return Ok(true);
      }
      if version[i] == Star {
        return Ok(false);
      }
      if minVersion[i] == Star {
        return Ok(true);
      }
      if version[i] != minVersion[i] {
        return ElementLess(version[i], minVersion[i]);
      }
      assert version[i..][1..] == version[i + 1..];
      assert minVersion[i..][1..] == minVersion[i + 1..];
    }
    return Ok(|version| < |minVersion|);
  }

  // ---- the order that is_lower decides ----

  /** A version cut after its first wildcard. */
  function Cut(v: seq<Element>): seq<Element> {
    if v == [] then [] else if v[0] == Star then [Star] else [v[0]] + Cut(v[1..])
  }

  /** The first position at which two lists part, or the end of the shorter one. */
  ghost predicate PartAt(a: seq<Element>, b: seq<Element>, i: nat) {
    i <= |a| && i <= |b| && a[..i] == b[..i] && (i < |a| && i < |b| ==> a[i] != b[i])
  }

  /** A text is a proper prefix of the other, or smaller at their first difference. */
  ghost predicate TextBefore(s: string, t: string) {
    exists i: nat :: TextsPart(s, t, i)
  }

  ghost predicate TextsPart(s: string, t: string, i: nat) {
    i <= |s| && i < |t| && s[..i] == t[..i] && (i < |s| ==> s[i] < t[i])
  }

  lemma {:induction false} StrLessIs(s: string, t: string)
    ensures StrLess(s, t) <==> TextBefore(s, t)
  {
    if s == [] || t == [] || s[0] != t[0] {
      forall i: nat | i > 0
        ensures !TextsPart(s, t, i)
      {
        if TextsPart(s, t, i) {
          FirstAgrees(s, t, i);
        }
      }
      assert t != [] ==> (TextsPart(s, t, 0) <==> s == [] || s[0] < t[0]);
    } else {
      StrLessIs(s[1..], t[1..]);
      assert !TextsPart(s, t, 0);
      forall i: nat
        ensures TextsPart(s, t, i + 1) <==> TextsPart(s[1..], t[1..], i)
      {
        NextPart(s, t, i);
      }
      if TextBefore(s, t) {
        var i: nat :| TextsPart(s, t, i);
        assert TextsPart(s, t, (i - 1) + 1);
        assert TextsPart(s[1..], t[1..], i - 1);
      }
      if TextBefore(s[1..], t[1..]) {
        var i: nat :| TextsPart(s[1..], t[1..], i);
        assert TextsPart(s, t, i + 1);
      }
    }
  }

  lemma FirstAgrees(s: string, t: string, i: nat)
    requires i > 0 && TextsPart(s, t, i)
    ensures s != [] && t != [] && s[0] == t[0]
  {
    assert s[..i][0] == s[0] && t[..i][0] == t[0];
  }

  lemma NextPart(s: string, t: string, i: nat)
    requires s != [] && t != [] && s[0] == t[0]
    ensures TextsPart(s, t, i + 1) <==> TextsPart(s[1..], t[1..], i)
  {
    if i + 1 <= |s| && i + 1 <= |t| {
      assert s[..i + 1] == [s[0]] + s[1..][..i] && t[..i + 1] == [t[0]] + t[1..][..i];
      assert s[1..][..i] == s[..i + 1][1..] && t[1..][..i] == t[..i + 1][1..];
    }
  }

  /** Numbers by size, infinity above them, texts by their order, and the wildcard on top;
      texts do not stand below or above numbers. */
  ghost predicate Below(x: Element, y: Element) {
    x != Star
    && (y == Star || (x.Num? && (y.Inf? || (y.Num? && x.n < y.n))) || (x.Str? && y.Str? && TextBefore(x.s, y.s)))
  }

  lemma ElementOrder(x: Element, y: Element)
    requires x != y && x != Star && y != Star
    ensures ElementLess(x, y) == Ok(true) <==> Below(x, y)
    ensures ElementLess(x, y).Err? <==> (x.Str? && !y.Str?) || (!x.Str? && y.Str?)
  {
    if x.Str? && y.Str? {
      StrLessIs(x.s, y.s);
    }
  }

  /** Lexicographic order: a proper prefix is lower, otherwise the first
      difference decides. */
  ghost predicate LexLess(a: seq<Element>, b: seq<Element>) {
    exists i: nat :: PartAt(a, b, i) && i < |b| && (i < |a| ==> Below(a[i], b[i]))
  }

  ghost predicate Mixed(x: Element, y: Element) {
    x != Star && y != Star && (x.Str? <==> !y.Str?)
  }

  /** The first difference sets a number against a string. */
  ghost predicate Clash(a: seq<Element>, b: seq<Element>) {
    exists i: nat :: PartAt(a, b, i) && i < |a| && i < |b|
                && Mixed(a[i], b[i])
  }

  lemma PartAtHead(x: Element, a: seq<Element>, b: seq<Element>, i: nat)
    ensures PartAt([x] + a, [x] + b, i + 1) <==> PartAt(a, b, i)
    ensures !PartAt([x] + a, [x] + b, 0)
  {
    if i <= |a| && i <= |b| {
      assert ([x] + a)[..i + 1] == [x] + a[..i];
      assert ([x] + b)[..i + 1] == [x] + b[..i];
      assert a[..i] == ([x] + a)[..i + 1][1..];
      assert b[..i] == ([x] + b)[..i + 1][1..];
    }
  }

  lemma LexHead(x: Element, a: seq<Element>, b: seq<Element>)
    ensures LexLess([x] + a, [x] + b) <==> LexLess(a, b)
    ensures Clash([x] + a, [x] + b) <==> Clash(a, b)
  {
    var a', b' := [x] + a, [x] + b;
    forall i: nat
      ensures PartAt(a', b', i + 1) <==> PartAt(a, b, i)
      ensures !PartAt(a', b', 0)
    {
      PartAtHead(x, a, b, i);
    }
    if LexLess(a', b') {
      var i: nat :| PartAt(a', b', i) && i < |b'| && (i < |a'| ==> Below(a'[i], b'[i]));
      PartAtHead(x, a, b, i - 1);
    }
    if Clash(a', b') {
      var i: nat :| PartAt(a', b', i) && i < |a'| && i < |b'|
               && Mixed(a'[i], b'[i]);
      PartAtHead(x, a, b, i - 1);
    }
    if LexLess(a, b) {
      var i: nat :| PartAt(a, b, i) && i < |b| && (i < |a| ==> Below(a[i], b[i]));
      assert PartAt(a', b', i + 1);
    }
    if Clash(a, b) {
      var i: nat :| PartAt(a, b, i) && i < |a| && i < |b|
               && Mixed(a[i], b[i]);
      assert PartAt(a', b', i + 1);
    }
  }

  /** `is_lower` is lexicographic order on the cut lists, and raises exactly when
      the first difference of the cut lists sets a number against a string. */
  lemma {:induction false} IsLowerIsLex(v: seq<Element>, m: seq<Element>)
    ensures IsLower(v, m) == Ok(true) <==> LexLess(Cut(v), Cut(m))
    ensures IsLower(v, m).Err? <==> Clash(Cut(v), Cut(m))
  {
    var a, b := Cut(v), Cut(m);
    if m == [] {
    } else if v == [] {
      assert PartAt(a, b, 0);
    } else if v[0] != Star && v[0] == m[0] {
      IsLowerIsLex(v[1..], m[1..]);
      LexHead(v[0], Cut(v[1..]), Cut(m[1..]));
    } else if v[0] == Star && m[0] == Star {
      assert forall i: nat :: PartAt(a, b, i) ==> i == 1;
    } else {
      assert a[0] == v[0] && b[0] == m[0];
      assert forall i: nat :: PartAt(a, b, i) ==> i == 0;
      assert PartAt(a, b, 0);
      if v[0] != Star && m[0] != Star {
        ElementOrder(v[0], m[0]);
      }
      hide ElementLess, TextBefore;
    }
  }

  // ---- strict weak order ----

  ghost predicate Lower(a: seq<Element>, b: seq<Element>) {
    IsLower(a, b) == Ok(true)
  }

  /** Neither is lower; both questions have an answer. */
  ghost predicate Incomparable(a: seq<Element>, b: seq<Element>) {
    IsLower(a, b) == Ok(false) && IsLower(b, a) == Ok(false)
  }

  lemma {:induction false} StrLessOrder(s: string, t: string, u: string)
    ensures !StrLess(s, s)
    ensures StrLess(s, t) ==> !StrLess(t, s)
    ensures s != t ==> StrLess(s, t) || StrLess(t, s)
    ensures StrLess(s, t) && StrLess(t, u) ==> StrLess(s, u)
    decreases |s| + |t| + |u|
  {
    var s', t', u' := if s == [] then s else s[1..], if t == [] then t else t[1..], if u == [] then u else u[1..];
    if s != [] || t != [] || u != [] {
      StrLessOrder(s', t', u');
      if s != [] && t != [] && s[0] == t[0] && s[1..] == t[1..] {
        assert s == [s[0]] + s[1..] && t == [t[0]] + t[1..];
      }
      if s != [] {
        StrLessSelf(s);
      }
    }
  }

  lemma {:induction false} StrLessSelf(s: string)
    ensures !StrLess(s, s)
  {
    if s != [] {
      StrLessSelf(s[1..]);
    }
  }

  lemma Irreflexive(a: seq<Element>)
    ensures IsLower(a, a) == Ok(false)
  {
    IsLowerCutEqual(a, a);
  }

  lemma {:induction false} IsLowerCutEqual(a: seq<Element>, b: seq<Element>)
    ensures Cut(a) == Cut(b) <==> Incomparable(a, b)
  {
    if a != [] && b != [] && a[0] != Star && a[0] == b[0] {
      IsLowerCutEqual(a[1..], b[1..]);
      assert Cut(a)[1..] == Cut(a[1..]) && Cut(b)[1..] == Cut(b[1..]);
    } else if a != [] && b != [] {
      assert Cut(a)[0] == a[0] && Cut(b)[0] == b[0];
      if a[0].Str? && b[0].Str? {
        StrLessOrder(a[0].s, b[0].s, []);
      }
    }
  }

  /** Transitivity, and with it definedness: a chain of two answers decides the
      third comparison without an exception. */
  lemma {:induction false} Transitive(a: seq<Element>, b: seq<Element>, c: seq<Element>)
    requires Lower(a, b) && Lower(b, c)
    ensures Lower(a, c)
    decreases |b|
  {
    if a != [] {
      if a[0] == b[0] && b[0] == c[0] {
        Transitive(a[1..], b[1..], c[1..]);
      } else if a[0].Str? && b[0].Str? && c[0].Str? {
        StrLessOrder(a[0].s, b[0].s, c[0].s);
        StrLessOrder(c[0].s, a[0].s, b[0].s);
      }
    }
  }

  /** Incomparability is an equivalence: equality of the cut lists. */
  lemma IncomparableTransitive(a: seq<Element>, b: seq<Element>, c: seq<Element>)
    requires Incomparable(a, b) && Incomparable(b, c)
    ensures Incomparable(a, c)
  {
    IsLowerCutEqual(a, b);
    IsLowerCutEqual(b, c);
    IsLowerCutEqual(a, c);
  }

  /** Of two comparable versions exactly one is lower unless the cut lists agree;
      the exception does not depend on the direction. */
  lemma {:induction false} Trichotomy(a: seq<Element>, b: seq<Element>)
    ensures IsLower(a, b).Err? <==> IsLower(b, a).Err?
    ensures Lower(a, b) ==> IsLower(b, a) == Ok(false)
    ensures IsLower(a, b) == Ok(true) || IsLower(a, b) == Ok(false) || IsLower(a, b) == Err(TypeError)
    ensures IsLower(a, b).Ok? ==> Lower(a, b) || Lower(b, a) || Cut(a) == Cut(b)
  {
    IsLowerCutEqual(a, b);
    if a != [] && b != [] && a[0] != Star && a[0] == b[0] {
      Trichotomy(a[1..], b[1..]);
      assert Cut(a)[1..] == Cut(a[1..]) && Cut(b)[1..] == Cut(b[1..]);
    } else if a != [] && b != [] && a[0].Str? && b[0].Str? {
      StrLessOrder(a[0].s, b[0].s, []);
    }
  }

  /** A version stands below everything above one it is below or level with. */
  lemma {:induction false} LowerRespects(a: seq<Element>, b: seq<Element>, c: seq<Element>)
    requires Incomparable(a, b)
    ensures IsLower(a, c) == IsLower(b, c) && IsLower(c, a) == IsLower(c, b)
    decreases |a|
  {
    IsLowerCutEqual(a, b);
    if a != [] && b != [] && c != [] {
      assert Cut(a)[0] == a[0] && Cut(b)[0] == b[0];
      if a[0] != Star && a[0] == c[0] {
        assert Cut(a)[1..] == Cut(a[1..]) && Cut(b)[1..] == Cut(b[1..]);
        IsLowerCutEqual(a[1..], b[1..]);
        LowerRespects(a[1..], b[1..], c[1..]);
      }
    }
  }

  // ---- parse_version ----

  /** str.split('.') */
  function Split(s: string): (parts: seq<string>)
    ensures parts != []
  {
    if s == [] then [[]]
    else
      var rest := Split(s[1..]);
      if s[0] == '.' then [[]] + rest else [[s[0]] + rest[0]] + rest[1..]
  }

  function ParseElement(e: string): Element {
    if IsDecimal(e) then Num(Value(e)) else Str(e)
  }

  predicate IsHexDigit(c: char) {
    '0' <= c <= '9' || 'a' <= c <= 'f'
  }

  predicate IsHexText(s: string) {
    (|s| == 40 || |s| == 64) && forall i :: 0 <= i < |s| ==> IsHexDigit(s[i])
  }

  /** An element that is an integer is never taken for a commit id. */
  predicate IsCommitSha(e: Element) {
    e.Str? && IsHexText(e.s)
  }

  function Elements(parts: seq<string>): (es: seq<Element>)
    ensures |es| == |parts| && forall i :: 0 <= i < |parts| ==> es[i] == ParseElement(parts[i])
  {
    seq(|parts|, i requires 0 <= i < |parts| => ParseElement(parts[i]))
  }

  function ParseVersion(s: string): (v: seq<Element>)
    ensures v != []
  {
    var es := Elements(Split(s));
    if |es| >= 4 && es[2] == Num(0) && (es[3] == Str("latest") || IsCommitSha(es[3])) then
      [es[0], es[1], Inf]
    else
      es
  }

  /** What the parts of a version decide: it is cut down to a series with an infinite
      third element iff its third part is a decimal zero and its fourth is `latest` or
      a commit id with a letter in it; otherwise every part is kept, as a number iff
      it is decimal. */
  lemma ParsedExactly(s: string)
    ensures var parts := Split(s);
            var v := ParseVersion(s);
            var build := |parts| >= 4 && IsDecimal(parts[2]) && Value(parts[2]) == 0 && IsBuildMark(parts[3]);
            (Inf in v <==> build)
            && (build ==> |v| == 3 && v[2] == Inf)
            && (!build ==> |v| == |parts|)
            && (forall i :: 0 <= i < |v| && v[i] != Inf ==>
                  v[i] == if IsDecimal(parts[i]) then Num(Value(parts[i])) else Str(parts[i]))
  {
    hide Split, Value, IsBuildMark;
    var parts := Split(s);
    var es := Elements(parts);
    assert Inf !in es;
    if |parts| >= 4 {
      MarkedBuild(parts[3]);
      assert es[2] == Num(0) <==> IsDecimal(parts[2]) && Value(parts[2]) == 0;
    }
  }

  /** The word latest, or a commit id of 40 or 64 hexadecimal digits with a letter in it. */
  ghost predicate IsBuildMark(part: string) {
    part == "latest"
    || ((|part| == 40 || |part| == 64) && (forall i :: 0 <= i < |part| ==> '0' <= part[i] <= '9' || 'a' <= part[i] <= 'f')
        && exists i :: 0 <= i < |part| && 'a' <= part[i] <= 'f')
  }

  lemma MarkedBuild(part: string)
    ensures IsBuildMark(part) <==> ParseElement(part) == Str("latest") || IsCommitSha(ParseElement(part))
  {
    hide Value;
    assert "latest"[0] == 'l';
  }

  predicate NoDot(s: string) {
    '.' !in s
  }

  lemma {:induction false} SplitHead(a: string, rest: string)
    requires NoDot(a)
    ensures Split(a + "." + rest) == [a] + Split(rest)
  {
    var s := a + "." + rest;
    if a == [] {
      assert s[1..] == rest;
    } else {
      assert s[1..] == a[1..] + "." + rest;
      assert a[0] in a && NoDot(a[1..]);
      SplitHead(a[1..], rest);
      assert [a[0]] + a[1..] == a;
    }
  }

  lemma {:induction false} SplitLast(a: string)
    requires NoDot(a)
    ensures Split(a) == [a]
  {
    if a != [] {
      assert a[0] in a && NoDot(a[1..]);
      SplitLast(a[1..]);
      assert [a[0]] + a[1..] == a;
    }
  }

  function Joined(parts: seq<string>): string
    requires parts != []
  {
    if |parts| == 1 then parts[0] else parts[0] + "." + Joined(parts[1..])
  }

  /** The parts have no dots, and joined with dots are the text again. */
  lemma {:induction false} SplitJoined(s: string)
    ensures Joined(Split(s)) == s && forall i :: 0 <= i < |Split(s)| ==> NoDot(Split(s)[i])
  {
    if s != [] {
      SplitJoined(s[1..]);
      var rest := Split(s[1..]);
      if s[0] == '.' {
        assert ([[]] + rest)[1..] == rest;
        assert [] + "." + Joined(rest) == s;
      } else {
        var parts := [[s[0]] + rest[0]] + rest[1..];
        assert Split(s) == parts && parts[1..] == rest[1..];
        assert Joined(parts) == [s[0]] + Joined(rest);
      }
    }
  }

  /** The text `major.minor.0.last` of a development build. */
  function BuildText(major: string, minor: string, last: string): string {
    major + "." + (minor + "." + ("0" + "." + last))
  }

  /** A development build is recognized, and put at the end of its series,
      exactly when its last part is `latest` or a commit id that contains a
      letter.  A commit id of decimal digits only is read as a patch number. */
  lemma DevelopmentBuild(major: string, minor: string, last: string)
    requires IsDecimal(major) && IsDecimal(minor)
    requires last == "latest" || IsHexText(last)
    ensures ParseVersion(BuildText(major, minor, last)) ==
            if AllDigits(last)
            then [Num(Value(major)), Num(Value(minor)), Num(0), Num(Value(last))]
            else [Num(Value(major)), Num(Value(minor)), Inf]
  {
    SplitBuild(major, minor, last);
    assert "0"[..0] == [];
    assert Value("0") == Value([]) * 10 + 0 == 0;
    var es := Elements(Split(BuildText(major, minor, last)));
    assert es == [ParseElement(major), ParseElement(minor), ParseElement("0"), ParseElement(last)];
    if last == "latest" {
      assert last[0] == 'l';
    }
  }

  lemma SplitBuild(major: string, minor: string, last: string)
    requires NoDot(major) && NoDot(minor) && NoDot(last)
    ensures Split(BuildText(major, minor, last)) == [major, minor, "0", last]
  {
    SplitHead(major, minor + "." + ("0" + "." + last));
    SplitHead(minor, "0" + "." + last);
    SplitHead("0", last);
    SplitLast(last);
  }

  ghost predicate Numeric(v: seq<Element>) {
    forall i :: 0 <= i < |v| ==> v[i].Num?
  }

  /** A recognized build stands above every numeric version of its series ... */
  lemma BuildAboveSeries(major: int, minor: int, rest: seq<Element>)
    requires Numeric(rest)
    ensures Lower([Num(major), Num(minor)] + rest, [Num(major), Num(minor), Inf])
    ensures !Lower([Num(major), Num(minor), Inf], [Num(major), Num(minor)] + rest)
  {
    var v, build := [Num(major), Num(minor)] + rest, [Num(major), Num(minor), Inf];
    assert v[1..] == [Num(minor)] + rest && v[1..][1..] == rest;
    assert build[1..] == [Num(minor), Inf] && build[1..][1..] == [Inf];
    assert IsLower(v, build) == IsLower(rest, [Inf]);
    Trichotomy(v, build);
  }

  /** ... level with every other recognized build of the series ... */
  lemma BuildsEquivalent(major: string, minor: string, last: string, major': string, minor': string, last': string)
    requires IsDecimal(major) && IsDecimal(minor) && IsDecimal(major') && IsDecimal(minor')
    requires Value(major) == Value(major') && Value(minor) == Value(minor')
    requires last == "latest" || (IsHexText(last) && !AllDigits(last))
    requires last' == "latest" || (IsHexText(last') && !AllDigits(last'))
    ensures Incomparable(ParseVersion(BuildText(major, minor, last)), ParseVersion(BuildText(major', minor', last')))
  {
    assert "latest"[0] == 'l';
    DevelopmentBuild(major, minor, last);
    DevelopmentBuild(major', minor', last');
    Irreflexive(ParseVersion(BuildText(major, minor, last)));
    IsLowerCutEqual(ParseVersion(BuildText(major, minor, last)), ParseVersion(BuildText(major', minor', last')));
  }

  /** ... and below every numeric version of a later series. */
  lemma BuildBelowLater(major: int, minor: int, later: seq<Element>)
    requires Numeric(later) && later != []
    requires later[0].n > major || (later[0].n == major && |later| > 1 && later[1].n > minor)
    ensures Lower([Num(major), Num(minor), Inf], later)
  {
    var build := [Num(major), Num(minor), Inf];
    assert build[1..] == [Num(minor), Inf];
  }

  /** The build that is not recognized stands below the first patch release. */
  lemma DigitsOnlyBuild(major: string, minor: string, sha: string, release: seq<Element>)
    requires IsDecimal(major) && IsDecimal(minor) && IsHexText(sha) && AllDigits(sha)
    requires |release| >= 3 && Numeric(release) && release[2].n > 0
    requires release[0] == Num(Value(major)) && release[1] == Num(Value(minor))
    ensures Lower(ParseVersion(BuildText(major, minor, sha)), release)
  {
    DevelopmentBuild(major, minor, sha);
    var v := ParseVersion(BuildText(major, minor, sha));
    assert v[1..][1..] == v[2..] && release[1..][1..] == release[2..];
    assert IsLower(v, release) == IsLower(v[1..], release[1..]) == IsLower(v[2..], release[2..]);
  }
}
