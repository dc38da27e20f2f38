/** JSON texts (RFC 8259, section 2) as trees that keep their white space, and the
    reader of Python's json library, which takes one value from the beginning of a text.
    It reads exactly the texts of the grammar. */
module JsonReader {
  import opened Wrappers
  import opened Decimals
  import opened JsonText

  // ---- literals ----

  const WORDS: seq<string> := ["null", "true", "false", "NaN", "Infinity", "-Infinity"]

  /** The names of the grammar, and those that Python accepts besides. */
  predicate IsWord(t: string) {
    t in WORDS
  }

  function WordLength(s: string): (n: nat)
    ensures n <= |s| && (n > 0 ==> IsWord(s[..n]))
  {
    if |s| >= 4 && s[..4] == "null" then 4
    else if |s| >= 4 && s[..4] == "true" then 4
    else if |s| >= 5 && s[..5] == "false" then 5
    else if |s| >= 3 && s[..3] == "NaN" then 3
    else if |s| >= 8 && s[..8] == "Infinity" then 8
    else if |s| >= 9 && s[..9] == "-Infinity" then 9
    else 0
  }

  lemma WordExact(t: string, x: string)
    requires IsWord(t)
    ensures WordLength(t + x) == |t| > 0
    ensures NumberLength(t + x) == 0 && StringLength(t + x) == 0
  {
    assert (t + x)[..|t|] == t;
    assert forall k :: 0 < k <= |t + x| ==> (t + x)[..k][0] == t[0];
    assert t == "-Infinity" ==> (t + x)[1..][0] == t[1] == 'I';
    assert t in ["null", "true", "false", "NaN", "Infinity", "-Infinity"];
  }

  // ---- values that are not groups ----

  ghost predicate IsAtom(t: string) {
    IsString(t) || IsNumber(t) || IsWord(t)
  }

  function AtomLength(s: string): (n: nat)
    ensures n <= |s|
  {
    if StringLength(s) > 0 then StringLength(s)
    else if NumberLength(s) > 0 then NumberLength(s)
    else WordLength(s)
  }

  lemma AtomRead(s: string)
    requires AtomLength(s) > 0
    ensures IsAtom(s[..AtomLength(s)])
  {
    if StringLength(s) > 0 {
      StringRead(s);
    } else if NumberLength(s) > 0 {
      NumberRead(s);
    }
  }

  lemma AtomCut(s: string, k: nat)
    requires 0 < AtomLength(s) <= k <= |s|
    ensures AtomLength(s[..k]) == AtomLength(s)
  {
    hide WordLength, NumberLength, IsDigit;
    if StringLength(s) > 0 {
      StringCut(s, k);
    } else if NumberLength(s) > 0 {
      NumberStarts(s);
      NotQuoted(s[..k]);
      NumberCut(s, k);
    } else {
      WordCut(s, k);
    }
  }

  lemma NotQuoted(s: string)
    requires s != [] && (IsDigit(s[0]) || s[0] == '-')
    ensures StringLength(s) == 0
  {
  }

  lemma WordCut(s: string, k: nat)
    requires 0 < WordLength(s) <= k <= |s|
    ensures WordLength(s[..k]) == WordLength(s) && NumberLength(s[..k]) == 0 && StringLength(s[..k]) == 0
  {
    hide NumberLength, StringLength;
    var n := WordLength(s);
    assert s == s[..n] + s[n..] && s[..k] == s[..n] + s[n..k];
    WordExact(s[..n], s[n..k]);
  }

  lemma NumberStarts(s: string)
    requires NumberLength(s) > 0
    ensures IsDigit(s[0]) || s[0] == '-'
  {
  }

  /** An atom in front of text that does not lengthen it. */
  lemma AtomExact(t: string, x: string)
    requires IsAtom(t) && (IsNumber(t) ==> NumberLength(t + x) == |t| > 0)
    ensures AtomLength(t + x) == |t| > 0
  {
    if IsString(t) {
      StringExact(t, x);
    } else if IsNumber(t) {
      NumberStarts(t + x);
    } else {
      WordExact(t, x);
    }
  }

  /** How an atom may begin. */
  predicate AtomStart(c: char) {
    c == '"' || IsDigit(c) || c == '-' || c in "ntfNI"
  }

  lemma AtomStarts(t: string)
    requires IsAtom(t)
    ensures t != "" && AtomStart(t[0])
  {
    if IsNumber(t) {
      NumberExact(t, "");
      assert t + "" == t;
      NumberStarts(t);
    }
  }

  lemma KindsOfAtoms(t: string)
    requires IsNumber(t)
    ensures t != "" && (IsDigit(t[0]) || t[0] == '-') && !IsString(t) && !IsWord(t)
  {
    NumberExact(t, "");
    assert t + "" == t;
    NumberStarts(t);
    if IsWord(t) {
      WordExact(t, "");
    }
  }

  // ---- trees ----

  /** Arrays and objects, with the white space in them.  In an object every item has a
      key; in an array keys and the space around them are empty. */
  datatype Doc =
    | Atom(text: string)
    | Group(o: bool, space: string, items: Docs)

  datatype Docs =
    | End
    | Item(key: string, s1: string, s2: string, value: Doc, s3: string, s4: string, rest: Docs)

  function Open(o: bool): string {
    if o then "{" else "["
  }

  function Close(o: bool): string {
    if o then "}" else "]"
  }

  function KeyPart(o: bool, key: string, s1: string, s2: string): string {
    if o then key + (s1 + (":" + s2)) else ""
  }

  function Comma(s4: string, rest: Docs): string {
    if rest.End? then "" else "," + s4
  }

  function Render(d: Doc): string {
    match d
    case Atom(t) => t
    case Group(o, sp, items) => Open(o) + (sp + RenderItems(o, items))
  }

  /** The items and the closing bracket. */
  function RenderItems(o: bool, items: Docs): string
    decreases items
  {
    match items
    case End => Close(o)
    case Item(key, s1, s2, v, s3, s4, rest) =>
      KeyPart(o, key, s1, s2) + (Render(v) + (s3 + (Comma(s4, rest) + RenderItems(o, rest))))
  }

  ghost predicate Valid(d: Doc) {
    match d
    case Atom(t) => IsAtom(t)
    case Group(o, sp, items) => Space(sp) && ValidItems(o, items)
  }

  ghost predicate ValidItems(o: bool, items: Docs)
    decreases items
  {
    match items
    case End => true
    case Item(key, s1, s2, v, s3, s4, rest) =>
      (if o then IsString(key) && Space(s1) && Space(s2) else key == s1 == s2 == "")
      && Valid(v) && Space(s3) && Space(s4) && (rest.End? ==> s4 == "") && ValidItems(o, rest)
  }

  /** The value: the tree without its white space. */
  function Bare(d: Doc): Doc {
    match d
    case Atom(t) => d
    case Group(o, _, items) => Group(o, "", BareItems(items))
  }

  function BareItems(items: Docs): Docs {
    match items
    case End => End
    case Item(key, _, _, v, _, _, rest) => Item(key, "", "", Bare(v), "", "", BareItems(rest))
  }

  // ---- the reader ----

  /** The text t behind a prefix. */
  function After(prefix: string, s: string): (t: Option<string>)
    ensures t.Some? ==> s == prefix + t.value
  {
    if |prefix| <= |s| && s[..|prefix|] == prefix then Some(s[|prefix|..]) else None
  }

  datatype Key = Key(key: string, s1: string, s2: string, rest: string)

  /** A key, its colon and the space around it. */
  function ReadKey(o: bool, s: string): (k: Option<Key>)
    ensures k.Some? ==> |k.value.rest| <= |s|
  {
    if !o then Some(Key("", "", "", s))
    else
      var n := StringLength(s);
      var t := s[n..];
      var u := After(":", Trimmed(t));
      if n == 0 || u.None? then None else Some(Key(s[..n], Blank(t), Blank(u.value), Trimmed(u.value)))
  }

  /** One value from the beginning of a text, and the text behind it. */
  function ReadValue(s: string): (r: Option<(Doc, string)>)
    ensures r.Some? ==> |r.value.1| < |s|
    decreases |s|, 0
  {
    if s == [] then None
    else if s[0] == '{' || s[0] == '[' then
      var o := s[0] == '{';
      var t := Trimmed(s[1..]);
      var closed := After(Close(o), t);
      if closed.Some? then Some((Group(o, Blank(s[1..]), End), closed.value))
      else
        var items := ReadItems(o, t);
        if items.None? then None else Some((Group(o, Blank(s[1..]), items.value.0), items.value.1))
    else
      var n := AtomLength(s);
      if n == 0 then None else Some((Atom(s[..n]), s[n..]))
  }

  /** The items of a group, at least one, and its closing bracket. */
  function ReadItems(o: bool, s: string): (r: Option<(Docs, string)>)
    ensures r.Some? ==> |r.value.1| < |s|
    decreases |s|, 1
  {
    var key := ReadKey(o, s);
    if key.None? then None
    else
      var v := ReadValue(key.value.rest);
      if v.None? then None
      else
        var t := Trimmed(v.value.1);
        var s3 := Blank(v.value.1);
        var closed := After(Close(o), t);
        var more := After(",", t);
        if closed.Some? then
          Some((Item(key.value.key, key.value.s1, key.value.s2, v.value.0, s3, "", End), closed.value))
        else if more.None? then None
        else
          var rest := ReadItems(o, Trimmed(more.value));
          if rest.None? then None
          else
            Some((Item(key.value.key, key.value.s1, key.value.s2, v.value.0, s3, Blank(more.value), rest.value.0),
                  rest.value.1))
  }

  // ---- the reader reads every text of the grammar ----

  /** How a value may begin. */
  predicate ValueStart(c: char) {
    AtomStart(c) || c == '{' || c == '['
  }

  predicate StartsValue(s: string) {
    s != "" && ValueStart(s[0])
  }

  /** What follows does not lengthen the value. */
  predicate Follows(d: Doc, x: string) {
    d.Atom? ==> AtomLength(d.text + x) == |d.text|
  }

  lemma DocStarts(d: Doc)
    requires Valid(d)
    ensures StartsValue(Render(d))
  {
    if d.Atom? {
      AtomStarts(d.text);
    }
  }

  lemma ItemsStart(o: bool, items: Docs)
    requires ValidItems(o, items) && items.Item?
    ensures StartsValue(RenderItems(o, items))
  {
    hide Valid, Render;
    DocStarts(items.value);
  }

  lemma Prefixed(prefix: string, t: string)
    ensures After(prefix, prefix + t) == Some(t)
  {
  }

  lemma NotPrefixed(prefix: string, s: string)
    requires |prefix| == 1 && (s == "" || s[0] != prefix[0])
    ensures After(prefix, s) == None
  {
    assert s == "" || s[..1][0] == s[0];
  }

  lemma KeyRead(o: bool, key: string, s1: string, s2: string, y: string)
    requires if o then IsString(key) && Space(s1) && Space(s2) else key == s1 == s2 == ""
    requires StartsValue(y)
    ensures ReadKey(o, KeyPart(o, key, s1, s2) + y) == Some(Key(key, s1, s2, y))
  {
    if o {
      var t := s1 + (":" + (s2 + y));
      assert KeyPart(o, key, s1, s2) + y == key + t;
      StringExact(key, t);
      assert (key + t)[..|key|] == key && (key + t)[|key|..] == t;
      assert (":" + (s2 + y))[0] == ':';
      Skipped(s1, ":" + (s2 + y));
      Prefixed(":", s2 + y);
      Skipped(s2, y);
    } else {
      assert KeyPart(o, key, s1, s2) + y == y;
    }
  }

  /** Behind a value inside a group stands white space, a comma or a bracket. */
  lemma InsideFollows(d: Doc, s3: string, z: string)
    requires Valid(d) && Space(s3) && z != "" && (z[0] == ',' || z[0] == ']' || z[0] == '}')
    ensures Follows(d, s3 + z)
  {
    assert (s3 + z)[0] == if s3 == "" then z[0] else s3[0];
    if d.Atom? {
      if IsNumber(d.text) {
        NumberExact(d.text, s3 + z);
      }
      AtomExact(d.text, s3 + z);
    }
  }

  lemma OpenRead(o: bool, sp: string, t: string)
    requires Space(sp) && t != "" && !IsSpace(t[0])
    ensures ReadValue(Open(o) + (sp + t))
            == if After(Close(o), t).Some? then Some((Group(o, sp, End), After(Close(o), t).value))
               else if ReadItems(o, t).None? then None
               else Some((Group(o, sp, ReadItems(o, t).value.0), ReadItems(o, t).value.1))
  {
    hide ReadItems, After, Space, AtomLength;
    var s := Open(o) + (sp + t);
    assert s[0] == Open(o)[0];
    Drop(Open(o), sp + t);
    Skipped(sp, t);
  }

  lemma GroupRead(o: bool, sp: string, items: Docs, x: string)
    requires Space(sp) && ValidItems(o, items)
    requires items.Item? ==> ReadItems(o, RenderItems(o, items) + x) == Some((items, x))
    ensures ReadValue(Render(Group(o, sp, items)) + x) == Some((Group(o, sp, items), x))
  {
    hide ReadItems, ValidItems, ReadValue, After, Space;
    var body := RenderItems(o, items);
    Regroup(Open(o), sp, body, x);
    if items.Item? {
      ItemsStart(o, items);
      assert (body + x)[0] == body[0];
      NotPrefixed(Close(o), body + x);
    } else {
      assert (body + x)[0] == Close(o)[0];
      Prefixed(Close(o), x);
    }
    OpenRead(o, sp, body + x);
  }

  /** Reading one item whose value is read as it should be. */
  lemma ItemRead(o: bool, items: Docs, x: string)
    requires items.Item? && ValidItems(o, items)
    requires var tail := Comma(items.s4, items.rest) + RenderItems(o, items.rest);
             ReadValue(Render(items.value) + (items.s3 + (tail + x))) == Some((items.value, items.s3 + (tail + x)))
    requires items.rest.Item? ==> ReadItems(o, RenderItems(o, items.rest) + x) == Some((items.rest, x))
    ensures ReadItems(o, RenderItems(o, items) + x) == Some((items, x))
  {
    hide ReadValue, ReadKey, Valid, Render, IsString;
    var v, s3, s4, rest := items.value, items.s3, items.s4, items.rest;
    var body := RenderItems(o, rest);
    var tail := Comma(s4, rest) + body;
    var y := Render(v) + (s3 + (tail + x));
    ItemText(o, items, x);
    DocStarts(v);
    assert y[0] == Render(v)[0];
    KeyRead(o, items.key, items.s1, items.s2, y);
    if rest.End? {
      TailEnd(o, s3, s4, rest, x);
    } else {
      ItemsStart(o, rest);
      TailMore(o, s3, s4, rest, x);
    }
  }

  lemma ItemText(o: bool, items: Docs, x: string)
    requires items.Item?
    ensures var tail := Comma(items.s4, items.rest) + RenderItems(o, items.rest);
            RenderItems(o, items) + x
            == KeyPart(o, items.key, items.s1, items.s2) + (Render(items.value) + (items.s3 + (tail + x)))
  {
    hide Render;
  }

  lemma TailEnd(o: bool, s3: string, s4: string, rest: Docs, x: string)
    requires Space(s3) && rest.End?
    ensures var z := Comma(s4, rest) + RenderItems(o, rest) + x;
            Blank(s3 + z) == s3 && Trimmed(s3 + z) == z && After(Close(o), z) == Some(x)
  {
    var z := Comma(s4, rest) + RenderItems(o, rest) + x;
    assert z == Close(o) + x;
    assert z[0] == Close(o)[0];
    Skipped(s3, z);
    Prefixed(Close(o), x);
  }

  lemma TailMore(o: bool, s3: string, s4: string, rest: Docs, x: string)
    requires Space(s3) && Space(s4) && rest.Item? && StartsValue(RenderItems(o, rest))
    ensures var z := Comma(s4, rest) + RenderItems(o, rest) + x;
            var more := s4 + (RenderItems(o, rest) + x);
            Blank(s3 + z) == s3 && Trimmed(s3 + z) == z && After(Close(o), z) == None && After(",", z) == Some(more)
            && Blank(more) == s4 && Trimmed(more) == RenderItems(o, rest) + x
  {
    hide RenderItems;
    var body := RenderItems(o, rest);
    var z := Comma(s4, rest) + body + x;
    assert z == "," + (s4 + (body + x));
    assert z[0] == ',' && (body + x)[0] == body[0];
    Skipped(s3, z);
    NotPrefixed(Close(o), z);
    Prefixed(",", s4 + (body + x));
    Skipped(s4, body + x);
  }

  /** Every text of the grammar is read, up to its end, as what it is. */
  lemma {:induction false} ReadsRendered(d: Doc, x: string)
    requires Valid(d) && Follows(d, x)
    ensures ReadValue(Render(d) + x) == Some((d, x))
    decreases d
  {
    match d
    case Atom(t) =>
      AtomStarts(t);
      assert (t + x)[0] == t[0] && (t + x)[..|t|] == t && (t + x)[|t|..] == x;
    case Group(o, sp, items) =>
      if items.Item? {
        ReadsItems(o, items, x);
      }
      GroupRead(o, sp, items, x);
  }

  lemma {:induction false} ReadsItems(o: bool, items: Docs, x: string)
    requires ValidItems(o, items) && items.Item?
    ensures ReadItems(o, RenderItems(o, items) + x) == Some((items, x))
    decreases items
  {
    hide ReadValue, ReadItems, Render, Valid;
    var rest := items.rest;
    var tail := Comma(items.s4, rest) + RenderItems(o, rest);
    TailStarts(o, items.s4, rest);
    assert (tail + x)[0] == tail[0];
    InsideFollows(items.value, items.s3, tail + x);
    ReadsRendered(items.value, items.s3 + (tail + x));
    if rest.Item? {
      ReadsItems(o, rest, x);
    }
    ItemRead(o, items, x);
  }

  lemma TailStarts(o: bool, s4: string, rest: Docs)
    ensures var tail := Comma(s4, rest) + RenderItems(o, rest);
            tail != "" && (tail[0] == ',' || tail[0] == ']' || tail[0] == '}')
  {
  }

  // ---- and nothing else ----

  lemma KeyWritten(o: bool, s: string)
    requires ReadKey(o, s).Some?
    ensures var k := ReadKey(o, s).value;
            s == KeyPart(o, k.key, k.s1, k.s2) + k.rest
            && if o then IsString(k.key) && Space(k.s1) && Space(k.s2) else k.key == k.s1 == k.s2 == ""
  {
    if o {
      StringRead(s);
      hide IsString, Space, StringLength;
      var n := StringLength(s);
      var u := After(":", Trimmed(s[n..])).value;
      KeySplit(s, n, u);
      hide After;
      KeyText(s[..n], Blank(s[n..]), Blank(u), Trimmed(u));
    }
  }

  lemma KeySplit(s: string, n: nat, u: string)
    requires n <= |s| && Trimmed(s[n..]) == ":" + u
    ensures s == s[..n] + (Blank(s[n..]) + (":" + (Blank(u) + Trimmed(u))))
  {
    hide Space;
    assert s == s[..n] + s[n..];
    assert s[n..] == Blank(s[n..]) + Trimmed(s[n..]);
    assert u == Blank(u) + Trimmed(u);
  }

  lemma KeyText(key: string, s1: string, s2: string, rest: string)
    ensures key + (s1 + (":" + (s2 + rest))) == key + (s1 + (":" + s2)) + rest
  {
  }

  /** What the reader takes from a text is a text of the grammar, and what it leaves
      does not lengthen it. */
  lemma {:induction false} RenderedWhenRead(s: string)
    requires ReadValue(s).Some?
    ensures var (d, x) := ReadValue(s).value;
            Valid(d) && s == Render(d) + x && Follows(d, x)
    decreases |s|, 0
  {
    hide AtomLength, Valid, Render, Follows;
    if s[0] == '{' || s[0] == '[' {
      var o := s[0] == '{';
      var t := Trimmed(s[1..]);
      assert s == Open(o) + (Blank(s[1..]) + t);
      if After(Close(o), t).None? {
        ItemsWhenRead(o, t);
      }
      GroupWritten(s, o, t);
    } else {
      AtomWritten(s);
    }
  }

  lemma AtomWritten(s: string)
    requires ReadValue(s).Some? && s[0] != '{' && s[0] != '['
    ensures var (d, x) := ReadValue(s).value;
            Valid(d) && s == Render(d) + x && Follows(d, x)
  {
    hide AtomLength, IsAtom;
    AtomRead(s);
    assert s[..AtomLength(s)] + s[AtomLength(s)..] == s;
  }

  lemma GroupWritten(s: string, o: bool, t: string)
    requires |s| > 0 && s == Open(o) + (Blank(s[1..]) + t) && t == Trimmed(s[1..]) && ReadValue(s).Some?
    requires After(Close(o), t).None? && ReadItems(o, t).Some? ==>
               var (items, x) := ReadItems(o, t).value;
               ValidItems(o, items) && t == RenderItems(o, items) + x
    ensures var (d, x) := ReadValue(s).value;
            Valid(d) && s == Render(d) + x && Follows(d, x)
  {
    hide ReadItems, ValidItems, RenderItems;
    assert s[0] == Open(o)[0];
    var closed := After(Close(o), t);
    var sp := Blank(s[1..]);
    if closed.Some? {
      NoItems(o);
      Regroup(Open(o), sp, Close(o), closed.value);
    } else {
      var (items, x) := ReadItems(o, t).value;
      Regroup(Open(o), sp, RenderItems(o, items), x);
    }
  }

  lemma NoItems(o: bool)
    ensures RenderItems(o, End) == Close(o) && ValidItems(o, End)
  {
  }

  lemma Regroup(a: string, b: string, c: string, d: string)
    ensures a + (b + (c + d)) == (a + (b + c)) + d
  {
  }

  lemma {:induction false} ItemsWhenRead(o: bool, s: string)
    requires ReadItems(o, s).Some?
    ensures var (items, x) := ReadItems(o, s).value;
            items.Item? && ValidItems(o, items) && s == RenderItems(o, items) + x
    decreases |s|, 1
  {
    assert Space("");
    hide Valid, Render, Follows, KeyPart, ReadKey, ReadValue, RenderItems, IsString, Space;
    var key := ReadKey(o, s).value;
    KeyWritten(o, s);
    RenderedWhenRead(key.rest);
    var (v, y) := ReadValue(key.rest).value;
    var t := Trimmed(y);
    var (items, x) := ReadItems(o, s).value;
    if After(Close(o), t).Some? {
      LastText(o, y, x);
    } else {
      var more := After(",", t).value;
      ItemsWhenRead(o, Trimmed(more));
      MoreText(o, y, more, items.rest, x);
    }
    ItemText(o, items, x);
  }

  lemma LastText(o: bool, y: string, x: string)
    requires Trimmed(y) == Close(o) + x
    ensures y == Blank(y) + (Comma("", End) + RenderItems(o, End) + x)
  {
  }

  lemma MoreText(o: bool, y: string, more: string, rest: Docs, x: string)
    requires Trimmed(y) == "," + more && rest.Item? && Trimmed(more) == RenderItems(o, rest) + x
    ensures y == Blank(y) + (Comma(Blank(more), rest) + RenderItems(o, rest) + x)
  {
    hide RenderItems;
    CommaText(Blank(more), RenderItems(o, rest), x);
    assert more == Blank(more) + Trimmed(more) && y == Blank(y) + Trimmed(y);
  }

  lemma CommaText(b: string, c: string, d: string)
    ensures "," + (b + (c + d)) == ("," + b) + c + d
  {
  }

  // ---- reading on its own what was read in front of more ----

  /** What stands behind a value plays no part in how it is read. */
  lemma ReadCut(s: string, k: nat)
    requires ReadValue(s).Some? && |s| - |ReadValue(s).value.1| <= k <= |s|
    ensures var (d, x) := ReadValue(s).value;
            ReadValue(s[..k]) == Some((d, x[..k - (|s| - |x|)]))
  {
    RenderedWhenRead(s);
    var (d, x) := ReadValue(s).value;
    var y := x[..k - (|s| - |x|)];
    assert s[..k] == Render(d) + y;
    if d.Atom? {
      AtomStarts(d.text);
      AtomCut(s, k);
    }
    ReadsRendered(d, y);
  }
}
