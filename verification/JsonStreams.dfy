/** Which files stream_read_json reads as the texts that were written to them. */
module JsonStreams {
  import opened Decimals
  import opened JsonText
  import opened JsonReader
  import opened StreamJson

  // ---- streams of texts ----

  /** A text with the white space after it. */
  datatype Piece = Piece(doc: Doc, space: string)

  function Written(items: seq<Piece>): string {
    if items == [] then "" else Render(items[0].doc) + (items[0].space + Written(items[1..]))
  }

  function Values(items: seq<Piece>): (vs: seq<Doc>)
    ensures |vs| == |items|
  {
    if items == [] then [] else [Bare(items[0].doc)] + Values(items[1..])
  }

  ghost predicate Stream(items: seq<Piece>) {
    forall k :: 0 <= k < |items| ==> Valid(items[k].doc) && Space(items[k].space)
  }

  /** A number, other than zero, that the first digit of the next text would lengthen. */
  ghost predicate Clings(d: Doc, next: string) {
    d.Atom? && IsNumber(d.text) && d.text != "0" && d.text != "-0" && next != "" && IsDigit(next[0])
  }

  /** Texts are separated where they need to be. */
  ghost predicate Separated(items: seq<Piece>) {
    items != [] ==>
      (items[0].space != "" || !Clings(items[0].doc, Written(items[1..]))) && Separated(items[1..])
  }

  lemma StreamTail(items: seq<Piece>)
    requires Stream(items) && items != []
    ensures Valid(items[0].doc) && Space(items[0].space) && Stream(items[1..])
  {
    assert forall k :: 0 <= k < |items| - 1 ==> items[1..][k] == items[k + 1];
  }

  lemma WrittenStarts(items: seq<Piece>)
    requires Stream(items)
    ensures items != [] ==> StartsValue(Written(items))
  {
    if items != [] {
      DocStarts(items[0].doc);
    }
  }

  // ---- one text ----

  /** Exactly when the text that comes next would be taken for a part of this one. */
  lemma FollowsIff(d: Doc, space: string, x: string)
    requires Valid(d) && Space(space) && (x == "" || StartsValue(x))
    ensures Follows(d, space + x) <==> space != "" || !Clings(d, x)
  {
    if d.Atom? {
      if IsNumber(d.text) {
        NumberFollows(d.text, space, x);
      } else {
        AtomExact(d.text, space + x);
      }
    }
  }

  lemma NumberFollows(t: string, space: string, x: string)
    requires IsNumber(t) && Space(space) && (x == "" || StartsValue(x))
    ensures AtomLength(t + (space + x)) == |t| <==> space != "" || !Clings(Atom(t), x)
  {
    hide IsNumber, NumberLength, IsString, WordLength;
    var y := space + x;
    if space == "" && x != "" && IsDigit(x[0]) {
      assert y == x;
      NumberGrows(t, x);
      KindsOfAtoms(t);
      assert (t + x)[0] == t[0];
    } else {
      assert y == "" || y[0] == if space != "" then space[0] else x[0];
      NumberExact(t, y);
      AtomExact(t, y);
    }
  }

  /** A text at the beginning of what is loaded. */
  lemma LoadHead(lead: string, d: Doc, space: string, x: string)
    requires Space(lead) && Valid(d) && Space(space) && (x == "" || StartsValue(x)) && Follows(d, space + x)
    ensures LoadText(lead + (Render(d) + (space + x)))
            == if x == "" then Loaded(Bare(d)) else ExtraData(|lead| + |Render(d)| + |space|)
  {
    hide Render, Valid, Follows, ReadValue, Space, Bare;
    var w := Render(d) + (space + x);
    DocStarts(d);
    assert w[0] == Render(d)[0];
    Skipped(lead, w);
    ReadsRendered(d, space + x);
    Skipped(space, x);
  }

  /** What stands in front of extra data is loaded on its own as the same value. */
  lemma ReadAgain(s: string)
    requires LoadText(s).ExtraData?
    ensures LoadText(s[..LoadText(s).at]) == Loaded(Bare(ReadValue(Trimmed(s)).value.0))
  {
    hide Bare, ReadValue;
    var at := LoadText(s).at;
    var t := Trimmed(s);
    var lead := Blank(s);
    assert s == lead + t;
    var (d, y) := ReadValue(t).value;
    var k := at - |lead|;
    assert y == Blank(y) + Trimmed(y);
    ReadCut(t, k);
    var z := y[..k - (|t| - |y|)];
    assert z == Blank(y);
    assert s[..at] == lead + t[..k];
    ReadNonEmpty(t[..k]);
    Skipped(lead, t[..k]);
    Skipped(z, "");
    assert z + "" == z;
  }

  lemma ReadNonEmpty(s: string)
    requires ReadValue(s).Some?
    ensures s != "" && !IsSpace(s[0])
  {
    RenderedWhenRead(s);
    var (d, x) := ReadValue(s).value;
    DocStarts(d);
    assert s[0] == Render(d)[0];
  }

  // ---- one round ----

  /** The text that is read again, when the position lags behind by some white space
      that the space after the text makes up for. */
  lemma Window(gap: string, lead: string, d: Doc, space: string, x: string)
    requires Space(gap) && Space(lead) && Valid(d) && Space(space) && |gap| <= |space|
    ensures var text := gap + (lead + (Render(d) + (space + x)));
            var e := |lead| + |Render(d)| + |space|;
            e <= |text| && LoadText(text[..e]) == Loaded(Bare(d))
            && text[e..] == space[|space| - |gap|..] + x
  {
    hide Render, Valid, LoadText, Bare;
    var k := |space| - |gap|;
    var text := gap + (lead + (Render(d) + (space + x)));
    var e := |lead| + |Render(d)| + |space|;
    CutWindow(gap, lead, Render(d), space, x);
    assert Space(gap + lead);
    FollowsIff(d, space[..k], "");
    LoadHead(gap + lead, d, space[..k], "");
  }

  lemma CutWindow(gap: string, lead: string, t: string, space: string, x: string)
    requires |gap| <= |space|
    ensures var text := gap + (lead + (t + (space + x)));
            var e := |lead| + |t| + |space|;
            var k := |space| - |gap|;
            e <= |text| && text[..e] == (gap + lead) + (t + (space[..k] + "")) && text[e..] == space[k..] + x
  {
    var k := |space| - |gap|;
    var text := gap + (lead + (t + (space + x)));
    assert space == space[..k] + space[k..];
    assert text == ((gap + lead) + (t + (space[..k] + ""))) + (space[k..] + x);
  }

  /** A text that is not the last one. */
  lemma Round(file: string, start: nat, gap: string, lead: string, d: Doc, space: string, x: string)
    requires start <= |file| && From(file, start) == gap + (lead + (Render(d) + (space + x)))
    requires Space(gap) && Space(lead) && Valid(d) && Space(space) && |gap| <= |space|
    requires StartsValue(x) && Follows(d, space + x)
    ensures var e := |lead| + |Render(d)| + |space|;
            start + e <= |file|
            && var rest := Reading(file, start + e, space[|space| - |gap|..] + x);
               Reading(file, start, lead + (Render(d) + (space + x))) == ([Bare(d)] + rest.0, rest.1)
  {
    hide Render, Valid, LoadText, Bare, Follows, Space, Translated;
    LoadHead(lead, d, space, x);
    Window(gap, lead, d, space, x);
  }

  /** The last text is loaded from what is left, wherever the position stands. */
  lemma LastRound(file: string, start: nat, lead: string, d: Doc, space: string)
    requires start <= |file| && Space(lead) && Valid(d) && Space(space)
    ensures Reading(file, start, lead + (Render(d) + (space + ""))) == ([Bare(d)], true)
  {
    FollowsIff(d, space, "");
    LoadHead(lead, d, space, "");
  }

  // ---- files without pairs of carriage return and newline ----

  predicate PairAt(file: string, k: nat) {
    k + 1 < |file| && file[k] == '\r' && file[k + 1] == '\n'
  }

  ghost predicate NoPairs(file: string, from: nat, to: nat) {
    forall k: nat :: from <= k < to ==> !PairAt(file, k)
  }

  lemma {:induction false} TranslatedCut(file: string, e: nat)
    requires e <= |file| && forall k: nat :: k < e ==> !PairAt(file, k)
    ensures e <= |Translated(file)| && Translated(file)[e..] == Translated(file[e..])
  {
    if e > 0 {
      assert !PairAt(file, 0);
      forall k: nat | k < e - 1
        ensures !PairAt(file[1..], k)
      {
        assert !PairAt(file, k + 1);
      }
      TranslatedCut(file[1..], e - 1);
      assert file[1..][e - 1..] == file[e..];
    }
  }

  lemma FromCut(file: string, start: nat, e: nat)
    requires start + e <= |file| && NoPairs(file, start, start + e)
    ensures e <= |From(file, start)| && From(file, start)[e..] == From(file, start + e)
  {
    forall k: nat | k < e
      ensures !PairAt(file[start..], k)
    {
      assert !PairAt(file, start + k);
    }
    TranslatedCut(file[start..], e);
    assert file[start..][e..] == file[start + e..];
  }

  /** The length of what stands in front of the last text but one. */
  function BeforePenultimate(lead: string, items: seq<Piece>): nat
    decreases |items|
  {
    if |items| <= 2 then 0
    else |lead| + |Render(items[0].doc)| + |items[0].space| + BeforePenultimate("", items[1..])
  }

  /** A text that clings to the next is read as a longer number. */
  lemma Clinging(file: string, start: nat, lead: string, d: Doc, x: string, values: seq<Doc>)
    requires start <= |file| && From(file, start) == lead + (Render(d) + ("" + x))
    requires Space(lead) && Valid(d) && StartsValue(x) && Clings(d, x) && values != [] && values[0] == Bare(d)
    ensures Reading(file, start, lead + (Render(d) + ("" + x))) != (values, true)
  {
    hide LoadText, StartsValue, AtomLength, IsNumber;
    var s := lead + (Render(d) + ("" + x));
    LongerNumber(lead, d, x);
    if LoadText(s).ExtraData? {
      ReadAgain(s);
    }
  }

  lemma LongerNumber(lead: string, d: Doc, x: string)
    requires Space(lead) && Valid(d) && StartsValue(x) && Clings(d, x)
    ensures var s := lead + (Render(d) + ("" + x));
            ReadValue(Trimmed(s)).Some? && Bare(ReadValue(Trimmed(s)).value.0) != Bare(d)
            && (LoadText(s).Loaded? ==> LoadText(s).value != Bare(d)) && !LoadText(s).Invalid?
  {
    hide IsNumber;
    var t := d.text;
    var w := t + x;
    assert Render(d) + ("" + x) == w;
    KindsOfAtoms(t);
    assert w[0] == t[0];
    Skipped(lead, w);
    NumberLongerAtom(t, x);
  }

  lemma NumberLongerAtom(t: string, x: string)
    requires IsNumber(t) && t != "0" && t != "-0" && x != "" && IsDigit(x[0])
    ensures AtomLength(t + x) > |t| > 0
  {
    KindsOfAtoms(t);
    assert (t + x)[0] == t[0];
    NumberGrows(t, x);
  }

  /** Where no line end before the last text but one is a pair of characters, exactly
      the values are yielded iff the texts are separated as far as they need to be. */
  lemma {:induction false} ReadsIff(file: string, start: nat, lead: string, items: seq<Piece>)
    requires start <= |file| && items != [] && Stream(items) && Space(lead)
    requires |items| > 1 ==> From(file, start) == lead + Written(items)
    requires NoPairs(file, start, start + BeforePenultimate(lead, items))
    ensures Reading(file, start, lead + Written(items)) == (Values(items), true) <==> Separated(items)
    decreases |items|
  {
    hide Reading, LoadText, Valid, Space, Render, Follows, Clings, Bare, NoPairs, From;
    var d, space := items[0].doc, items[0].space;
    var x := Written(items[1..]);
    StreamTail(items);
    if |items| == 1 {
      LastRound(file, start, lead, d, space);
      assert Values(items[1..]) == [] && Values(items) == [Bare(d)];
      assert Separated(items[1..]);
      NothingClings(d);
    } else {
      WrittenStarts(items[1..]);
      FollowsIff(d, space, x);
      if space != "" || !Clings(d, x) {
        var e := Onward(file, start, lead, items);
        Nothing(x);
        ReadsIff(file, start + e, "", items[1..]);
        var rest := Reading(file, start + e, x);
        assert "" + x == x;
        Prepended(Bare(d), rest.0, Values(items[1..]));
      } else {
        Clinging(file, start, lead, d, x, Values(items));
      }
    }
  }

  lemma NothingClings(d: Doc)
    ensures !Clings(d, "")
  {
  }

  lemma Prepended(v: Doc, a: seq<Doc>, b: seq<Doc>)
    ensures [v] + a == [v] + b <==> a == b
  {
    assert ([v] + a)[1..] == a && ([v] + b)[1..] == b;
  }

  /** One text on, with the position where it should be. */
  lemma Onward(file: string, start: nat, lead: string, items: seq<Piece>) returns (e: nat)
    requires start <= |file| && |items| > 1 && Stream(items) && Space(lead)
    requires From(file, start) == lead + Written(items)
    requires NoPairs(file, start, start + BeforePenultimate(lead, items))
    requires items[0].space != "" || !Clings(items[0].doc, Written(items[1..]))
    ensures start + e <= |file|
    ensures var rest := Reading(file, start + e, Written(items[1..]));
            Reading(file, start, lead + Written(items)) == ([Bare(items[0].doc)] + rest.0, rest.1)
    ensures |items| > 2 ==> From(file, start + e) == "" + Written(items[1..])
    ensures NoPairs(file, start + e, start + e + BeforePenultimate("", items[1..]))
  {
    hide Reading, LoadText, Valid, Render, Follows, Clings, Bare, From;
    var d, space := items[0].doc, items[0].space;
    var x := Written(items[1..]);
    e := |lead| + |Render(d)| + |space|;
    StreamTail(items);
    WrittenStarts(items[1..]);
    FollowsIff(d, space, x);
    Nothing(lead + (Render(d) + (space + x)));
    Round(file, start, "", lead, d, space, x);
    Nothing(x);
    assert space[|space|..] == "";
    if |items| > 2 {
      FromCut(file, start, e);
      CutHead(lead, Render(d), space, x);
    }
  }

  lemma Nothing(s: string)
    ensures "" + s == s && Space("")
  {
  }

  lemma CutHead(lead: string, t: string, space: string, x: string)
    ensures (lead + (t + (space + x)))[|lead| + |t| + |space|..] == x
  {
    assert lead + (t + (space + x)) == (lead + t + space) + x;
  }

  /** The same for a whole file. */
  lemma FileReadsIff(file: string, lead: string, items: seq<Piece>)
    requires items != [] && Stream(items) && Space(lead) && Translated(file) == lead + Written(items)
    requires NoPairs(file, 0, BeforePenultimate(lead, items))
    ensures Reading(file, 0, Translated(file)) == (Values(items), true) <==> Separated(items)
  {
    assert file[0..] == file;
    ReadsIff(file, 0, lead, items);
  }

  // ---- files with pairs of carriage return and newline ----

  /** Lines of one text each, with the line ends of DOS. */
  function DosFile(docs: seq<Doc>): string {
    if docs == [] then "" else Render(docs[0]) + ("\r\n" + DosFile(docs[1..]))
  }

  function Lines(docs: seq<Doc>): seq<Piece> {
    if docs == [] then [] else [Piece(docs[0], "\n")] + Lines(docs[1..])
  }

  function DosValues(docs: seq<Doc>): seq<Doc> {
    Values(Lines(docs))
  }

  predicate NoLineEnd(s: string) {
    forall k :: 0 <= k < |s| ==> s[k] != '\r' && s[k] != '\n'
  }

  ghost predicate OneLiners(docs: seq<Doc>) {
    forall k :: 0 <= k < |docs| ==> Valid(docs[k]) && NoLineEnd(Render(docs[k]))
  }

  lemma OneLinersTail(docs: seq<Doc>)
    requires OneLiners(docs) && docs != []
    ensures Valid(docs[0]) && NoLineEnd(Render(docs[0])) && OneLiners(docs[1..])
  {
    assert forall k :: 0 <= k < |docs| - 1 ==> docs[1..][k] == docs[k + 1];
  }

  lemma {:induction false} TranslatedLine(t: string, rest: string)
    requires NoLineEnd(t)
    ensures Translated(t + rest) == t + Translated(rest)
  {
    if t == "" {
      assert t + rest == rest;
    } else {
      assert (t + rest)[0] == t[0] && (t + rest)[1..] == t[1..] + rest;
      TranslatedLine(t[1..], rest);
    }
  }

  lemma TranslatedPair(rest: string)
    ensures Translated("\r\n" + rest) == "\n" + Translated(rest) && Translated("\n" + rest) == "\n" + Translated(rest)
  {
    assert ("\r\n" + rest)[2..] == rest && ("\n" + rest)[1..] == rest;
  }

  lemma {:induction false} DosTranslated(docs: seq<Doc>)
    requires OneLiners(docs)
    ensures Translated(DosFile(docs)) == Written(Lines(docs))
    ensures docs != [] ==> StartsValue(Written(Lines(docs)))
  {
    hide Translated, Valid, NoLineEnd;
    if docs == [] {
      TranslatedNothing();
    } else {
      OneLinersTail(docs);
      DosTranslated(docs[1..]);
      TranslatedPair(DosFile(docs[1..]));
      TranslatedLine(Render(docs[0]), "\r\n" + DosFile(docs[1..]));
      DocStarts(docs[0]);
    }
  }

  lemma TranslatedNothing()
    ensures Translated("") == ""
  {
  }

  lemma NewlineIsSpace()
    ensures Space("\n") && Space("")
  {
  }

  /** One line of such a file. */
  lemma DosRound(file: string, start: nat, gap: string, lead: string, docs: seq<Doc>)
    requires start <= |file| && |docs| > 1 && OneLiners(docs)
    requires From(file, start) == gap + (lead + Written(Lines(docs)))
    requires (gap == "" || gap == "\n") && (lead == "" || lead == "\n")
    ensures var e := |lead| + |Render(docs[0])| + 1;
            start + e <= |file|
            && var rest := Reading(file, start + e, (if gap == "" then "" else "\n") + Written(Lines(docs[1..])));
               Reading(file, start, lead + Written(Lines(docs))) == ([Bare(docs[0])] + rest.0, rest.1)
  {
    hide Render, Valid, LoadText, Bare, Translated, Reading, Follows;
    var x := Written(Lines(docs[1..]));
    OneLinersTail(docs);
    DosTranslated(docs[1..]);
    NewlineIsSpace();
    FollowsIff(docs[0], "\n", x);
    Round(file, start, gap, lead, docs[0], "\n", x);
    assert "\n"[|"\n"| - |gap|..] == if gap == "" then "" else "\n";
  }

  lemma DosLast(file: string, start: nat, lead: string, docs: seq<Doc>)
    requires start <= |file| && |docs| == 1 && OneLiners(docs) && (lead == "" || lead == "\n")
    ensures Reading(file, start, lead + Written(Lines(docs))) == (DosValues(docs), true)
  {
    hide Render, Valid, LoadText, Bare, Reading;
    OneLinersTail(docs);
    NewlineIsSpace();
    LastRound(file, start, lead, docs[0], "\n");
    assert Lines(docs[1..]) == [] && Lines(docs) == [Piece(docs[0], "\n")];
    assert Lines(docs)[1..] == [];
    assert Values(Lines(docs)[1..]) == [] && Written(Lines(docs)[1..]) == "";
    assert Written(Lines(docs)) == Render(docs[0]) + ("\n" + "");
    assert Values(Lines(docs)) == [Bare(docs[0])];
  }

  lemma DosValuesStep(docs: seq<Doc>, rest: (seq<Doc>, bool))
    requires docs != []
    ensures ([Bare(docs[0])] + rest.0, rest.1) == (DosValues(docs), true) <==> rest == (DosValues(docs[1..]), true)
  {
    assert Lines(docs)[1..] == Lines(docs[1..]);
    Prepended(Bare(docs[0]), rest.0, DosValues(docs[1..]));
  }

  /** The bytes of a file behind a position, some bytes further on. */
  lemma Shift(file: string, start: nat, a: string, b: string)
    requires start <= |file| && file[start..] == a + b
    ensures start + |a| <= |file| && file[start + |a|..] == b
  {
    assert file[start + |a|..] == file[start..][|a|..];
  }

  /** The bytes behind a text of such a file, the position being some bytes before it. */
  lemma ShiftLine(file: string, start: nat, prefix: string, docs: seq<Doc>)
    requires start <= |file| && docs != [] && file[start..] == prefix + DosFile(docs)
    ensures var n := |prefix| + |Render(docs[0])|;
            start + n <= |file| && file[start + n..] == "\r\n" + DosFile(docs[1..])
  {
    hide Render;
    var t := Render(docs[0]);
    assert prefix + DosFile(docs) == (prefix + t) + ("\r\n" + DosFile(docs[1..]));
    Shift(file, start, prefix + t, "\r\n" + DosFile(docs[1..]));
  }

  lemma ShiftMore(file: string, start: nat, rest: string)
    requires start <= |file| && file[start..] == "\r\n" + rest
    ensures start + 1 <= |file| && file[start + 1..] == "\n" + rest
  {
    assert file[start..] == "\r" + ("\n" + rest);
    Shift(file, start, "\r", "\n" + rest);
  }

  lemma ShiftLess(file: string, start: nat, prefix: string, docs: seq<Doc>)
    requires start <= |file| && docs != [] && file[start..] == prefix + DosFile(docs) && Render(docs[0]) != ""
    ensures var t := Render(docs[0]);
            var n := |prefix| + |t| - 1;
            start + n <= |file| && file[start + n..] == t[|t| - 1..] + ("\r\n" + DosFile(docs[1..]))
  {
    hide Render;
    var t := Render(docs[0]);
    var k := |t| - 1;
    assert t == t[..k] + t[k..];
    assert prefix + DosFile(docs) == (prefix + t[..k]) + (t[k..] + ("\r\n" + DosFile(docs[1..])));
    Shift(file, start, prefix + t[..k], t[k..] + ("\r\n" + DosFile(docs[1..])));
  }

  /** What is read from a position before, in or behind a line end. */
  lemma FromLine(file: string, start: nat, prefix: string, docs: seq<Doc>)
    requires start <= |file| && OneLiners(docs) && file[start..] == prefix + DosFile(docs)
    requires prefix == "" || prefix == "\n" || prefix == "\r\n"
    ensures From(file, start) == (if prefix == "" then "" else "\n") + Written(Lines(docs))
  {
    hide DosFile, Written, Lines, Translated;
    DosTranslated(docs);
    TranslatedPair(DosFile(docs));
    assert prefix == "" ==> prefix + DosFile(docs) == DosFile(docs) && "" + Written(Lines(docs)) == Written(Lines(docs));
  }

  lemma Units(s: string)
    ensures "" + s == s && "" + ("" + s) == s && "\n" + ("" + s) == "\n" + s && "" + ("\n" + s) == "\n" + s
  {
  }

  // The position and the text that is left, line by line.  A position in front of the
  // two characters of a line end, or between them, is one or two bytes behind.

  lemma FirstLine(file: string, docs: seq<Doc>)
    requires docs != [] && OneLiners(docs) && file == DosFile(docs)
    ensures Reading(file, 0, Translated(file)) == (DosValues(docs), true) <==> |docs| <= 5
  {
    hide Reading, Translated, Render, Bare, OneLiners, DosFile, Written, Lines, DosValues;
    assert file[0..] == file && "" + DosFile(docs) == DosFile(docs);
    FromLine(file, 0, "", docs);
    Units(Written(Lines(docs)));
    if |docs| == 1 {
      DosLast(file, 0, "", docs);
    } else {
      DosRound(file, 0, "", "", docs);
      Tail(docs);
      ShiftLine(file, 0, "", docs);
      ShiftMore(file, |Render(docs[0])|, DosFile(docs[1..]));
      Units(Written(Lines(docs[1..])));
      SecondLine(file, |Render(docs[0])| + 1, docs[1..]);
      DosValuesStep(docs, Reading(file, |Render(docs[0])| + 1, Written(Lines(docs[1..]))));
    }
  }

  lemma Tail(docs: seq<Doc>)
    requires OneLiners(docs) && docs != []
    ensures OneLiners(docs[1..]) && Render(docs[0]) != "" && Valid(docs[0]) && NoLineEnd(Render(docs[0]))
  {
    OneLinersTail(docs);
    DocStarts(docs[0]);
  }

  lemma SecondLine(file: string, start: nat, docs: seq<Doc>)
    requires docs != [] && OneLiners(docs) && start <= |file| && file[start..] == "\n" + DosFile(docs)
    ensures Reading(file, start, Written(Lines(docs))) == (DosValues(docs), true) <==> |docs| <= 4
  {
    hide Reading, Translated, Render, Bare, OneLiners, DosFile, Written, Lines, DosValues;
    FromLine(file, start, "\n", docs);
    Units(Written(Lines(docs)));
    if |docs| == 1 {
      DosLast(file, start, "", docs);
    } else {
      DosRound(file, start, "\n", "", docs);
      Tail(docs);
      ShiftLine(file, start, "\n", docs);
      ThirdLine(file, start + |Render(docs[0])| + 1, docs[1..]);
      DosValuesStep(docs, Reading(file, start + |Render(docs[0])| + 1, "\n" + Written(Lines(docs[1..]))));
    }
  }

  lemma ThirdLine(file: string, start: nat, docs: seq<Doc>)
    requires docs != [] && OneLiners(docs) && start <= |file| && file[start..] == "\r\n" + DosFile(docs)
    ensures Reading(file, start, "\n" + Written(Lines(docs))) == (DosValues(docs), true) <==> |docs| <= 3
  {
    hide Reading, Translated, Render, Bare, OneLiners, DosFile, Written, Lines, DosValues;
    FromLine(file, start, "\r\n", docs);
    Units(Written(Lines(docs)));
    if |docs| == 1 {
      DosLast(file, start, "\n", docs);
    } else {
      DosRound(file, start, "", "\n", docs);
      Tail(docs);
      ShiftLine(file, start, "\r\n", docs);
      Units(Written(Lines(docs[1..])));
      FourthLine(file, start + |Render(docs[0])| + 2, docs[1..]);
      DosValuesStep(docs, Reading(file, start + |Render(docs[0])| + 2, Written(Lines(docs[1..]))));
    }
  }

  lemma FourthLine(file: string, start: nat, docs: seq<Doc>)
    requires docs != [] && OneLiners(docs) && start <= |file| && file[start..] == "\r\n" + DosFile(docs)
    ensures Reading(file, start, Written(Lines(docs))) == (DosValues(docs), true) <==> |docs| <= 2
  {
    hide Reading, Translated, Render, Bare, OneLiners, DosFile, Written, Lines, DosValues, Valid, NoLineEnd;
    FromLine(file, start, "\r\n", docs);
    Units(Written(Lines(docs)));
    if |docs| == 1 {
      DosLast(file, start, "", docs);
    } else {
      DosRound(file, start, "\n", "", docs);
      Tail(docs);
      ShiftLess(file, start, "\r\n", docs);
      FifthLine(file, start + |Render(docs[0])| + 1, docs[0], docs[1..]);
      DosValuesStep(docs, Reading(file, start + |Render(docs[0])| + 1, "\n" + Written(Lines(docs[1..]))));
    }
  }

  // ---- the end of a text, read without its beginning ----

  /** How a text cannot end. */
  predicate EndsValue(c: char) {
    !IsSpace(c) && c != '{' && c != '['
  }

  lemma DigitEnds(d: string)
    requires d != "" && AllDigits(d)
    ensures EndsValue(d[|d| - 1])
  {
  }

  lemma NumberEnds(t: string)
    requires IsNumber(t)
    ensures t != "" && EndsValue(t[|t| - 1])
  {
    var sign, whole, fraction, exponent :| NumberOf(t, sign, whole, fraction, exponent);
    NumberParts(sign, whole, fraction, exponent);
    assert fraction != "" ==> AllDigits(fraction[1..]);
    if exponent != "" {
      ExponentEnds(exponent);
    } else if fraction != "" {
      DigitEnds(fraction[1..]);
    } else if whole != "0" {
      DigitEnds(whole);
    }
  }

  lemma NumberParts(sign: string, whole: string, fraction: string, exponent: string)
    requires whole != ""
    ensures var t := sign + (whole + (fraction + exponent));
            t[|t| - 1] == if exponent != "" then exponent[|exponent| - 1]
                          else if fraction != "" then fraction[|fraction| - 1] else whole[|whole| - 1]
  {
  }

  lemma ExponentEnds(e: string)
    requires IsExponent(e) && e != ""
    ensures EndsValue(e[|e| - 1])
  {
    if |e| >= 2 && AllDigits(e[1..]) {
      DigitEnds(e[1..]);
    } else {
      DigitEnds(e[2..]);
    }
  }

  lemma {:induction false} ItemsEnd(o: bool, items: Docs)
    ensures var t := RenderItems(o, items); t != "" && t[|t| - 1] == Close(o)[0]
  {
    hide Render;
    if items.Item? {
      ItemsEnd(o, items.rest);
    }
  }

  lemma DocEnds(d: Doc)
    requires Valid(d)
    ensures var t := Render(d); t != "" && EndsValue(t[|t| - 1])
  {
    match d
    case Atom(t) =>
      AtomStarts(t);
      if IsNumber(t) {
        NumberEnds(t);
      }
    case Group(o, _, items) => ItemsEnd(o, items);
  }

  /** The last character of a text, a line end and another text are not one text. */
  lemma Stray(c: char, w: string)
    requires EndsValue(c) && StartsValue(w)
    ensures !LoadText([c] + ("\n" + w)).Loaded?
  {
    hide StartsValue;
    var s := [c] + ("\n" + w);
    assert s[0] == c && s[1] == '\n' && s[1..] == "\n" + w;
    assert Trimmed(s) == s;
    StrayAtom(s);
    NewlineIsSpace();
    WordAfter(w);
  }

  lemma WordAfter(w: string)
    requires StartsValue(w)
    ensures Trimmed("\n" + w) == w != ""
  {
    NewlineIsSpace();
    Skipped("\n", w);
  }

  lemma StrayAtom(s: string)
    requires |s| > 1 && s[1] == '\n'
    ensures AtomLength(s) <= 1
  {
    hide WordLength;
    StrayWord(s);
    if s[0] == '"' {
      assert s[1..][0] == '\n' && BodyLength(s[1..]) == 0;
    }
    assert Digits(s[1..]) == 0;
    StrayNumber(s);
  }

  lemma StrayWord(s: string)
    requires |s| > 1 && s[1] == '\n'
    ensures WordLength(s) == 0
  {
    assert forall k :: 2 <= k <= |s| ==> s[..k][1] == '\n';
  }

  lemma StrayNumber(s: string)
    requires |s| > 1 && s[1] == '\n'
    ensures NumberLength(s) <= 1
  {
    var u := s[SignLength(s)..];
    var v := s[1..];
    assert v[0] == '\n';
    assert Digits(v) == 0 && TailLength(v) == 0;
    if SignLength(s) == 0 && WholeLength(u) > 0 {
      assert u == s;
    }
  }

  lemma FifthLine(file: string, start: nat, before: Doc, docs: seq<Doc>)
    requires docs != [] && OneLiners(docs) && start <= |file|
    requires Valid(before) && NoLineEnd(Render(before)) && Render(before) != ""
    requires file[start..] == Render(before)[|Render(before)| - 1..] + ("\r\n" + DosFile(docs))
    ensures Reading(file, start, "\n" + Written(Lines(docs))) == (DosValues(docs), true) <==> |docs| <= 1
  {
    hide Translated, Render, Bare, Valid, LoadText, Follows;
    if |docs| == 1 {
      hide Reading;
      DosLast(file, start, "\n", docs);
    } else {
      var last := Render(before)[|Render(before)| - 1..];
      var t, x := Render(docs[0]), Written(Lines(docs[1..]));
      DocEnds(before);
      OneLinersTail(docs);
      DosTranslated(docs);
      DosTranslated(docs[1..]);
      NewlineIsSpace();
      FollowsIff(docs[0], "\n", x);
      LoadHead("\n", docs[0], "\n", x);
      TranslatedPair(DosFile(docs));
      TranslatedLine(last, "\r\n" + DosFile(docs));
      StrayWindow(last, t, x);
      DocStarts(docs[0]);
      Stray(last[0], t);
    }
  }

  lemma StrayWindow(last: string, t: string, x: string)
    requires |last| == 1
    ensures var text := last + ("\n" + (t + ("\n" + x)));
            |t| + 2 <= |text| && text[..|t| + 2] == [last[0]] + ("\n" + t)
  {
    var text := last + ("\n" + (t + ("\n" + x)));
    assert text == (last + ("\n" + t)) + ("\n" + x);
  }

  /** Files of one text per line with DOS line ends: exactly the values are yielded iff
      there are at most five lines. */
  lemma DosReadsIff(docs: seq<Doc>)
    requires docs != [] && OneLiners(docs)
    ensures var file := DosFile(docs);
            Reading(file, 0, Translated(file)) == (DosValues(docs), true) <==> |docs| <= 5
  {
    FirstLine(DosFile(docs), docs);
  }

  /** A text with pairs in it fails much earlier: of three texts, of which the first is
      an empty list over four lines, only the first is yielded. */
  lemma LongTextFails()
    ensures var file := "[\r\n\r\n\r\n]\r\n7\r\n8";
            Reading(file, 0, Translated(file)) == ([Group(false, "", End)], false)
  {
    hide Reading, Translated, LoadText, AtomLength;
    var file := "[\r\n\r\n\r\n]\r\n7\r\n8";
    var list := Group(false, "\n\n\n", End);
    var x := "7\n8";
    LongTextTranslated();
    SevenIsText();
    assert file[0..] == file;
    assert Render(list) == "[\n\n\n]";
    assert "" + ("" + (Render(list) + ("\n" + x))) == "[\n\n\n]\n7\n8" == "" + (Render(list) + ("\n" + x));
    assert Space("\n\n\n") && Space("\n") && Space("");
    Round(file, 0, "", "", list, "\n", x);
    assert "\n"[1..] + x == x;
    LongTextStops(file, x);
    assert Bare(list) == Group(false, "", End);
    assert [Bare(list)] + [] == [Group(false, "", End)];
  }

  lemma SevenIsText()
    ensures Valid(Atom("7")) && StartsValue("7\n8") && StartsValue("8")
  {
    assert NumberOf("7", "", "7", "", "");
  }

  lemma LongTextTranslated()
    ensures Translated("[\r\n\r\n\r\n]\r\n7\r\n8") == "[\n\n\n]\n7\n8"
    ensures Translated("\n]\r\n7\r\n8") == "\n]\n7\n8"
  {
    hide Translated;
    var eight := "8" + "";
    var seven := "7" + ("\r\n" + eight);
    var bracket := "]" + ("\r\n" + seven);
    var inside := "\r\n" + ("\r\n" + ("\r\n" + bracket));
    TranslatedLine("8", "");
    TranslatedNothing();
    TranslatedPair(eight);
    TranslatedLine("7", "\r\n" + eight);
    TranslatedPair(seven);
    TranslatedLine("]", "\r\n" + seven);
    TranslatedPair(bracket);
    TranslatedPair("\r\n" + bracket);
    TranslatedPair("\r\n" + ("\r\n" + bracket));
    TranslatedLine("[", inside);
    assert "[" + inside == "[\r\n\r\n\r\n]\r\n7\r\n8";
    assert "\n" + bracket == "\n]\r\n7\r\n8";
    assert Translated(bracket) == "]\n7\n8";
  }

  lemma LongTextStops(file: string, x: string)
    requires file == "[\r\n\r\n\r\n]\r\n7\r\n8" && x == "7\n8"
    ensures Reading(file, 6, x) == ([], false)
  {
    hide Translated, LoadText;
    LongTextTranslated();
    assert file[6..] == "\n]\r\n7\r\n8";
    SevenIsText();
    NewlineIsSpace();
    FollowsIff(Atom("7"), "\n", "8");
    LoadHead("", Atom("7"), "\n", "8");
    assert "" + (Render(Atom("7")) + ("\n" + "8")) == x;
    assert ("\n]\n7\n8")[..2] == "\n]";
    BracketInvalid();
  }

  lemma BracketInvalid()
    ensures LoadText("\n]") == Invalid
  {
    NewlineIsSpace();
    Skipped("\n", "]");
    assert "\n" + "]" == "\n]";
    assert AtomLength("]") == 0;
  }
}
