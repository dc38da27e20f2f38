/** The text of nested configuration blocks: how it is printed, and a reader of
    the configuration syntax that takes it back to the block tree. */
module ConfigText {
  import opened Wrappers

  /** The contents of a block: statements and sub-blocks in order. */
  datatype Forest =
    | Nil
    | Line(text: string, rest: Forest)
    | Sub(name: string, body: Forest, rest: Forest)
  {
    function Then(other: Forest): Forest {
      match this
      case Nil => other
      case Line(t, rest) => Line(t, rest.Then(other))
      case Sub(n, body, rest) => Sub(n, body, rest.Then(other))
    }
  }

  const INDENT := "     "

  function Indents(n: nat): (s: string)
    ensures |s| == 5 * n && forall i :: 0 <= i < |s| ==> s[i] == ' '
  {
    if n == 0 then "" else INDENT + Indents(n - 1)
  }

  /** The indentation of a block that is created while the stack has `len`
      entries, the sentinel "top" among them. */
  function BlockIndent(len: nat): string {
    if len <= 1 then "" else Indents(len)
  }

  /** Nested blocks are indented more than the block around them. */
  lemma IndentGrows(len: nat)
    requires len >= 1
    ensures |BlockIndent(len)| < |BlockIndent(len) + INDENT| <= |BlockIndent(len + 1)|
  {
  }

  /** `write` ends every statement with a newline. */
  function EndLine(s: string): string {
    if s != [] && s[|s| - 1] == '\n' then s else s + "\n"
  }

  /** A statement in a block, the stack having `len` entries. */
  function LineText(t: string, len: nat): string
    requires len >= 1
  {
    EndLine(BlockIndent(len - 1) + INDENT + t)
  }

  /** What entering a block writes, created while the stack has `len` entries. */
  function Header(name: string, len: nat): string {
    BlockIndent(len) + name + " {\n"
  }

  /** What leaving that block writes. */
  function Footer(len: nat): string {
    BlockIndent(len) + "}\n\n"
  }

  /** The text of block contents, written while the stack has `len` entries. */
  function Print(f: Forest, len: nat): string
    requires len >= 1
  {
    match f
    case Nil => ""
    case Line(t, rest) => LineText(t, len) + Print(rest, len)
    case Sub(n, body, rest) =>
      Header(n, len) + (Print(body, len + 1) + (Footer(len) + Print(rest, len)))
  }

  lemma Assoc(a: string, b: string, c: string)
    ensures (a + b) + c == a + (b + c)
  {
  }

  lemma Assoc4(a: string, b: string, c: string, d: string, e: string)
    ensures (a + (b + (c + d))) + e == a + (b + (c + (d + e)))
  {
  }

  lemma {:induction false} PrintThen(f: Forest, g: Forest, len: nat)
    requires len >= 1
    ensures Print(f.Then(g), len) == Print(f, len) + Print(g, len)
  {
    match f
    case Nil =>
    case Line(t, rest) =>
      PrintThen(rest, g, len);
      Assoc(LineText(t, len), Print(rest, len), Print(g, len));
    case Sub(n, body, rest) =>
      PrintThen(rest, g, len);
      Assoc4(Header(n, len), Print(body, len + 1), Footer(len), Print(rest, len), Print(g, len));
  }

  // ---- `data % ()`, applied to every statement ----

  /** Where the reading of a directive stands after its percent sign. */
  datatype Phase = Flags | Width | Precision | Modifier

  /** What follows a directive that needs no argument, which is one that ends in a
      percent sign: flags, a width, a precision and a length modifier may precede it.
      Any other directive asks for an argument that is not there, and raises. */
  function Directive(phase: Phase, s: string): (rest: Option<string>)
    ensures rest.Some? ==> |rest.value| < |s|
    decreases |s|
  {
    if s == [] then None
    else if s[0] == '%' then Some(s[1..])
    else if phase == Flags && s[0] in "-+ #0" then Directive(Flags, s[1..])
    else if (phase == Flags || phase == Width) && '0' <= s[0] <= '9' then Directive(Width, s[1..])
    else if (phase == Flags || phase == Width) && s[0] == '.' then Directive(Precision, s[1..])
    else if phase == Precision && '0' <= s[0] <= '9' then Directive(Precision, s[1..])
    else if phase != Modifier && s[0] in "hlL" then Directive(Modifier, s[1..])
    else None
  }

  /** Python's formatting with an empty tuple. */
  function Format(s: string): Option<string>
    decreases |s|
  {
    if s == [] then Some([])
    else if s[0] != '%' then
      var r := Format(s[1..]);
      if r.None? then None else Some([s[0]] + r.value)
    else
      var rest := Directive(Flags, s[1..]);
      if rest.None? then None
      else
        var r := Format(rest.value);
        if r.None? then None else Some(['%'] + r.value)
  }

  lemma {:induction false} FormatPlain(s: string)
    requires '%' !in s
    ensures Format(s) == Some(s)
  {
    if s != [] {
      assert s[0] in s;
      FormatPlain(s[1..]);
      assert s == [s[0]] + s[1..];
    }
  }

  /** Doubled percent signs and their longer forms give one; a percent sign that a
      letter or a semicolon follows raises. */
  lemma FormatExamples()
    ensures Format("%%") == Some("%") && Format("% 5%") == Some("%") && Format("50%;") == None
  {
    assert "%%"[1..] == "%" && "%"[1..] == "" && Directive(Flags, "%") == Some("");
    assert Format("") == Some("") && ['%'] + "" == "%";
    assert Format("%%") == Some("%");
    assert "% 5%"[1..] == " 5%" && " 5%"[1..] == "5%" && "5%"[1..] == "%";
    assert Directive(Width, "%") == Some("") && Directive(Flags, "5%") == Some("") && Directive(Flags, " 5%") == Some("");
    assert "50%;"[1..] == "0%;" && "0%;"[1..] == "%;" && "%;"[1..] == ";";
    assert Directive(Flags, ";") == None && Format("%;") == None && Format("0%;") == None;
  }

  lemma {:induction false} FormatAfter(p: string, s: string)
    requires '%' !in p
    ensures Format(p + s).Some? <==> Format(s).Some?
    decreases |p|
  {
    if p == [] {
      assert p + s == s;
    } else {
      assert p[0] in p && (p + s)[1..] == p[1..] + s;
      FormatAfter(p[1..], s);
    }
  }

  /** A text that ends every directive that was open before it, with an exception. */
  ghost predicate Stops(tail: string) {
    forall phase :: Directive(phase, tail) == None
  }

  lemma {:induction false} DirectiveBefore(phase: Phase, s: string, tail: string)
    requires Stops(tail)
    ensures Directive(phase, s + tail)
            == if Directive(phase, s).None? then None else Some(Directive(phase, s).value + tail)
    decreases |s|
  {
    if s == [] {
      assert s + tail == tail;
    } else {
      assert (s + tail)[1..] == s[1..] + tail && (s + tail)[0] == s[0];
      forall p: Phase
        ensures Directive(p, s[1..] + tail)
                == if Directive(p, s[1..]).None? then None else Some(Directive(p, s[1..]).value + tail)
      {
        DirectiveBefore(p, s[1..], tail);
      }
    }
  }

  /** Such a text does not repair anything before it. */
  lemma {:induction false} FormatBefore(s: string, tail: string)
    requires Stops(tail)
    ensures Format(s + tail).Some? <==> Format(s).Some? && Format(tail).Some?
    decreases |s|
  {
    if s == [] {
      assert s + tail == tail;
    } else {
      assert (s + tail)[1..] == s[1..] + tail && (s + tail)[0] == s[0];
      if s[0] != '%' {
        FormatBefore(s[1..], tail);
      } else {
        DirectiveBefore(Flags, s[1..], tail);
        if Directive(Flags, s[1..]).Some? {
          FormatBefore(Directive(Flags, s[1..]).value, tail);
        }
      }
    }
  }

  /** A piece between two texts without percent signs. */
  lemma FormatBetween(p: string, s: string, tail: string)
    requires '%' !in p && '%' !in tail && Stops(tail)
    ensures Format(p + s + tail).Some? <==> Format(s).Some?
  {
    assert p + s + tail == p + (s + tail);
    FormatAfter(p, s + tail);
    FormatBefore(s, tail);
    FormatPlain(tail);
  }

  /** All statements formatted; None when one of them raises. */
  function FormatAll(f: Forest): Option<Forest> {
    match f
    case Nil => Some(Nil)
    case Line(t, rest) =>
      var t', r := Format(t), FormatAll(rest);
      if t'.None? || r.None? then None else Some(Line(t'.value, r.value))
    case Sub(n, body, rest) =>
      var b, r := FormatAll(body), FormatAll(rest);
      if b.None? || r.None? then None else Some(Sub(n, b.value, r.value))
  }

  lemma {:induction false} FormatThen(f: Forest, g: Forest)
    ensures FormatAll(f.Then(g)).Some? <==> FormatAll(f).Some? && FormatAll(g).Some?
    ensures FormatAll(f.Then(g)).Some? ==> FormatAll(f.Then(g)).value == FormatAll(f).value.Then(FormatAll(g).value)
  {
    match f
    case Nil =>
    case Line(_, rest) => FormatThen(rest, g);
    case Sub(_, _, rest) => FormatThen(rest, g);
  }

  // ---- reading the text back ----

  datatype Token = Blank | Open(name: string) | Close | Statement(text: string)

  /** The lines of a text; the last one is what follows the last newline. */
  function Lines(s: string): (ls: seq<string>)
    ensures ls != []
  {
    if s == [] then [[]]
    else
      var rest := Lines(s[1..]);
      if s[0] == '\n' then [[]] + rest else [[s[0]] + rest[0]] + rest[1..]
  }

  function Trim(s: string): string {
    if s != [] && s[0] == ' ' then Trim(s[1..]) else s
  }

  /** Leading blanks do not matter; braces open and close blocks. */
  function Classify(line: string): Token {
    var s := Trim(line);
    if s == [] then Blank
    else if s == "}" then Close
    else if |s| >= 2 && s[|s| - 2..] == " {" then Open(s[..|s| - 2])
    else Statement(s)
  }

  function Classes(lines: seq<string>): seq<Token> {
    if lines == [] then [] else [Classify(lines[0])] + Classes(lines[1..])
  }

  function Tokens(s: string): seq<Token> {
    Classes(Lines(s))
  }

  /** Reads block contents up to a closing brace that is not its own. */
  function ParseForest(ts: seq<Token>): (r: Option<(Forest, seq<Token>)>)
    ensures r.Some? ==> |r.value.1| <= |ts|
    decreases |ts|
  {
    if ts == [] || ts[0].Close? then Some((Nil, ts))
    else match ts[0]
      case Blank => ParseForest(ts[1..])
      case Statement(t) =>
        var r := ParseForest(ts[1..]);
        if r.None? then None else Some((Line(t, r.value.0), r.value.1))
      case Open(n) =>
        var b := ParseForest(ts[1..]);
        if b.None? || b.value.1 == [] then None
        else
          var r := ParseForest(b.value.1[1..]);
          if r.None? then None else Some((Sub(n, b.value.0, r.value.0), r.value.1))
  }

  /** A whole text; braces must balance. */
  function Parse(s: string): Option<Forest> {
    var r := ParseForest(Tokens(s));
    if r.None? || r.value.1 != [] then None else Some(r.value.0)
  }

  /** What the reader keeps: statements without leading blanks, none that is blank. */
  function Norm(f: Forest): Forest {
    match f
    case Nil => Nil
    case Line(t, rest) => if Trim(t) == [] then Norm(rest) else Line(Trim(t), Norm(rest))
    case Sub(n, body, rest) => Sub(n, Norm(body), Norm(rest))
  }

  predicate CleanText(s: string) {
    '\n' !in s && '{' !in s && '}' !in s
  }

  predicate CleanName(s: string) {
    CleanText(s) && s != [] && s[0] != ' '
  }

  /** No newlines and no braces in names and statements. */
  predicate Clean(f: Forest) {
    match f
    case Nil => true
    case Line(t, rest) => CleanText(t) && Clean(rest)
    case Sub(n, body, rest) => CleanName(n) && Clean(body) && Clean(rest)
  }

  lemma {:induction false} CleanThen(f: Forest, g: Forest)
    ensures Clean(f.Then(g)) <==> Clean(f) && Clean(g)
  {
    match f
    case Nil =>
    case Line(_, rest) => CleanThen(rest, g);
    case Sub(_, _, rest) => CleanThen(rest, g);
  }

  lemma {:induction false} NormThen(f: Forest, g: Forest)
    ensures Norm(f.Then(g)) == Norm(f).Then(Norm(g))
  {
    match f
    case Nil =>
    case Line(_, rest) => NormThen(rest, g);
    case Sub(_, _, rest) => NormThen(rest, g);
  }

  lemma {:induction false} LinesHead(a: string, rest: string)
    requires '\n' !in a
    ensures Lines(a + "\n" + rest) == [a] + Lines(rest)
  {
    var s := a + "\n" + rest;
    if a == [] {
      assert s[1..] == rest;
    } else {
      assert s[1..] == a[1..] + "\n" + rest;
      assert a[0] in a && '\n' !in a[1..];
      LinesHead(a[1..], rest);
      assert [a[0]] + a[1..] == a;
    }
  }

  /** One line more in front of a text is one token more. */
  lemma TokensHead(a: string, rest: string)
    requires '\n' !in a
    ensures Tokens(a + "\n" + rest) == [Classify(a)] + Tokens(rest)
  {
    LinesHead(a, rest);
    assert ([a] + Lines(rest))[1..] == Lines(rest);
  }

  lemma {:induction false} TrimIndented(blanks: string, s: string)
    requires forall i :: 0 <= i < |blanks| ==> blanks[i] == ' '
    ensures Trim(blanks + s) == Trim(s)
  {
    if blanks == [] {
      assert blanks + s == s;
    } else {
      assert (blanks + s)[1..] == blanks[1..] + s;
      TrimIndented(blanks[1..], s);
    }
  }

  lemma {:induction false} TrimPart(s: string)
    ensures forall c :: c in Trim(s) ==> c in s
  {
    if s != [] && s[0] == ' ' {
      TrimPart(s[1..]);
    }
  }

  lemma ClassifyStatement(blanks: string, t: string)
    requires forall i :: 0 <= i < |blanks| ==> blanks[i] == ' '
    requires CleanText(t)
    ensures Classify(blanks + t) == StatementToken(t)
  {
    TrimIndented(blanks, t);
    TrimPart(t);
    var s := Trim(t);
    assert forall i :: 0 <= i < |s| ==> s[i] in s;
    assert |s| >= 2 ==> s[|s| - 2..][1] == s[|s| - 1];
  }

  lemma ClassifyOpen(blanks: string, n: string)
    requires forall i :: 0 <= i < |blanks| ==> blanks[i] == ' '
    requires CleanName(n)
    ensures Classify(blanks + (n + " {")) == Open(n)
  {
    var s := n + " {";
    TrimIndented(blanks, s);
    assert s[0] == n[0];
    assert Trim(s) == s;
    assert s[|s| - 2..] == " {" && s[..|s| - 2] == n;
  }

  lemma ClassifyClose(blanks: string)
    requires forall i :: 0 <= i < |blanks| ==> blanks[i] == ' '
    ensures Classify(blanks + "}") == Close
  {
    TrimIndented(blanks, "}");
  }

  lemma NoNewline(blanks: string, s: string)
    requires forall i :: 0 <= i < |blanks| ==> blanks[i] == ' '
    requires '\n' !in s
    ensures '\n' !in blanks + s
  {
  }

  lemma BlockIndentBlank(len: nat)
    ensures forall i :: 0 <= i < |BlockIndent(len)| ==> BlockIndent(len)[i] == ' '
    ensures len >= 1 ==> var b := BlockIndent(len - 1) + INDENT; forall i :: 0 <= i < |b| ==> b[i] == ' '
  {
  }

  lemma EndLineClean(s: string)
    requires '\n' !in s
    ensures EndLine(s) == s + "\n"
  {
    assert forall i :: 0 <= i < |s| ==> s[i] in s;
  }

  lemma LineToken(t: string, len: nat, tail: string)
    requires len >= 1 && CleanText(t)
    ensures Tokens(LineText(t, len) + tail) == [StatementToken(t)] + Tokens(tail)
  {
    BlockIndentBlank(len);
    var blanks := BlockIndent(len - 1) + INDENT;
    NoNewline(blanks, t);
    EndLineClean(blanks + t);
    TokensHead(blanks + t, tail);
    ClassifyStatement(blanks, t);
  }

  lemma HeaderToken(n: string, len: nat, tail: string)
    requires CleanName(n)
    ensures Tokens(Header(n, len) + tail) == [Open(n)] + Tokens(tail)
  {
    BlockIndentBlank(len);
    var blanks := BlockIndent(len);
    NoNewline(blanks, n + " {");
    assert Header(n, len) == (blanks + (n + " {")) + "\n";
    TokensHead(blanks + (n + " {"), tail);
    ClassifyOpen(blanks, n);
  }

  lemma FooterToken(len: nat, tail: string)
    ensures Tokens(Footer(len) + tail) == [Close, Blank] + Tokens(tail)
  {
    hide Tokens, Classify, BlockIndent;
    BlockIndentBlank(len);
    var blanks := BlockIndent(len);
    NoNewline(blanks, "}");
    FooterText(blanks, tail);
    TokensHead(blanks + "}", "\n" + tail);
    ClassifyClose(blanks);
    TokensHead([], tail);
    ClassifyNothing();
  }

  lemma FooterText(blanks: string, tail: string)
    ensures blanks + "}\n\n" + tail == (blanks + "}") + "\n" + ("\n" + tail)
    ensures "\n" + tail == [] + "\n" + tail
  {
  }

  lemma ClassifyNothing()
    ensures Classify([]) == Blank
  {
  }

  function StatementToken(t: string): Token {
    if Trim(t) == [] then Blank else Statement(Trim(t))
  }

  /** The tokens of printed contents: they do not depend on the indentation. */
  function TokensOf(f: Forest): seq<Token> {
    match f
    case Nil => []
    case Line(t, rest) => [StatementToken(t)] + TokensOf(rest)
    case Sub(n, body, rest) => BlockTokens(n, TokensOf(body), TokensOf(rest))
  }

  function BlockTokens(n: string, inner: seq<Token>, outer: seq<Token>): seq<Token> {
    [Open(n)] + (inner + ([Close, Blank] + outer))
  }

  lemma BlockTokensTail(n: string, inner: seq<Token>, outer: seq<Token>, tail: seq<Token>)
    ensures BlockTokens(n, inner, outer) + tail == BlockTokens(n, inner, outer + tail)
  {
  }

  lemma {:induction false} PrintedTokens(f: Forest, len: nat, tail: string)
    requires len >= 1 && Clean(f)
    ensures Tokens(Print(f, len) + tail) == TokensOf(f) + Tokens(tail)
  {
    hide Tokens, LineText, Header, Footer, BlockTokens, StatementToken;
    match f
    case Nil =>
      assert Print(f, len) + tail == tail;
    case Line(t, rest) =>
      PrintedTokens(rest, len, tail);
      LineToken(t, len, Print(rest, len) + tail);
      LineStep(LineText(t, len), Print(rest, len), tail, StatementToken(t), TokensOf(rest));
    case Sub(n, body, rest) =>
      PrintedTokens(rest, len, tail);
      PrintedTokens(body, len + 1, Footer(len) + (Print(rest, len) + tail));
      PrintedBlock(n, body, rest, len, tail);
  }

  lemma PrintedBlock(n: string, body: Forest, rest: Forest, len: nat, tail: string)
    requires len >= 1 && CleanName(n)
    requires Tokens(Print(rest, len) + tail) == TokensOf(rest) + Tokens(tail)
    requires var close := Footer(len) + (Print(rest, len) + tail);
             Tokens(Print(body, len + 1) + close) == TokensOf(body) + Tokens(close)
    ensures Tokens(Print(Sub(n, body, rest), len) + tail) == TokensOf(Sub(n, body, rest)) + Tokens(tail)
  {
    FooterToken(len, Print(rest, len) + tail);
    HeaderToken(n, len, Print(body, len + 1) + (Footer(len) + (Print(rest, len) + tail)));
    BlockStep(Header(n, len), Print(body, len + 1), Footer(len), Print(rest, len), tail,
              n, TokensOf(body), TokensOf(rest));
  }

  /** A statement in front of more text. */
  lemma LineStep(line: string, rest: string, tail: string, t: Token, outer: seq<Token>)
    requires Tokens(rest + tail) == outer + Tokens(tail)
    requires Tokens(line + (rest + tail)) == [t] + Tokens(rest + tail)
    ensures Tokens((line + rest) + tail) == ([t] + outer) + Tokens(tail)
  {
    Assoc(line, rest, tail);
  }

  /** The pieces of one block, put together. */
  lemma BlockStep(header: string, body: string, footer: string, rest: string, tail: string,
                  n: string, inner: seq<Token>, outer: seq<Token>)
    requires Tokens(rest + tail) == outer + Tokens(tail)
    requires Tokens(footer + (rest + tail)) == [Close, Blank] + Tokens(rest + tail)
    requires Tokens(body + (footer + (rest + tail))) == inner + Tokens(footer + (rest + tail))
    requires Tokens(header + (body + (footer + (rest + tail)))) == [Open(n)] + Tokens(body + (footer + (rest + tail)))
    ensures Tokens((header + (body + (footer + rest))) + tail) == BlockTokens(n, inner, outer) + Tokens(tail)
  {
    Assoc4(header, body, footer, rest, tail);
    BlockTokensTail(n, inner, outer, Tokens(tail));
  }

  /** Reading the tokens of contents gives the contents back and stops at what follows. */
  lemma {:induction false} ParseTokensOf(f: Forest, tail: seq<Token>, next: seq<Token>)
    requires ParseForest(tail) == Some((Nil, next))
    ensures ParseForest(TokensOf(f) + tail) == Some((Norm(f), next))
    decreases f
  {
    match f
    case Nil =>
      assert TokensOf(f) + tail == tail;
    case Line(t, rest) =>
      ParseTokensOf(rest, tail, next);
      assert (TokensOf(f) + tail)[1..] == TokensOf(rest) + tail;
    case Sub(n, body, rest) =>
      var outer := TokensOf(rest) + tail;
      var closed := [Close, Blank] + outer;
      ParseTokensOf(rest, tail, next);
      ParseTokensOf(body, closed, closed);
      BlockTokensTail(n, TokensOf(body), TokensOf(rest), tail);
      ParseBlock(n, Norm(body), Norm(rest), TokensOf(body) + closed, outer, next);
  }

  /** One block, given how its contents and what follows it are read. */
  lemma ParseBlock(n: string, body: Forest, rest: Forest, inner: seq<Token>, outer: seq<Token>, next: seq<Token>)
    requires ParseForest(inner) == Some((body, [Close, Blank] + outer))
    requires ParseForest(outer) == Some((rest, next))
    ensures ParseForest([Open(n)] + inner) == Some((Sub(n, body, rest), next))
  {
    var ts := [Open(n)] + inner;
    assert ts[1..] == inner;
    var closed := [Close, Blank] + outer;
    var blankFirst := closed[1..];
    assert blankFirst[0] == Blank && blankFirst[1..] == outer;
    assert ParseForest(blankFirst) == Some((rest, next));
  }

  /** Round trip: reading a printed text gives the block tree back. */
  lemma RoundTrip(f: Forest)
    requires Clean(f)
    ensures Parse(Print(f, 1)) == Some(Norm(f))
  {
    assert Tokens([]) == [Blank];
    assert [Blank][1..] == [];
    assert ParseForest([Blank]) == Some((Nil, []));
    PrintedTokens(f, 1, []);
    ParseTokensOf(f, [Blank], []);
    assert Print(f, 1) + [] == Print(f, 1);
  }
}
