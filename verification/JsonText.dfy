/** The words of JSON texts (RFC 8259, sections 2, 6 and 7): white space, numbers and
    strings, as the grammar says and as Python's json library finds them. */
module JsonText {
  import opened Decimals

  // ---- white space ----

  predicate IsSpace(c: char) {
    c == ' ' || c == '\t' || c == '\n' || c == '\r'
  }

  predicate Space(s: string) {
    forall k :: 0 <= k < |s| ==> IsSpace(s[k])
  }

  /** The white space at the beginning, and what follows it. */
  function Blank(s: string): (b: string)
    ensures Space(b) && |b| <= |s|
  {
    if s != [] && IsSpace(s[0]) then [s[0]] + Blank(s[1..]) else []
  }

  function Trimmed(s: string): (t: string)
    ensures t == [] || !IsSpace(t[0])
    ensures Blank(s) + t == s
  {
    if s != [] && IsSpace(s[0]) then Trimmed(s[1..]) else s
  }

  lemma {:induction false} Skipped(b: string, t: string)
    requires Space(b) && (t == [] || !IsSpace(t[0]))
    ensures Blank(b + t) == b && Trimmed(b + t) == t
  {
    if b == [] {
      assert b + t == t;
    } else {
      assert (b + t)[0] == b[0] && (b + t)[1..] == b[1..] + t;
      Skipped(b[1..], t);
    }
  }

  // ---- numbers ----

  predicate IsSign(s: string) {
    s == "" || s == "-"
  }

  predicate IsWhole(s: string) {
    s == "0" || (s != "" && AllDigits(s) && s[0] != '0')
  }

  predicate IsFraction(s: string) {
    s == "" || (|s| >= 2 && s[0] == '.' && AllDigits(s[1..]))
  }

  predicate IsExponent(s: string) {
    s == ""
    || ((s[0] == 'e' || s[0] == 'E')
        && ((|s| >= 2 && AllDigits(s[1..])) || (|s| >= 3 && (s[1] == '+' || s[1] == '-') && AllDigits(s[2..]))))
  }

  ghost predicate NumberOf(t: string, sign: string, whole: string, fraction: string, exponent: string) {
    IsSign(sign) && IsWhole(whole) && IsFraction(fraction) && IsExponent(exponent)
    && t == sign + (whole + (fraction + exponent))
  }

  ghost predicate IsNumber(t: string) {
    exists sign, whole, fraction, exponent :: NumberOf(t, sign, whole, fraction, exponent)
  }

  /** The lengths of the longest parts at the beginning of a text, as the library's
      regular expression finds them. */
  function Digits(s: string): (n: nat)
    ensures n <= |s| && AllDigits(s[..n]) && (n < |s| ==> !IsDigit(s[n]))
  {
    if s != [] && IsDigit(s[0]) then
      var n := Digits(s[1..]);
      assert s[1..][..n] == s[1..n + 1];
      assert forall k :: 0 <= k < n + 1 ==> IsDigit(s[k]) by {
        assert forall k :: 1 <= k < n + 1 ==> s[k] == s[1..][k - 1];
      }
      1 + n
    else 0
  }

  function SignLength(s: string): (n: nat)
    ensures n <= |s|
  {
    if s != [] && s[0] == '-' then 1 else 0
  }

  function WholeLength(s: string): (n: nat)
    ensures n <= |s|
  {
    if s != [] && s[0] == '0' then 1 else Digits(s)
  }

  function FractionLength(s: string): (n: nat)
    ensures n <= |s|
  {
    if s != [] && s[0] == '.' && Digits(s[1..]) > 0 then 1 + Digits(s[1..]) else 0
  }

  function ExponentLength(s: string): (n: nat)
    ensures n <= |s|
  {
    if s == [] || (s[0] != 'e' && s[0] != 'E') then 0
    else if |s| >= 2 && (s[1] == '+' || s[1] == '-') then
      (if Digits(s[2..]) > 0 then 2 + Digits(s[2..]) else 0)
    else if Digits(s[1..]) > 0 then 1 + Digits(s[1..]) else 0
  }

  /** The fraction and the exponent. */
  function TailLength(s: string): (n: nat)
    ensures n <= |s|
  {
    FractionLength(s) + ExponentLength(s[FractionLength(s)..])
  }

  function UnsignedLength(s: string): (n: nat)
    ensures n <= |s|
  {
    if WholeLength(s) == 0 then 0 else WholeLength(s) + TailLength(s[WholeLength(s)..])
  }

  /** Zero when there is no number. */
  function NumberLength(s: string): (n: nat)
    ensures n <= |s|
  {
    var a := SignLength(s);
    if UnsignedLength(s[a..]) == 0 then 0 else a + UnsignedLength(s[a..])
  }

  lemma {:induction false} DigitsSum(d: string, x: string)
    requires AllDigits(d)
    ensures Digits(d + x) == |d| + Digits(x)
  {
    if d == [] {
      assert d + x == x;
    } else {
      assert (d + x)[0] == d[0] && (d + x)[1..] == d[1..] + x;
      DigitsSum(d[1..], x);
    }
  }

  /** What begins with none of these ends a number. */
  predicate Ends(x: string) {
    x == [] || !(IsDigit(x[0]) || x[0] == '.' || x[0] == 'e' || x[0] == 'E')
  }

  predicate NoDigit(x: string) {
    x == [] || !IsDigit(x[0])
  }

  predicate NoFraction(x: string) {
    NoDigit(x) && (x == [] || x[0] != '.')
  }

  lemma WholeExact(w: string, x: string)
    requires IsWhole(w) && NoDigit(x)
    ensures WholeLength(w + x) == |w| > 0 && SignLength(w + x) == 0
  {
    assert (w + x)[0] == w[0];
    if w != "0" {
      DigitsSum(w, x);
    }
  }

  lemma FractionExact(f: string, x: string)
    requires IsFraction(f) && NoFraction(x)
    ensures FractionLength(f + x) == |f| && NoDigit(f + x)
  {
    if f == "" {
      assert f + x == x;
    } else {
      assert (f + x)[0] == f[0] && (f + x)[1..] == f[1..] + x;
      DigitsSum(f[1..], x);
    }
  }

  lemma ExponentExact(e: string, x: string)
    requires IsExponent(e) && Ends(x)
    ensures ExponentLength(e + x) == |e| && NoFraction(e + x)
  {
    if e == "" {
      assert e + x == x;
    } else if |e| >= 2 && AllDigits(e[1..]) {
      assert (e + x)[0] == e[0] && (e + x)[1..] == e[1..] + x && (e + x)[1] == e[1];
      assert IsDigit(e[1..][0]);
      DigitsSum(e[1..], x);
    } else {
      assert (e + x)[0] == e[0] && (e + x)[1] == e[1] && (e + x)[2..] == e[2..] + x;
      DigitsSum(e[2..], x);
    }
  }

  lemma Drop(a: string, b: string)
    ensures (a + b)[|a|..] == b
  {
  }

  /** A number is read by its parts. */
  lemma ReadByParts(sign: string, whole: string, rest: string)
    requires IsSign(sign) && WholeLength(whole + rest) == |whole| > 0 && SignLength(whole + rest) == 0
    ensures NumberLength(sign + (whole + rest)) == |sign| + |whole| + TailLength(rest)
  {
    hide WholeLength, TailLength;
    Drop(sign, whole + rest);
    Drop(whole, rest);
    SignRead(sign, whole + rest);
  }

  lemma SignRead(sign: string, u: string)
    requires IsSign(sign) && SignLength(u) == 0
    ensures SignLength(sign + u) == |sign|
  {
    if sign == "" {
      assert sign + u == u;
    }
  }

  lemma NumberRegrouped(t: string, x: string, sign: string, whole: string, fraction: string, exponent: string)
    requires t == sign + (whole + (fraction + exponent))
    ensures t + x == sign + (whole + (fraction + (exponent + x)))
  {
  }

  /** A number is read whole when what follows cannot be part of it. */
  lemma NumberExact(t: string, x: string)
    requires IsNumber(t) && Ends(x)
    ensures NumberLength(t + x) == |t| > 0
  {
    hide IsWhole, IsFraction, IsExponent, NumberLength, FractionLength, ExponentLength, WholeLength, SignLength, NoDigit,
         NoFraction, Ends;
    var sign, whole, fraction, exponent :| NumberOf(t, sign, whole, fraction, exponent);
    NumberRegrouped(t, x, sign, whole, fraction, exponent);
    ExponentExact(exponent, x);
    FractionExact(fraction, exponent + x);
    WholeExact(whole, fraction + (exponent + x));
    ReadByParts(sign, whole, fraction + (exponent + x));
    Drop(fraction, exponent + x);
  }

  /** A digit behind a number becomes part of it, unless the number is zero. */
  lemma NumberGrows(t: string, x: string)
    requires IsNumber(t) && x != [] && IsDigit(x[0])
    ensures if t == "0" || t == "-0" then NumberLength(t + x) == |t| else NumberLength(t + x) > |t|
  {
    hide IsWhole, IsFraction, IsExponent, NumberLength, FractionLength, ExponentLength, WholeLength, SignLength, NoDigit,
         NoFraction, Ends;
    var sign, whole, fraction, exponent :| NumberOf(t, sign, whole, fraction, exponent);
    NumberRegrouped(t, x, sign, whole, fraction, exponent);
    var rest := fraction + (exponent + x);
    if exponent != "" {
      ExponentGrows(exponent, x);
      FractionExact(fraction, exponent + x);
      WholeExact(whole, rest);
      ReadByParts(sign, whole, rest);
      Drop(fraction, exponent + x);
      NotZero(t, sign, whole, fraction, exponent);
    } else if fraction != "" {
      assert exponent + x == x;
      FractionGrows(fraction, x);
      WholeExact(whole, rest);
      ReadByParts(sign, whole, rest);
      NotZero(t, sign, whole, fraction, exponent);
    } else {
      assert rest == x;
      WholeGrows(sign, whole, x);
      assert t == sign + whole;
    }
  }

  lemma NotZero(t: string, sign: string, whole: string, fraction: string, exponent: string)
    requires NumberOf(t, sign, whole, fraction, exponent) && (fraction != "" || exponent != "")
    ensures t != "0" && t != "-0"
  {
    var tail := fraction + exponent;
    assert tail != "" && tail[0] in ".eE";
    assert t == sign + whole + tail;
    assert t[|sign| + |whole|] == tail[0];
  }

  lemma ExponentGrows(e: string, x: string)
    requires IsExponent(e) && e != "" && x != [] && IsDigit(x[0])
    ensures ExponentLength(e + x) > |e| && NoFraction(e + x)
  {
    assert Digits(x) > 0;
    if AllDigits(e[1..]) && |e| >= 2 {
      assert (e + x)[0] == e[0] && (e + x)[1..] == e[1..] + x && (e + x)[1] == e[1];
      assert IsDigit(e[1..][0]);
      DigitsSum(e[1..], x);
    } else {
      assert (e + x)[0] == e[0] && (e + x)[1] == e[1] && (e + x)[2..] == e[2..] + x;
      DigitsSum(e[2..], x);
    }
  }

  lemma FractionGrows(f: string, x: string)
    requires IsFraction(f) && f != "" && x != [] && IsDigit(x[0])
    ensures FractionLength(f + x) > |f| && NoDigit(f + x)
  {
    assert Digits(x) > 0;
    assert (f + x)[0] == f[0] && (f + x)[1..] == f[1..] + x;
    DigitsSum(f[1..], x);
  }

  lemma WholeGrows(sign: string, whole: string, x: string)
    requires IsSign(sign) && IsWhole(whole) && x != [] && IsDigit(x[0])
    ensures var n := NumberLength(sign + (whole + x));
            if whole == "0" then n == |sign| + 1 else n > |sign| + |whole|
    ensures whole == "0" <==> sign + whole == "0" || sign + whole == "-0"
  {
    hide TailLength;
    assert (whole + x)[0] == whole[0];
    Drop(sign, whole + x);
    SignRead(sign, whole + x);
    if whole == "0" {
      ReadByParts(sign, whole, x);
      NoTail(x);
    } else {
      DigitsSum(whole, x);
      assert Digits(x) > 0;
    }
    assert (sign + whole)[|sign|..] == whole;
  }

  lemma NoTail(x: string)
    requires x != [] && IsDigit(x[0])
    ensures TailLength(x) == 0
  {
  }

  /** What is read as a number is one. */
  lemma NumberRead(s: string)
    requires NumberLength(s) > 0
    ensures IsNumber(s[..NumberLength(s)])
  {
    hide NumberOf, IsNumber;
    var a := SignLength(s);
    var u := s[a..];
    SignIs(s);
    UnsignedRead(u, s[..a]);
    assert s[..a] + u[..UnsignedLength(u)] == s[..a + UnsignedLength(u)];
  }

  lemma UnsignedRead(u: string, sign: string)
    requires UnsignedLength(u) > 0 && IsSign(sign)
    ensures IsNumber(sign + u[..UnsignedLength(u)])
  {
    hide WholeLength, FractionLength, ExponentLength, IsSign, IsWhole, IsFraction, IsExponent;
    var b := WholeLength(u);
    var v := u[b..];
    var c := FractionLength(v);
    WholeRead(u);
    FractionRead(v);
    ExponentRead(v[c..]);
    ThreeParts(u, b, c, ExponentLength(v[c..]));
    assert NumberOf(sign + u[..UnsignedLength(u)], sign, u[..b], v[..c], v[c..][..ExponentLength(v[c..])]);
  }

  lemma SignIs(s: string)
    ensures IsSign(s[..SignLength(s)])
  {
  }

  lemma WholeRead(s: string)
    requires WholeLength(s) > 0
    ensures IsWhole(s[..WholeLength(s)])
  {
  }

  lemma FractionRead(s: string)
    ensures IsFraction(s[..FractionLength(s)])
  {
    var f := s[..FractionLength(s)];
    if f != "" {
      assert f[1..] == s[1..][..Digits(s[1..])];
    }
  }

  lemma ExponentRead(s: string)
    ensures IsExponent(s[..ExponentLength(s)])
  {
    var e := s[..ExponentLength(s)];
    if e != "" {
      if |s| >= 2 && (s[1] == '+' || s[1] == '-') {
        assert e[2..] == s[2..][..Digits(s[2..])];
      } else {
        assert e[1..] == s[1..][..Digits(s[1..])];
      }
    }
  }

  lemma ThreeParts(u: string, b: nat, c: nat, e: nat)
    requires b + c + e <= |u|
    ensures var v := u[b..]; u[..b + c + e] == u[..b] + (v[..c] + v[c..][..e])
  {
  }

  // ---- reading depends on what is read only ----

  lemma {:induction false} DigitsCut(s: string, k: nat)
    requires Digits(s) <= k <= |s|
    ensures Digits(s[..k]) == Digits(s)
  {
    if k > 0 && IsDigit(s[0]) {
      assert s[..k][1..] == s[1..][..k - 1];
      DigitsCut(s[1..], k - 1);
    }
  }

  lemma WholeCut(s: string, k: nat)
    requires WholeLength(s) <= k <= |s|
    ensures WholeLength(s[..k]) == WholeLength(s)
  {
    if s != [] && s[0] == '0' {
      assert s[..k][0] == '0';
    } else {
      DigitsCut(s, k);
    }
  }

  lemma FractionCut(s: string, k: nat)
    requires FractionLength(s) <= k <= |s|
    ensures FractionLength(s[..k]) == FractionLength(s)
  {
    if k > 0 && s[0] == '.' {
      assert s[..k][1..] == s[1..][..k - 1];
      if Digits(s[1..]) <= k - 1 {
        DigitsCut(s[1..], k - 1);
      }
    }
  }

  lemma ExponentCut(s: string, k: nat)
    requires ExponentLength(s) <= k <= |s|
    ensures ExponentLength(s[..k]) == ExponentLength(s)
  {
    if k > 0 && (s[0] == 'e' || s[0] == 'E') {
      assert s[..k][1..] == s[1..][..k - 1];
      if k >= 2 && (s[1] == '+' || s[1] == '-') {
        assert s[..k][2..] == s[2..][..k - 2];
        if Digits(s[2..]) <= k - 2 {
          DigitsCut(s[2..], k - 2);
        }
      } else if Digits(s[1..]) <= k - 1 {
        DigitsCut(s[1..], k - 1);
      }
    }
  }

  lemma TailCut(s: string, k: nat)
    requires TailLength(s) <= k <= |s|
    ensures TailLength(s[..k]) == TailLength(s)
  {
    var c := FractionLength(s);
    FractionCut(s, k);
    assert s[..k][c..] == s[c..][..k - c];
    ExponentCut(s[c..], k - c);
  }

  lemma NumberCut(s: string, k: nat)
    requires 0 < NumberLength(s) <= k <= |s|
    ensures NumberLength(s[..k]) == NumberLength(s)
  {
    hide TailLength, WholeLength;
    var a := SignLength(s);
    var u := s[a..];
    var b := WholeLength(u);
    assert s[..k][a..] == u[..k - a];
    WholeCut(u, k - a);
    assert u[..k - a][b..] == u[b..][..k - a - b];
    TailCut(u[b..], k - a - b);
  }

  // ---- strings ----

  predicate Unescaped(c: char) {
    c >= ' ' && c != '"' && c != '\\'
  }

  predicate IsHex(c: char) {
    IsDigit(c) || 'a' <= c <= 'f' || 'A' <= c <= 'F'
  }

  predicate IsEscape(e: string) {
    (|e| == 2 && e[0] == '\\' && e[1] in "\"\\/bfnrt")
    || (|e| == 6 && e[0] == '\\' && e[1] == 'u' && forall k :: 2 <= k < 6 ==> IsHex(e[k]))
  }

  /** Characters and escapes between the quotes. */
  predicate IsChars(t: string) {
    t == ""
    || (Unescaped(t[0]) && IsChars(t[1..]))
    || (|t| >= 2 && IsEscape(t[..2]) && IsChars(t[2..]))
    || (|t| >= 6 && IsEscape(t[..6]) && IsChars(t[6..]))
  }

  predicate IsString(t: string) {
    |t| >= 2 && t[0] == '"' && t[|t| - 1] == '"' && IsChars(t[1..|t| - 1])
  }

  /** The length of an escape at the beginning, zero if it is malformed. */
  function EscapeLength(s: string): (n: nat)
    ensures n <= |s|
  {
    if |s| >= 2 && s[0] == '\\' && s[1] in "\"\\/bfnrt" then 2
    else if |s| >= 6 && s[0] == '\\' && s[1] == 'u' && IsHex(s[2]) && IsHex(s[3]) && IsHex(s[4]) && IsHex(s[5]) then 6
    else 0
  }

  /** The length of what stands up to the closing quote, zero if there is none. */
  function BodyLength(s: string): (n: nat)
    ensures n <= |s|
  {
    if s == [] then 0
    else if s[0] == '"' then 1
    else
      var u := if Unescaped(s[0]) then 1 else EscapeLength(s);
      if u == 0 || BodyLength(s[u..]) == 0 then 0 else u + BodyLength(s[u..])
  }

  function StringLength(s: string): (n: nat)
    ensures n <= |s|
  {
    if s != [] && s[0] == '"' && BodyLength(s[1..]) > 0 then 1 + BodyLength(s[1..]) else 0
  }

  lemma EscapeExact(e: string, x: string)
    requires IsEscape(e)
    ensures EscapeLength(e + x) == |e| && !Unescaped((e + x)[0]) && (e + x)[0] != '"'
  {
    assert forall k :: 0 <= k < |e| ==> (e + x)[k] == e[k];
  }

  lemma {:induction false} BodyExact(t: string, x: string)
    requires IsChars(t)
    ensures BodyLength(t + ("\"" + x)) == |t| + 1
    decreases |t|
  {
    var s := t + ("\"" + x);
    if t == "" {
      assert s == "\"" + x;
    } else {
      var u := if Unescaped(t[0]) then 1 else if |t| >= 2 && IsEscape(t[..2]) && IsChars(t[2..]) then 2 else 6;
      assert t == t[..u] + t[u..];
      assert s == t[..u] + (t[u..] + ("\"" + x));
      Drop(t[..u], t[u..] + ("\"" + x));
      if u > 1 {
        EscapeExact(t[..u], t[u..] + ("\"" + x));
      } else {
        assert s[0] == t[0];
      }
      BodyExact(t[u..], x);
    }
  }

  lemma StringExact(t: string, x: string)
    requires IsString(t)
    ensures StringLength(t + x) == |t| > 0
  {
    var body := t[1..|t| - 1];
    assert t + x == "\"" + (body + ("\"" + x));
    Drop("\"", body + ("\"" + x));
    BodyExact(body, x);
  }

  lemma {:induction false} BodyRead(s: string)
    requires BodyLength(s) > 0
    ensures var n := BodyLength(s);
            s[n - 1] == '"' && IsChars(s[..n - 1])
    decreases |s|
  {
    if s[0] != '"' {
      var u := if Unescaped(s[0]) then 1 else EscapeLength(s);
      var n := BodyLength(s);
      BodyRead(s[u..]);
      var t := s[..n - 1];
      assert t[u..] == s[u..][..n - 1 - u];
      assert u > 1 ==> IsEscape(t[..u]);
    }
  }

  lemma StringRead(s: string)
    requires StringLength(s) > 0
    ensures IsString(s[..StringLength(s)])
  {
    BodyRead(s[1..]);
    var t := s[..StringLength(s)];
    assert t[1..|t| - 1] == s[1..][..BodyLength(s[1..]) - 1];
  }

  lemma {:induction false} BodyCut(s: string, k: nat)
    requires 0 < BodyLength(s) <= k <= |s|
    ensures BodyLength(s[..k]) == BodyLength(s)
    decreases |s|
  {
    if s[0] != '"' {
      var u := if Unescaped(s[0]) then 1 else EscapeLength(s);
      assert EscapeLength(s[..k]) == EscapeLength(s);
      assert s[..k][u..] == s[u..][..k - u];
      BodyCut(s[u..], k - u);
    }
  }

  lemma StringCut(s: string, k: nat)
    requires 0 < StringLength(s) <= k <= |s|
    ensures StringLength(s[..k]) == StringLength(s)
  {
    assert s[..k][1..] == s[1..][..k - 1];
    BodyCut(s[1..], k - 1);
  }
}
