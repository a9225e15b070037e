/** `parseInt(string, 10)` as section 19.2.5 of ECMA-262 defines it: skip leading
    white space and line terminators, read an optional sign, then the longest run
    of decimal digits; no digits gives NaN, here `None`. */
module EcmaParseInt {
  import opened Wrappers

  /** StrWhiteSpaceChar: the WhiteSpace and LineTerminator code points of ECMA-262
      sections 12.2 and 12.3 (TAB, VT, FF, ZWNBSP, every Zs space, LF, CR, LS, PS). */
  predicate IsWhiteSpace(c: char)
  {
    c == '\t' || c == '\U{000B}' || c == '\U{000C}' || c == '\U{FEFF}' ||
    c == ' ' || c == '\U{00A0}' || c == '\U{1680}' || ('\U{2000}' <= c <= '\U{200A}') ||
    c == '\U{202F}' || c == '\U{205F}' || c == '\U{3000}' ||
    c == '\n' || c == '\r' || c == '\U{2028}' || c == '\U{2029}'
  }

  predicate IsDigit(c: char)
  {
    '0' <= c <= '9'
  }

  predicate AllDigits(s: string)
  {
    forall i :: 0 <= i < |s| ==> IsDigit(s[i])
  }

  function DigitValue(c: char): (d: nat)
    requires IsDigit(c)
    ensures d < 10
  {
    (c as int) - ('0' as int)
  }

  function DigitChar(d: nat): (c: char)
    requires d < 10
    ensures IsDigit(c) && DigitValue(c) == d
  {
    (('0' as int) + d) as char
  }

  /** How many white space characters `s` starts with; TrimString(S, start) drops them. */
  function LeadingWhiteSpace(s: string): (n: nat)
    ensures n <= |s|
    ensures forall i :: 0 <= i < n ==> IsWhiteSpace(s[i])
    ensures n < |s| ==> !IsWhiteSpace(s[n])
  {
    if s != [] && IsWhiteSpace(s[0]) then 1 + LeadingWhiteSpace(s[1..]) else 0
  }

  /** How many decimal digits `s` starts with. */
  function LeadingDigits(s: string): (n: nat)
    ensures n <= |s|
    ensures forall i :: 0 <= i < n ==> IsDigit(s[i])
    ensures n < |s| ==> !IsDigit(s[n])
  {
    if s != [] && IsDigit(s[0]) then 1 + LeadingDigits(s[1..]) else 0
  }

  /** The mathematical value of a string of decimal digits, most significant first. */
  function DecimalValue(s: string): nat
    requires AllDigits(s)
  {
    if s == [] then 0 else DecimalValue(s[..|s| - 1]) * 10 + DigitValue(s[|s| - 1])
  }

  /** The sign read after the white space is negative: the text starts with '-'. */
  predicate Negative(t: string)
  {
    t != [] && t[0] == '-'
  }

  /** What follows the optional sign. */
  function Unsigned(t: string): (u: string)
    ensures t != [] && (t[0] == '-' || t[0] == '+') ==> u == t[1..]
    ensures t == [] || (t[0] != '-' && t[0] != '+') ==> u == t
  {
    if t != [] && (t[0] == '-' || t[0] == '+') then t[1..] else t
  }

  /** `parseInt(s, 10)`; `None` stands for NaN. */
  function ParseInt(s: string): Option<int>
  {
    ParseTrimmed(s[LeadingWhiteSpace(s)..])
  }

  /** The steps of `parseInt` after the white space: the sign, then the digits. */
  function ParseTrimmed(t: string): Option<int>
  {
    var u := Unsigned(t);
    var n := LeadingDigits(u);
    var value: int := DecimalValue(u[..n]);
    if n == 0 then None
    else if Negative(t) then Some(-value)
    else Some(value)
  }

  /** The result is NaN exactly when no digit follows the white space and the sign. */
  lemma ParseIntNaN(s: string)
    ensures ParseInt(s).None? <==>
      var u := Unsigned(s[LeadingWhiteSpace(s)..]); u == [] || !IsDigit(u[0])
  {
  }

  // ---------------------------------------------------------------------------
  // The decimal numeral of a natural number, the partner of `ParseInt`.

  /** The shortest decimal numeral of `n`. */
  function Decimal(n: nat): (r: string)
    ensures r != [] && AllDigits(r)
    ensures r[0] != '0' || n == 0
  {
    if n < 10 then [DigitChar(n)] else Decimal(n / 10) + [DigitChar(n % 10)]
  }

  lemma {:induction false} DecimalValueOfDecimal(n: nat)
    ensures DecimalValue(Decimal(n)) == n
  {
    if n >= 10 {
      DecimalValueOfDecimal(n / 10);
      var d := Decimal(n);
      assert d[..|d| - 1] == Decimal(n / 10);
    }
  }

  /** A digit string followed by a non-digit starts with exactly its own digits. */
  lemma {:induction false} LeadingDigitsOf(d: string, rest: string)
    requires AllDigits(d)
    requires rest == [] || !IsDigit(rest[0])
    ensures LeadingDigits(d + rest) == |d|
  {
    if d != [] {
      assert (d + rest)[1..] == d[1..] + rest;
      LeadingDigitsOf(d[1..], rest);
    } else {
      assert d + rest == rest;
    }
  }

  /** Reading back a decimal numeral gives the number. */
  lemma ParseIntDecimal(n: nat)
    ensures ParseInt(Decimal(n)) == Some(n)
  {
    ParseIntPrefix(n, []);
    assert Decimal(n) + [] == Decimal(n);
  }

  /** What `ParseInt` reads from a text that starts with neither white space nor a sign. */
  lemma ParseIntUnsigned(u: string)
    requires u != [] && !IsWhiteSpace(u[0]) && u[0] != '-' && u[0] != '+'
    ensures ParseInt(u) == var n := LeadingDigits(u); if n == 0 then None else Some(DecimalValue(u[..n]))
  {
    assert LeadingWhiteSpace(u) == 0;
  }

  /** What `ParseInt` reads from a text that starts with a sign. */
  lemma ParseIntAfterSign(sign: char, u: string)
    requires sign == '-' || sign == '+'
    ensures var n := LeadingDigits(u);
      ParseInt([sign] + u) ==
        if n == 0 then None
        else if sign == '-' then Some(-(DecimalValue(u[..n]) as int))
        else Some(DecimalValue(u[..n]))
  {
    var t := [sign] + u;
    assert !IsWhiteSpace(t[0]);
    assert LeadingWhiteSpace(t) == 0;
    assert t[0..] == t && t[1..] == u;
    assert Unsigned(t) == u;
    assert Negative(t) == (sign == '-');
    assert ParseInt(t) == ParseTrimmed(t);
  }

  /** Reading stops at the first non-digit: "12abc" reads as 12. */
  lemma ParseIntPrefix(n: nat, rest: string)
    requires rest == [] || !IsDigit(rest[0])
    ensures ParseInt(Decimal(n) + rest) == Some(n)
  {
    var d := Decimal(n);
    var s := d + rest;
    assert s[0] == d[0];
    ParseIntUnsigned(s);
    LeadingDigitsOf(d, rest);
    assert s[..|d|] == d;
    DecimalValueOfDecimal(n);
  }

  /** A leading '-' negates, a leading '+' does not. */
  lemma ParseIntSigned(sign: char, n: nat, rest: string)
    requires sign == '-' || sign == '+'
    requires rest == [] || !IsDigit(rest[0])
    ensures ParseInt([sign] + (Decimal(n) + rest)) == Some(if sign == '-' then -(n as int) else n)
  {
    var d := Decimal(n);
    ParseIntAfterSign(sign, d + rest);
    LeadingDigitsOf(d, rest);
    assert (d + rest)[..|d|] == d;
    DecimalValueOfDecimal(n);
  }

  /** Leading white space is skipped. */
  lemma ParseIntSkipsWhiteSpace(ws: string, s: string)
    requires forall i :: 0 <= i < |ws| ==> IsWhiteSpace(ws[i])
    ensures ParseInt(ws + s) == ParseInt(s)
  {
    TrimmedAfterWhiteSpace(ws, s);
  }

  /** Trimming `ws + s` leaves what trimming `s` leaves. */
  lemma TrimmedAfterWhiteSpace(ws: string, s: string)
    requires forall i :: 0 <= i < |ws| ==> IsWhiteSpace(ws[i])
    ensures (ws + s)[LeadingWhiteSpace(ws + s)..] == s[LeadingWhiteSpace(s)..]
  {
    LeadingWhiteSpaceSkips(ws, s);
    var k := LeadingWhiteSpace(s);
    var w := ws + s;
    assert w[|ws|..] == s;
    assert w[|ws| + k..] == w[|ws|..][k..];
  }

  lemma {:induction false} LeadingWhiteSpaceSkips(ws: string, s: string)
    requires forall i :: 0 <= i < |ws| ==> IsWhiteSpace(ws[i])
    ensures LeadingWhiteSpace(ws + s) == |ws| + LeadingWhiteSpace(s)
  {
    if ws != [] {
      assert (ws + s)[1..] == ws[1..] + s;
      LeadingWhiteSpaceSkips(ws[1..], s);
    } else {
      assert ws + s == s;
    }
  }

  /** Without a digit after the white space and sign the result is NaN: "abc" reads as NaN. */
  lemma ParseIntNoDigits(s: string)
    requires s != [] && !IsWhiteSpace(s[0]) && !IsDigit(s[0]) && s[0] != '-' && s[0] != '+'
    ensures ParseInt(s).None?
  {
    ParseIntUnsigned(s);
  }

  /** "42" reads as 42 and "12abc" as 12. */
  lemma ParseIntDigitExamples()
    ensures ParseInt("42") == Some(42)
    ensures ParseInt("12abc") == Some(12)
  {
    assert Decimal(42) == "42";
    ParseIntDecimal(42);
    assert Decimal(12) + "abc" == "12abc";
    ParseIntPrefix(12, "abc");
  }

  /** "abc", "" and " -" read as NaN; " -7" reads as -7. */
  lemma ParseIntOtherExamples()
    ensures ParseInt("abc") == None
    ensures ParseInt("") == None
    ensures ParseInt(" -") == None
    ensures ParseInt(" -7") == Some(-7)
  {
    ParseIntNoDigits("abc");
    assert Decimal(7) == "7";
    ParseIntSigned('-', 7, []);
    assert " -7" == " " + (['-'] + (Decimal(7) + []));
    ParseIntSkipsWhiteSpace(" ", ['-'] + (Decimal(7) + []));
    assert " -" == " " + (['-'] + []);
    ParseIntSkipsWhiteSpace(" ", ['-'] + []);
    ParseIntAfterSign('-', []);
    assert LeadingWhiteSpace("") == 0;
  }
}
