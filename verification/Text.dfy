// The parts of JavaScript's string handling that the services rely on: `trim`, `toLowerCase` on
// ASCII letters, `String(n)` for a natural number, and `Number(text)`.
module Text {
  import opened Wrappers

  /** Largest magnitude, exclusive, that `Number` turns into a finite double: 2^1024 - 2^970. */
  const OVERFLOW: real := 179769313486231580793728971405303415079934132710037826936173778980444968292764750946649017977587207096330286416692887910946555547851940402630657488671505820681908902000708383676273854845817711531764475730270069855571366959622842914819860834936475292719074168444365510704342711559699508093042880177904174497792.0

  /** The result of `Number(text)`; NaN and the infinities are not told apart. */
  datatype Number = Finite(value: real) | NonFinite

  predicate IsSpace(c: char) {
    var n := c as int;
    9 <= n <= 13 || n == 0x20 || n == 0xa0 || n == 0x1680 || 0x2000 <= n <= 0x200a
    || n == 0x2028 || n == 0x2029 || n == 0x202f || n == 0x205f || n == 0x3000 || n == 0xfeff
  }

  predicate IsDigit(c: char) {
    '0' <= c <= '9'
  }

  function TrimStart(s: string): string {
    if s != "" && IsSpace(s[0]) then TrimStart(s[1..]) else s
  }

  function TrimEnd(s: string): string {
    if s != "" && IsSpace(s[|s| - 1]) then TrimEnd(s[..|s| - 1]) else s
  }

  function Trim(s: string): string {
    TrimEnd(TrimStart(s))
  }

  function Lower(s: string): string {
    seq(|s|, i requires 0 <= i < |s| => if 'A' <= s[i] <= 'Z' then s[i] - 'A' + 'a' else s[i])
  }

  /** `email.trim().toLowerCase()`, for addresses whose letters are ASCII. */
  function NormalizeEmail(email: string): string {
    Lower(Trim(email))
  }

  /** The decimal digits of a natural number; below 10^21 this is `String(n)`. */
  function Decimal(n: nat): string {
    if n < 10 then [DigitChar(n)] else Decimal(n / 10) + [DigitChar(n % 10)]
  }

  function DigitChar(d: nat): char
    requires d < 10
  {
    '0' + d as char
  }

  /** Value of one digit in bases up to 16, if the character is one. */
  function DigitValue(c: char): Option<nat> {
    if IsDigit(c) then Some((c - '0') as nat)
    else if 'a' <= c <= 'f' then Some((c - 'a') as nat + 10)
    else if 'A' <= c <= 'F' then Some((c - 'A') as nat + 10)
    else None
  }

  /** The value of a number after one more digit. */
  function Shifted(value: nat, base: nat, digit: nat): nat {
    value * base + digit
  }

  /** Value of a digit string, most significant digit first; None if some character is not a digit. */
  function DigitsValue(s: string, base: nat): Option<nat> {
    if s == "" then Some(0)
    else
      var front := DigitsValue(s[..|s| - 1], base);
      var last := DigitValue(s[|s| - 1]);
      if front.Some? && last.Some? && last.value < base then Some(Shifted(front.value, base, last.value)) else None
  }

  /** Length of the longest prefix made of decimal digits. */
  function LeadingDigits(s: string): (k: nat)
    ensures k <= |s|
  {
    if s != "" && IsDigit(s[0]) then 1 + LeadingDigits(s[1..]) else 0
  }

  function PowerOfTen(n: nat): (r: real)
    ensures r >= 1.0
  {
    if n == 0 then 1.0 else 10.0 * PowerOfTen(n - 1)
  }

  /** digits * 10^exponent */
  function Scale(digits: nat, exponent: int): real {
    if exponent >= 0 then digits as real * PowerOfTen(exponent) else digits as real / PowerOfTen(-exponent)
  }

  /** The optional exponent part of a decimal literal; it must use up the whole text. */
  function ParseExponent(s: string): Option<int> {
    if s == "" then Some(0)
    else if s[0] != 'e' && s[0] != 'E' then None
    else
      var negative := |s| > 1 && s[1] == '-';
      var digits := if |s| > 1 && (s[1] == '-' || s[1] == '+') then s[2..] else s[1..];
      if digits == "" || LeadingDigits(digits) != |digits| then None
      else match DigitsValue(digits, 10)
        case None => None
        case Some(n) => Some(if negative then -(n as int) else n as int)
  }

  /** An unsigned decimal literal such as `12`, `.5`, `3.` or `1.5e-3`. */
  function ParseUnsigned(s: string): Option<real> {
    var k := LeadingDigits(s);
    var afterInt := s[k..];
    var dotted := afterInt != "" && afterInt[0] == '.';
    var fractional := if dotted then afterInt[1..] else "";
    var m := LeadingDigits(fractional);
    if k + m == 0 then None
    else
      var mantissa := DigitsValue(s[..k] + fractional[..m], 10);
      var exponent := ParseExponent(if dotted then fractional[m..] else afterInt);
      if mantissa.Some? && exponent.Some? then Some(Scale(mantissa.value, exponent.value - m)) else None
  }

  function IfFinite(value: real): Number {
    if -OVERFLOW < value < OVERFLOW then Finite(value) else NonFinite
  }

  function ParsePrefixed(digits: string, base: nat): Number {
    match DigitsValue(digits, base)
    case Some(n) => if digits != "" then IfFinite(n as real) else NonFinite
    case None => NonFinite
  }

  /** `Number(text)` on exact values: blank text is 0, anything that is no numeric literal is NaN. */
  function ToNumber(text: string): Number {
    var t := Trim(text);
    if t == "" then Finite(0.0)
    else if |t| > 1 && t[0] == '0' && t[1] in "xX" then ParsePrefixed(t[2..], 16)
    else if |t| > 1 && t[0] == '0' && t[1] in "oO" then ParsePrefixed(t[2..], 8)
    else if |t| > 1 && t[0] == '0' && t[1] in "bB" then ParsePrefixed(t[2..], 2)
    else
      var magnitude := ParseUnsigned(if t[0] in "+-" then t[1..] else t);
      if magnitude.None? then NonFinite
      else IfFinite(if t[0] == '-' then -magnitude.value else magnitude.value)
  }

  ghost predicate AllDigits(s: string) {
    forall i | 0 <= i < |s| :: IsDigit(s[i])
  }

  lemma {:induction false} DecimalIsDigits(n: nat)
    ensures Decimal(n) != "" && AllDigits(Decimal(n))
    ensures DigitsValue(Decimal(n), 10) == Some(n)
  {
    if n < 10 {
      assert Decimal(n)[..0] == "";
    } else {
      DecimalIsDigits(n / 10);
      assert Decimal(n)[..|Decimal(n)| - 1] == Decimal(n / 10);
    }
  }

  lemma {:induction false} LeadingDigitsOfDigits(s: string)
    requires AllDigits(s)
    ensures LeadingDigits(s) == |s|
  {
    if s != "" {
      assert AllDigits(s[1..]);
      LeadingDigitsOfDigits(s[1..]);
    }
  }

  lemma ParseUnsignedDigits(s: string, n: nat)
    requires s != "" && AllDigits(s) && DigitsValue(s, 10) == Some(n)
    ensures ParseUnsigned(s) == Some(n as real)
  {
    LeadingDigitsOfDigits(s);
    assert s[|s|..] == "";
    assert s[..|s|] + ""[..LeadingDigits("")] == s;
    assert Scale(n, 0) == n as real;
  }

  lemma TrimOfDigits(s: string)
    requires s != "" && AllDigits(s)
    ensures Trim(s) == s
  {
    assert IsDigit(s[0]) && IsDigit(s[|s| - 1]);
  }

  lemma BelowOverflow(x: real)
    requires 0.0 <= x < OVERFLOW
    ensures IfFinite(x) == Finite(x)
  {
  }

  /** Printing a natural number and parsing the text gives the number back. */
  lemma PrintParse(n: nat)
    requires n as real < OVERFLOW
    ensures ToNumber(Decimal(n)) == Finite(n as real)
  {
    hide Decimal, Trim, ParseUnsigned, IfFinite, DigitsValue;
    var s := Decimal(n);
    DecimalIsDigits(n);
    TrimOfDigits(s);
    BelowOverflow(n as real);
    ParseUnsignedDigits(s, n);
    assert IsDigit(s[0]) && (|s| > 1 ==> IsDigit(s[1]));
  }

  // ----- what trimming and normalising are for -----

  predicate AllSpaces(s: string) {
    forall i | 0 <= i < |s| :: IsSpace(s[i])
  }

  lemma {:induction false} TrimStartDrops(pre: string, s: string)
    requires AllSpaces(pre)
    ensures TrimStart(pre + s) == TrimStart(s)
    decreases |pre|
  {
    if pre == "" {
      assert pre + s == s;
    } else {
      assert (pre + s)[0] == pre[0] && (pre + s)[1..] == pre[1..] + s;
      TrimStartDrops(pre[1..], s);
    }
  }

  lemma {:induction false} TrimEndDrops(s: string, post: string)
    requires AllSpaces(post)
    ensures TrimEnd(s + post) == TrimEnd(s)
    decreases |post|
  {
    if post == "" {
      assert s + post == s;
    } else {
      var t := s + post;
      assert t[|t| - 1] == post[|post| - 1] && t[..|t| - 1] == s + post[..|post| - 1];
      TrimEndDrops(s, post[..|post| - 1]);
    }
  }

  /** Text without white space at either end. */
  predicate Tight(s: string) {
    s == "" || (!IsSpace(s[0]) && !IsSpace(s[|s| - 1]))
  }

  lemma {:induction false} TrimOfTight(s: string)
    requires Tight(s)
    ensures Trim(s) == s
  {
  }

  /** Trimming removes all white space around a text and nothing inside it. */
  lemma TrimRemovesMargins(pre: string, s: string, post: string)
    requires AllSpaces(pre) && AllSpaces(post) && Tight(s)
    ensures Trim(pre + s + post) == s
  {
    if s == "" {
      TrimStartDrops(pre + post, "");
      assert pre + s + post == pre + post + "";
    } else {
      assert pre + s + post == pre + (s + post);
      TrimStartDrops(pre, s + post);
      assert (s + post)[0] == s[0];
      TrimEndDrops(s, post);
    }
  }

  lemma {:induction false} TrimStartBlank(s: string)
    ensures AllSpaces(s) <==> TrimStart(s) == ""
  {
    if s != "" && IsSpace(s[0]) {
      TrimStartBlank(s[1..]);
      assert AllSpaces(s) <==> AllSpaces(s[1..]) by {
        assert forall i | 0 <= i < |s[1..]| :: s[1..][i] == s[i + 1];
        assert forall i | 1 <= i < |s| :: s[i] == s[1..][i - 1];
      }
    }
  }

  lemma {:induction false} TrimEndOfNonBlank(s: string)
    requires s != "" && !IsSpace(s[0])
    ensures TrimEnd(s) != ""
  {
    if IsSpace(s[|s| - 1]) {
      TrimEndOfNonBlank(s[..|s| - 1]);
    }
  }

  lemma {:induction false} TrimStartTight(s: string)
    ensures TrimStart(s) != "" ==> !IsSpace(TrimStart(s)[0])
  {
    if s != "" && IsSpace(s[0]) {
      TrimStartTight(s[1..]);
    }
  }

  /** A text trims to nothing exactly if it is all white space. */
  lemma BlankTrimsToNothing(s: string)
    ensures Trim(s) == "" <==> forall i | 0 <= i < |s| :: IsSpace(s[i])
  {
    TrimStartBlank(s);
    if TrimStart(s) != "" {
      TrimStartTight(s);
      TrimEndOfNonBlank(TrimStart(s));
    }
  }

  predicate SameLetter(a: char, b: char) {
    a == b || ('A' <= a <= 'Z' && b == a - 'A' + 'a') || ('A' <= b <= 'Z' && a == b - 'A' + 'a')
  }

  /** Addresses that differ in the case of ASCII letters and in margins only are one address. */
  lemma SameAddress(pre: string, a: string, post: string, b: string)
    requires AllSpaces(pre) && AllSpaces(post) && Tight(a) && Tight(b)
    requires |a| == |b| && forall i | 0 <= i < |a| :: SameLetter(a[i], b[i])
    ensures NormalizeEmail(pre + a + post) == NormalizeEmail(b)
  {
    TrimRemovesMargins(pre, a, post);
    TrimOfTight(b);
  }

  /** And no others: equal normal forms mean the same letters. */
  lemma OtherAddress(a: string, b: string)
    requires Tight(a) && Tight(b) && NormalizeEmail(a) == NormalizeEmail(b)
    ensures |a| == |b| && forall i | 0 <= i < |a| :: SameLetter(a[i], b[i])
  {
    TrimOfTight(a);
    TrimOfTight(b);
    forall i | 0 <= i < |a|
      ensures |a| == |b| && SameLetter(a[i], b[i])
    {
      assert Lower(a)[i] == Lower(b)[i];
    }
    assert |Lower(a)| == |Lower(b)|;
  }

  // ----- other numbers -----

  /** White space around a text does not change the number it is. */
  lemma NumberIgnoresMargins(pre: string, s: string, post: string)
    requires AllSpaces(pre) && AllSpaces(post) && Tight(s)
    ensures ToNumber(pre + s + post) == ToNumber(s)
  {
    hide Trim, ParseUnsigned, ParsePrefixed, IfFinite;
    TrimRemovesMargins(pre, s, post);
    TrimOfTight(s);
  }

  /** A sign is read as one. */
  lemma SignedParse(n: nat)
    requires n as real < OVERFLOW
    ensures ToNumber("-" + Decimal(n)) == Finite(-(n as real)) && ToNumber("+" + Decimal(n)) == Finite(n as real)
  {
    hide Decimal, Trim, ParseUnsigned, DigitsValue;
    var s := Decimal(n);
    DecimalIsDigits(n);
    ParseUnsignedDigits(s, n);
    TrimOfTight("-" + s) by { assert IsDigit(s[|s| - 1]); }
    TrimOfTight("+" + s) by { assert IsDigit(s[|s| - 1]); }
    assert ("-" + s)[1..] == s && ("+" + s)[1..] == s;
  }

  lemma {:induction false} LeadingDigitsStop(s: string, rest: string)
    requires AllDigits(s) && (rest == "" || !IsDigit(rest[0]))
    ensures LeadingDigits(s + rest) == |s|
  {
    if s == "" {
      assert s + rest == rest;
    } else {
      assert AllDigits(s[1..]) && (s + rest)[0] == s[0] && (s + rest)[1..] == s[1..] + rest;
      LeadingDigitsStop(s[1..], rest);
    }
  }

  lemma ScaleDown(n: nat, k: int)
    requires k >= 0
    ensures Scale(n, -k) * PowerOfTen(k) == n as real
  {
    if k > 0 {
      assert Scale(n, -k) == n as real / PowerOfTen(k);
    }
  }

  lemma FractionIsScaled(s: string, f: string, n: nat)
    requires s != "" && AllDigits(s) && AllDigits(f) && DigitsValue(s + f, 10) == Some(n)
    ensures ParseUnsigned(s + "." + f) == Some(Scale(n, -|f|))
  {
    LeadingDigitsStop(s, "." + f);
    LeadingDigitsOfDigits(f);
    var t := s + "." + f;
    assert t == s + ("." + f);
    assert t[|s|..] == "." + f && ("." + f)[1..] == f && t[..|s|] == s && f[..|f|] == f && f[|f|..] == "";
  }

  /** Digits on both sides of a point are the digits of a decimal fraction. */
  lemma FractionParse(s: string, f: string, n: nat)
    requires s != "" && AllDigits(s) && AllDigits(f) && DigitsValue(s + f, 10) == Some(n)
    ensures ParseUnsigned(s + "." + f).Some?
    ensures ParseUnsigned(s + "." + f).value * PowerOfTen(|f|) == n as real
  {
    hide ParseUnsigned, DigitsValue, PowerOfTen, Scale;
    FractionIsScaled(s, f, n);
    ScaleDown(n, |f|);
  }
}
