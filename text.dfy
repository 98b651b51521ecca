/**
  The few Python string and sequence built-ins the client relies on:
  `str.isdigit`, `str.strip`, the `in` substring test, slicing `s[:n]`, and
  `float(...)` on a decimal string.
 */
module Text {

  import opened Wire

  predicate IsDigit(c: char) {
    '0' <= c <= '9'
  }

  /** `s.isdigit()` for ASCII digits: true exactly for a non-empty string of digits. */
  predicate IsDigits(s: string) {
    s != [] && forall i :: 0 <= i < |s| ==> IsDigit(s[i])
  }

  /** The characters for which Python's `str.isspace()` holds. */
  predicate IsSpace(c: char) {
    || c == ' '
    || ('\t' <= c <= '\r')
    || ('\U{1c}' <= c <= '\U{1f}')
    || c == '\U{85}' || c == '\U{a0}' || c == '\U{1680}'
    || ('\U{2000}' <= c <= '\U{200a}')
    || c == '\U{2028}' || c == '\U{2029}' || c == '\U{202f}' || c == '\U{205f}' || c == '\U{3000}'
  }

  /** Every character is whitespace; the empty string is blank too. */
  predicate IsBlank(s: string) {
    forall i :: 0 <= i < |s| ==> IsSpace(s[i])
  }

  function TrimStart(s: string): (r: string)
    ensures |r| <= |s| && r == s[|s| - |r|..]
    ensures r != [] ==> !IsSpace(r[0])
  {
    if s != [] && IsSpace(s[0]) then TrimStart(s[1..]) else s
  }

  function TrimEnd(s: string): (r: string)
    ensures |r| <= |s| && r == s[..|r|]
    ensures r != [] ==> !IsSpace(r[|r| - 1])
  {
    if s != [] && IsSpace(s[|s| - 1]) then TrimEnd(s[..|s| - 1]) else s
  }

  /** `s.strip()`: drops leading and trailing whitespace. */
  function Strip(s: string): (r: string)
    ensures r != [] ==> !IsSpace(r[0]) && !IsSpace(r[|r| - 1])
  {
    TrimEnd(TrimStart(s))
  }

  lemma BlankCons(s: string)
    requires s != []
    ensures IsBlank(s) <==> IsSpace(s[0]) && IsBlank(s[1..])
  {
    assert forall i :: 0 <= i < |s[1..]| ==> s[1..][i] == s[i + 1];
  }

  lemma {:induction false} TrimStartEmptyIffBlank(s: string)
    ensures TrimStart(s) == [] <==> IsBlank(s)
  {
    if s != [] {
      BlankCons(s);
      if IsSpace(s[0]) {
        TrimStartEmptyIffBlank(s[1..]);
      }
    }
  }

  lemma TrimEndKeepsFirst(s: string)
    requires s != [] && !IsSpace(s[0])
    ensures TrimEnd(s) != []
  {
  }

  /** `s.strip() == ""` holds exactly for empty and whitespace-only strings. */
  lemma StripEmptyIffBlank(s: string)
    ensures Strip(s) == [] <==> IsBlank(s)
  {
    TrimStartEmptyIffBlank(s);
    var t := TrimStart(s);
    if t != [] {
      TrimEndKeepsFirst(t);
    }
  }

  /** Python's `needle in hay` on strings: `needle` occurs in `hay` as a contiguous block. */
  predicate Contains(hay: string, needle: string)
    decreases |hay|
  {
    needle <= hay || (hay != [] && Contains(hay[1..], needle))
  }

  /** Python's slice `s[:n]`, including the negative `n` that drops elements from the end. */
  function Prefix<T>(s: seq<T>, n: int): (r: seq<T>)
    ensures r <= s
    ensures n >= 0 ==> |r| == if n < |s| then n else |s|
    ensures n < 0 ==> |r| == if |s| + n > 0 then |s| + n else 0
  {
    if n >= |s| then s
    else if n >= 0 then s[..n]
    else if |s| + n > 0 then s[..|s| + n]
    else []
  }

  /** `a` is an order-preserving subsequence of `b`. */
  predicate IsSubsequence<T(==)>(a: seq<T>, b: seq<T>)
    decreases |b|
  {
    a == [] || (b != [] && ((a[0] == b[0] && IsSubsequence(a[1..], b[1..])) || IsSubsequence(a, b[1..])))
  }

  function DigitValue(c: char): nat
    requires IsDigit(c)
  {
    (c as int - '0' as int) as nat
  }

  /** The number written by a (possibly empty) string of decimal digits. */
  function Number(s: string): (n: nat)
    requires forall i :: 0 <= i < |s| ==> IsDigit(s[i])
  {
    if s == [] then 0 else Number(s[..|s| - 1]) * 10 + DigitValue(s[|s| - 1])
  }

  /** Appending a digit shifts the number one place and adds the digit. */
  lemma NumberSnoc(s: string, d: char)
    requires forall i :: 0 <= i < |s| ==> IsDigit(s[i])
    requires IsDigit(d)
    ensures Number(s + [d]) == Number(s) * 10 + DigitValue(d)
  {
    assert (s + [d])[..|s|] == s;
  }

  lemma NumberOf2(a: char, b: char)
    requires IsDigit(a) && IsDigit(b)
    ensures Number([a, b]) == DigitValue(a) * 10 + DigitValue(b)
  {
    NumberSnoc([], a);
    assert [] + [a] == [a];
    NumberSnoc([a], b);
    assert [a] + [b] == [a, b];
  }

  lemma NumberOf4(a: char, b: char, c: char, d: char)
    requires IsDigit(a) && IsDigit(b) && IsDigit(c) && IsDigit(d)
    ensures Number([a, b, c, d]) == DigitValue(a) * 1000 + DigitValue(b) * 100 + DigitValue(c) * 10 + DigitValue(d)
  {
    NumberOf2(a, b);
    NumberSnoc([a, b], c);
    assert [a, b] + [c] == [a, b, c];
    NumberSnoc([a, b, c], d);
    assert [a, b, c] + [d] == [a, b, c, d];
  }

  lemma NumberOf5(a: char, b: char, c: char, d: char, e: char)
    requires IsDigit(a) && IsDigit(b) && IsDigit(c) && IsDigit(d) && IsDigit(e)
    ensures Number([a, b, c, d, e]) == DigitValue(a) * 10000 + DigitValue(b) * 1000 + DigitValue(c) * 100 + DigitValue(d) * 10 + DigitValue(e)
  {
    NumberOf4(a, b, c, d);
    NumberSnoc([a, b, c, d], e);
    assert [a, b, c, d] + [e] == [a, b, c, d, e];
  }

  function Pow10(k: nat): (p: nat)
    ensures p >= 1
  {
    if k == 0 then 1 else 10 * Pow10(k - 1)
  }

  /** The length of the run of digits at the start of `s`. */
  function DigitRun(s: string): (k: nat)
    ensures k <= |s|
    ensures forall i :: 0 <= i < k ==> IsDigit(s[i])
    ensures k < |s| ==> !IsDigit(s[k])
  {
    if s != [] && IsDigit(s[0]) then 1 + DigitRun(s[1..]) else 0
  }

  /** The value of the decimal `whole.frac` whose fraction has `width` digits. */
  function Decimal(whole: nat, frac: nat, width: nat): (x: real)
    ensures x >= 0.0
  {
    whole as real + frac as real / Pow10(width) as real
  }

  /** An unsigned decimal `123`, `123.45`, `123.` or `.45`; a digit must appear somewhere. */
  function ParseUnsigned(t: string): (r: Option<real>)
    ensures r.Some? ==> r.value >= 0.0
  {
    var k := DigitRun(t);
    if k == |t| then
      if k == 0 then None else Some(Number(t) as real)
    else if t[k] == '.' && DigitRun(t[k + 1..]) == |t| - k - 1 && (k > 0 || k + 1 < |t|) then
      Some(Decimal(Number(t[..k]), Number(t[k + 1..]), |t| - k - 1))
    else
      None
  }

  /** A run of digits reaches as far as the digits go. */
  lemma {:induction false} DigitRunOf(a: string, rest: string)
    requires forall i :: 0 <= i < |a| ==> IsDigit(a[i])
    requires rest == [] || !IsDigit(rest[0])
    ensures DigitRun(a + rest) == |a|
  {
    if a != [] {
      assert (a + rest)[1..] == a[1..] + rest;
      DigitRunOf(a[1..], rest);
    } else {
      assert a + rest == rest;
    }
  }

  /** Digits alone parse to the number they write. */
  lemma ParseUnsignedDigits(t: string)
    requires IsDigits(t)
    ensures ParseUnsigned(t) == Some(Number(t) as real)
  {
    DigitRunOf(t, []);
    assert t + [] == t;
  }

  /** `a.b` parses to the whole part `a` plus the fraction `b` over a power of ten. */
  lemma ParseUnsignedDecimal(a: string, b: string)
    requires forall i :: 0 <= i < |a| ==> IsDigit(a[i])
    requires forall i :: 0 <= i < |b| ==> IsDigit(b[i])
    requires a != [] || b != []
    ensures ParseUnsigned(a + "." + b) == Some(Decimal(Number(a), Number(b), |b|))
  {
    var t := a + "." + b;
    var k := |a|;
    assert a + ("." + b) == t;
    DigitRunOf(a, "." + b);
    assert DigitRun(t) == k;
    assert t[k] == '.';
    assert t[..k] == a;
    assert t[k + 1..] == b;
    DigitRunOf(b, []);
    assert b + [] == b;
    assert DigitRun(t[k + 1..]) == |t| - k - 1;
    assert |t| - k - 1 == |b|;
    ParseUnsignedAt(t, k);
  }

  lemma ParseUnsignedAt(t: string, k: nat)
    requires DigitRun(t) == k < |t| && t[k] == '.' && DigitRun(t[k + 1..]) == |t| - k - 1 && (k > 0 || k + 1 < |t|)
    ensures ParseUnsigned(t) == Some(Decimal(Number(t[..k]), Number(t[k + 1..]), |t| - k - 1))
  {
  }

  /**
    `float(s)` for decimal text: surrounding whitespace is dropped and a sign
    may lead. Exponents, `_` separators, `inf` and `nan` are rejected.
   */
  function ParseFloat(s: string): (r: Option<real>)
    ensures r.Some? ==> Strip(s) != []
  {
    ParseSigned(Strip(s))
  }

  /** An optional sign, then an unsigned decimal. */
  function ParseSigned(t: string): Option<real> {
    if t != [] && (t[0] == '-' || t[0] == '+') then
      match ParseUnsigned(t[1..])
      case None => None
      case Some(x) => Some(if t[0] == '-' then -x else x)
    else
      ParseUnsigned(t)
  }

  /** Text without surrounding whitespace is its own `strip()`. */
  lemma StripUnspaced(t: string)
    requires t != [] ==> !IsSpace(t[0]) && !IsSpace(t[|t| - 1])
    ensures Strip(t) == t
  {
  }

  /** `float` ignores surrounding whitespace. */
  lemma ParseFloatStrips(s: string)
    ensures ParseFloat(s) == ParseFloat(Strip(s))
  {
    StripUnspaced(Strip(s));
  }

  /** Unsigned text behind the sign `sign` parses to `x`, negated for `-`. */
  lemma ParseFloatBehind(sign: char, t: string, x: real)
    requires sign == '+' || sign == '-'
    requires t != [] && (IsDigit(t[|t| - 1]) || t[|t| - 1] == '.')
    requires ParseUnsigned(t) == Some(x)
    ensures ParseFloat([sign] + t) == Some(if sign == '-' then -x else x)
  {
    var u := [sign] + t;
    assert u[0] == sign && u[|u| - 1] == t[|t| - 1] && u[1..] == t;
    StripUnspaced(u);
  }

  /** Unsigned text that starts and ends with a digit or a point parses the same bare or behind a sign. */
  lemma ParseFloatSigned(t: string, x: real)
    requires t != [] && (IsDigit(t[0]) || t[0] == '.') && (IsDigit(t[|t| - 1]) || t[|t| - 1] == '.')
    requires ParseUnsigned(t) == Some(x)
    ensures ParseFloat(t) == Some(x)
    ensures ParseFloat("+" + t) == Some(x)
    ensures ParseFloat("-" + t) == Some(-x)
  {
    StripUnspaced(t);
    assert ParseSigned(t) == Some(x);
    ParseFloatBehind('+', t, x);
    ParseFloatBehind('-', t, x);
  }

  /** Digits, with or without a sign, parse to the number `x` they write. */
  lemma ParseFloatDigits(t: string, x: real)
    requires IsDigits(t)
    requires x == Number(t) as real
    ensures ParseFloat(t) == Some(x)
    ensures ParseFloat("+" + t) == Some(x)
    ensures ParseFloat("-" + t) == Some(-x)
  {
    ParseUnsignedDigits(t);
    ParseFloatSigned(t, x);
  }

  /** Decimal text starts and ends with a digit or the point. */
  lemma DecimalEdges(a: string, b: string)
    requires forall i :: 0 <= i < |a| ==> IsDigit(a[i])
    requires forall i :: 0 <= i < |b| ==> IsDigit(b[i])
    ensures var t := a + "." + b;
      && (IsDigit(t[0]) || t[0] == '.') && (IsDigit(t[|t| - 1]) || t[|t| - 1] == '.')
  {
    var t := a + "." + b;
    if a != [] { assert t[0] == a[0]; } else { assert t[0] == '.'; }
    if b != [] { assert t[|t| - 1] == b[|b| - 1]; } else { assert t[|t| - 1] == '.'; }
  }

  /** Decimal text `a.b`, with or without a sign, parses to its value `x`. */
  lemma ParseFloatDecimal(a: string, b: string, x: real)
    requires forall i :: 0 <= i < |a| ==> IsDigit(a[i])
    requires forall i :: 0 <= i < |b| ==> IsDigit(b[i])
    requires a != [] || b != []
    requires x == Decimal(Number(a), Number(b), |b|)
    ensures var t := a + "." + b;
      && ParseFloat(t) == Some(x)
      && ParseFloat("+" + t) == Some(x)
      && ParseFloat("-" + t) == Some(-x)
  {
    ParseUnsignedDecimal(a, b);
    DecimalEdges(a, b);
    ParseFloatSigned(a + "." + b, x);
  }


}
