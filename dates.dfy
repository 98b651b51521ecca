/**
  Calendar dates as the portal client handles them: `datetime.strptime(s,
  "%Y-%m-%d")` on the caller's text, and `strftime("%d/%m/%Y")` to produce the
  day/month/year text the portal expects.
 */
module Dates {

  import opened Wire
  import opened Text

  datatype Date = Date(year: int, month: int, day: int)

  predicate LeapYear(y: int) {
    y % 4 == 0 && (y % 100 != 0 || y % 400 == 0)
  }

  function DaysInMonth(y: int, m: int): int {
    if m == 2 then (if LeapYear(y) then 29 else 28)
    else if m == 4 || m == 6 || m == 9 || m == 11 then 30
    else 31
  }

  /** A date `datetime` accepts: years 1 to 9999 and a day that exists in its month. */
  predicate ValidDate(d: Date) {
    1 <= d.year <= 9999 && 1 <= d.month <= 12 && 1 <= d.day <= DaysInMonth(d.year, d.month)
  }

  /** The position of the first `c` in `s`, or `|s|` when there is none. */
  function IndexOf(s: string, c: char): (k: nat)
    ensures k <= |s|
    ensures forall i :: 0 <= i < k ==> s[i] != c
    ensures k < |s| ==> s[k] == c
  {
    if s == [] then 0 else if s[0] == c then 0 else 1 + IndexOf(s[1..], c)
  }

  /** The text `strptime`'s `%m` accepts: `1` to `9`, `01` to `09`, `10` to `12`. */
  predicate MonthText(t: string) {
    || (|t| == 1 && '1' <= t[0] <= '9')
    || (|t| == 2 && t[0] == '0' && '1' <= t[1] <= '9')
    || (|t| == 2 && t[0] == '1' && '0' <= t[1] <= '2')
  }

  /** The text `strptime`'s `%d` accepts: `1` to `9`, `01` to `31`, or a space and one digit. */
  predicate DayText(t: string) {
    || (|t| == 1 && '1' <= t[0] <= '9')
    || (|t| == 2 && t[0] == '0' && '1' <= t[1] <= '9')
    || (|t| == 2 && '1' <= t[0] <= '2' && IsDigit(t[1]))
    || (|t| == 2 && t[0] == '3' && '0' <= t[1] <= '1')
    || (|t| == 2 && t[0] == ' ' && '1' <= t[1] <= '9')
  }

  function DayNumber(t: string): nat
    requires DayText(t)
  {
    if t[0] == ' ' then DigitValue(t[1]) else Number(t)
  }

  /**
    `datetime.strptime(s, "%Y-%m-%d")`: four digits, `-`, a month, `-`, a day,
    and nothing after; `None` where Python raises `ValueError`.
   */
  function ParseIsoDate(s: string): (r: Option<Date>)
    ensures r.Some? ==> ValidDate(r.value)
  {
    if |s| < 5 || !IsDigits(s[..4]) || s[4] != '-' then None
    else
      var rest := s[5..];
      var k := IndexOf(rest, '-');
      if k == |rest| || !MonthText(rest[..k]) || !DayText(rest[k + 1..]) then None
      else
        var d := Date(Number(s[..4]), Number(rest[..k]), DayNumber(rest[k + 1..]));
        if ValidDate(d) then Some(d) else None
  }

  function DigitChar(n: nat): (c: char)
    requires n < 10
    ensures IsDigit(c) && DigitValue(c) == n
  {
    ('0' as int + n) as char
  }

  lemma NumberOfTwo(t: string)
    requires |t| == 2 && IsDigit(t[0]) && IsDigit(t[1])
    ensures Number(t) == DigitValue(t[0]) * 10 + DigitValue(t[1])
  {
    assert t[..1][..0] == [];
    assert Number(t[..1]) == DigitValue(t[0]);
  }

  lemma NumberOfFour(t: string)
    requires |t| == 4 && forall i :: 0 <= i < 4 ==> IsDigit(t[i])
    ensures Number(t) == ((DigitValue(t[0]) * 10 + DigitValue(t[1])) * 10 + DigitValue(t[2])) * 10 + DigitValue(t[3])
  {
    var u := t[..3];
    assert u[..2] == t[..2];
    NumberOfTwo(t[..2]);
    assert Number(u) == Number(t[..2]) * 10 + DigitValue(t[2]);
  }

  /** A number below 100 as two digits, zero padded. */
  function Pad2(n: nat): (t: string)
    requires n < 100
    ensures |t| == 2 && IsDigit(t[0]) && IsDigit(t[1]) && Number(t) == n
  {
    var t := [DigitChar(n / 10), DigitChar(n % 10)];
    NumberOfTwo(t);
    t
  }

  /** A number below 10000 as four digits, zero padded. */
  function Pad4(n: nat): (t: string)
    requires n < 10000
    ensures |t| == 4 && forall i :: 0 <= i < 4 ==> IsDigit(t[i])
    ensures Number(t) == n
  {
    var t := [DigitChar(n / 1000), DigitChar(n / 100 % 10), DigitChar(n / 10 % 10), DigitChar(n % 10)];
    NumberOfFour(t);
    assert n / 10 / 10 == n / 100 && n / 100 / 10 == n / 1000;
    assert n / 100 == n / 1000 * 10 + n / 100 % 10;
    assert n / 10 == n / 100 * 10 + n / 10 % 10;
    t
  }

  /** `strftime("%Y-%m-%d")`. */
  function FormatIsoDate(d: Date): string
    requires ValidDate(d)
  {
    Pad4(d.year) + "-" + Pad2(d.month) + "-" + Pad2(d.day)
  }

  /** `strftime("%d/%m/%Y")`, the portal's day/month/year form. */
  function FormatPortalDate(d: Date): string
    requires ValidDate(d)
  {
    Pad2(d.day) + "/" + Pad2(d.month) + "/" + Pad4(d.year)
  }

  /** The rewriting `get_invoices` applies to each bound; `None` where `strptime` raises. */
  function ReformatDate(s: string): (r: Option<string>)
    ensures r.Some? <==> ParseIsoDate(s).Some?
  {
    match ParseIsoDate(s)
    case None => None
    case Some(d) => Some(FormatPortalDate(d))
  }

  lemma Pad2OfDigits(t: string)
    requires |t| == 2 && IsDigit(t[0]) && IsDigit(t[1])
    ensures Number(t) < 100 && Pad2(Number(t)) == t
  {
    NumberOfTwo(t);
  }

  lemma DivMod10(q: nat, d: nat)
    requires d < 10
    ensures (10 * q + d) / 10 == q && (10 * q + d) % 10 == d
  {
  }

  lemma Pad4OfDigits(t: string)
    requires |t| == 4 && forall i :: 0 <= i < 4 ==> IsDigit(t[i])
    ensures Number(t) < 10000 && Pad4(Number(t)) == t
  {
    NumberOfFour(t);
    var a, b, c, d := DigitValue(t[0]), DigitValue(t[1]), DigitValue(t[2]), DigitValue(t[3]);
    var n := Number(t);
    DivMod10(a, b);
    DivMod10(10 * a + b, c);
    DivMod10(10 * (10 * a + b) + c, d);
    assert n / 10 == 10 * (10 * a + b) + c && n % 10 == d;
    assert n / 100 == n / 10 / 10 == 10 * a + b;
    assert n / 1000 == n / 100 / 10 == a;
    assert n / 100 % 10 == b && n / 10 % 10 == c;
    assert Pad4(n) == [DigitChar(a), DigitChar(b), DigitChar(c), DigitChar(d)];
  }

  /** A date written `YYYY-MM-DD` with digits in every position. */
  predicate CanonicalIsoText(s: string) {
    && |s| == 10 && s[4] == '-' && s[7] == '-'
    && (forall i :: 0 <= i < 4 ==> IsDigit(s[i]))
    && IsDigit(s[5]) && IsDigit(s[6]) && IsDigit(s[8]) && IsDigit(s[9])
  }

  /**
    For a valid date written in the canonical form, the portal text is the
    same day, month and year rearranged: `YYYY-MM-DD` becomes `DD/MM/YYYY`.
   */
  lemma ReformatCanonical(s: string)
    requires CanonicalIsoText(s) && ParseIsoDate(s).Some?
    ensures ReformatDate(s) == Some(s[8..10] + "/" + s[5..7] + "/" + s[..4])
  {
    var rest := s[5..];
    assert rest[2] == '-' && rest[0] != '-' && rest[1] != '-';
    assert IndexOf(rest, '-') == 2 by {
      assert rest[1..][1..][0] == '-';
    }
    assert rest[..2] == s[5..7];
    assert rest[3..] == s[8..10];
    var d := ParseIsoDate(s).value;
    Pad2OfDigits(s[5..7]);
    Pad2OfDigits(s[8..10]);
    Pad4OfDigits(s[..4]);
    assert d.day == Number(s[8..10]);
  }

  /** `strptime` reads back every date that `strftime("%Y-%m-%d")` writes. */
  lemma ParseFormatRoundTrip(d: Date)
    requires ValidDate(d)
    ensures ParseIsoDate(FormatIsoDate(d)) == Some(d)
  {
    var s := FormatIsoDate(d);
    var y, m, dd := Pad4(d.year), Pad2(d.month), Pad2(d.day);
    assert s[..4] == y;
    assert s[4] == '-';
    var rest := s[5..];
    assert rest == m + "-" + dd;
    assert rest[1..][1..][0] == '-';
    assert IndexOf(rest, '-') == 2;
    assert rest[..2] == m && rest[3..] == dd;
    assert dd[..1] == [dd[0]];
    assert DayText(dd);
    assert MonthText(m);
  }

  /** Every canonical text of a valid date is what `strftime` writes for it. */
  lemma CanonicalIsFormatted(s: string)
    requires CanonicalIsoText(s) && ParseIsoDate(s).Some?
    ensures FormatIsoDate(ParseIsoDate(s).value) == s
  {
    ReformatCanonical(s);
    var d := ParseIsoDate(s).value;
    Pad2OfDigits(s[5..7]);
    Pad2OfDigits(s[8..10]);
    Pad4OfDigits(s[..4]);
    var rest := s[5..];
    assert rest[1..][1..][0] == '-';
    assert IndexOf(rest, '-') == 2;
    assert rest[..2] == s[5..7] && rest[3..] == s[8..10];
    assert s == s[..4] + "-" + s[5..7] + "-" + s[8..10];
  }
}
