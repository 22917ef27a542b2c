/** The page-count label of the viewer, "{current_page + 1}/{n} pages",
    and the decimal rendering of integers it relies on (Python's str()). */
module Labels {

  predicate IsDigit(c: char) {
    '0' <= c <= '9'
  }

  predicate AllDigits(s: string) {
    forall i :: 0 <= i < |s| ==> IsDigit(s[i])
  }

  function DigitChar(d: nat): (c: char)
    requires d < 10
    ensures IsDigit(c) && DigitValue(c) == d
  {
    ('0' as int + d) as char
  }

  function DigitValue(c: char): nat
    requires IsDigit(c)
  {
    c as int - '0' as int
  }

  /** str(n) for a non-negative integer: at least one digit, only digits,
      and no leading zero unless the number is zero. */
  function Decimal(n: nat): (r: string)
    ensures |r| >= 1 && AllDigits(r)
    ensures r[0] == '0' ==> n == 0 && r == "0"
    decreases n
  {
    if n < 10 then [DigitChar(n)] else Decimal(n / 10) + [DigitChar(n % 10)]
  }

  /** The value a string of decimal digits denotes (Python's int()). */
  function ParseDecimal(s: string): nat
    requires AllDigits(s)
    decreases |s|
  {
    if s == [] then 0 else ParseDecimal(s[..|s| - 1]) * 10 + DigitValue(s[|s| - 1])
  }

  /** Reading back the decimal rendering gives the number again. */
  lemma {:induction false} ParseDecimalOfDecimal(n: nat)
    ensures ParseDecimal(Decimal(n)) == n
  {
    if n >= 10 {
      var s := Decimal(n);
      assert s[..|s| - 1] == Decimal(n / 10);
      ParseDecimalOfDecimal(n / 10);
    }
  }

  /** Distinct numbers are rendered as distinct strings. */
  lemma DecimalInjective(m: nat, n: nat)
    requires Decimal(m) == Decimal(n)
    ensures m == n
  {
    ParseDecimalOfDecimal(m);
    ParseDecimalOfDecimal(n);
  }

  /** The text of the page label for the page at index `current` of `count`
      pages (the label shows a one-based page number). */
  function PageLabel(current: nat, count: nat): (r: string)
    ensures |r| > |Decimal(current + 1)| + 6 && r[..|Decimal(current + 1)| + 1] == Decimal(current + 1) + "/"
    ensures r[|r| - 6..] == " pages"
  {
    Decimal(current + 1) + "/" + Decimal(count) + " pages"
  }

  /** Number of leading decimal digits of `s`. */
  function LeadingDigits(s: string): (n: nat)
    ensures n <= |s|
    decreases |s|
  {
    if s == [] || !IsDigit(s[0]) then 0 else 1 + LeadingDigits(s[1..])
  }

  lemma {:induction false} LeadingDigitsBeforeSeparator(a: string, sep: char, b: string)
    requires AllDigits(a) && !IsDigit(sep)
    ensures LeadingDigits(a + [sep] + b) == |a|
    decreases |a|
  {
    var s := a + [sep] + b;
    if a == [] {
      assert s[0] == sep;
    } else {
      assert s[1..] == a[1..] + [sep] + b;
      LeadingDigitsBeforeSeparator(a[1..], sep, b);
    }
  }

  /** A run of digits followed by a non-digit separator splits uniquely. */
  lemma SplitAfterDigits(a1: string, b1: string, a2: string, b2: string, sep: char)
    requires AllDigits(a1) && AllDigits(a2) && !IsDigit(sep)
    requires a1 + [sep] + b1 == a2 + [sep] + b2
    ensures a1 == a2 && b1 == b2
  {
    var s := a1 + [sep] + b1;
    LeadingDigitsBeforeSeparator(a1, sep, b1);
    LeadingDigitsBeforeSeparator(a2, sep, b2);
    assert a1 == s[..|a1|];
    assert b1 == s[|a1| + 1..];
  }

  /** The same text before the " pages" suffix. */
  lemma StripPagesSuffix(x: string, y: string)
    requires x + " pages" == y + " pages"
    ensures x == y
  {
    assert x == (x + " pages")[..|x|];
  }

  /** The page label split at its '/'. */
  lemma PageLabelParts(current: nat, count: nat)
    ensures PageLabel(current, count) == Decimal(current + 1) + ['/'] + (Decimal(count) + " pages")
  {
  }

  /** Different cursor positions or page counts always give different page
      labels: the label identifies both numbers. */
  lemma PageLabelInjective(c1: nat, n1: nat, c2: nat, n2: nat)
    requires PageLabel(c1, n1) == PageLabel(c2, n2)
    ensures c1 == c2 && n1 == n2
  {
    PageLabelParts(c1, n1);
    PageLabelParts(c2, n2);
    SplitAfterDigits(Decimal(c1 + 1), Decimal(n1) + " pages", Decimal(c2 + 1), Decimal(n2) + " pages", '/');
    DecimalInjective(c1 + 1, c2 + 1);
    StripPagesSuffix(Decimal(n1), Decimal(n2));
    DecimalInjective(n1, n2);
  }

  /** The labels of a three-page document. */
  lemma ThreePageLabels()
    ensures PageLabel(0, 3) == "1/3 pages"
    ensures PageLabel(2, 3) == "3/3 pages"
  {
  }
}
