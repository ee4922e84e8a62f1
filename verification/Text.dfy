/** String building and reading shared by the printers, parsers and fingerprints. */
module Text {

  predicate IsDigit(c: char) {
    '0' <= c <= '9'
  }

  predicate AllDigits(s: string) {
    forall i | 0 <= i < |s| :: IsDigit(s[i])
  }

  function Digit(d: nat): (c: char)
    requires d < 10
    ensures IsDigit(c) && DigitValue(c) == d
  {
    "0123456789"[d]
  }

  function DigitValue(c: char): nat
    requires IsDigit(c)
  {
    c as int - '0' as int
  }

  /** The shortest decimal numeral, as `String(n)` prints it. */
  function Decimal(n: nat): string {
    if n < 10 then [Digit(n)] else Decimal(n / 10) + [Digit(n % 10)]
  }

  function ParseDecimal(s: string): nat
    requires AllDigits(s)
  {
    if s == "" then 0 else ParseDecimal(s[..|s| - 1]) * 10 + DigitValue(s[|s| - 1])
  }

  lemma {:induction false} DecimalRoundTrip(n: nat)
    ensures Decimal(n) != "" && AllDigits(Decimal(n)) && ParseDecimal(Decimal(n)) == n
    ensures n > 0 ==> Decimal(n)[0] != '0'
  {
    if n < 10 {
      assert Decimal(n)[..0] == "";
    } else {
      DecimalRoundTrip(n / 10);
      assert Decimal(n)[..|Decimal(n)| - 1] == Decimal(n / 10);
    }
  }

  function Power10(k: nat): (p: nat)
    ensures p > 0
  {
    if k == 0 then 1 else 10 * Power10(k - 1)
  }

  lemma Multiple(b: int, d: int)
    requires b >= 0
    ensures d >= 1 ==> b * d >= b
    ensures d <= -1 ==> b * d <= -b
  {}

  lemma QuotientIs(n: nat, b: nat, q: nat, r: nat)
    requires n == b * q + r && r < b
    ensures n / b == q
  {
    var d := n / b - q;
    assert b * d == r - n % b by {
      assert n == b * (n / b) + n % b;
    }
    Multiple(b, d);
  }

  lemma DivideTwice(n: nat, p: nat)
    requires p > 0
    ensures n / 10 / p == n / (10 * p)
  {
    var m := n / 10;
    var q, r := m / p, m % p;
    assert m == p * q + r;
    assert n == 10 * m + n % 10;
    assert n == 10 * (p * q) + 10 * r + n % 10;
    assert 10 * (p * q) == (10 * p) * q;
    QuotientIs(n, 10 * p, q, 10 * r + n % 10);
  }

  /** The digit of 10^k is `k` places from the end. */
  lemma {:induction false} DecimalIsPositional(n: nat, k: nat)
    requires k < |Decimal(n)|
    ensures Decimal(n)[|Decimal(n)| - 1 - k] == "0123456789"[n / Power10(k) % 10]
  {
    if n >= 10 && k > 0 {
      var front := Decimal(n / 10);
      assert Decimal(n) == front + [Digit(n % 10)];
      DecimalIsPositional(n / 10, k - 1);
      var p := Power10(k - 1);
      DivideTwice(n, p);
      assert Power10(k) == 10 * p;
      hide Decimal, Power10, Digit;
      assert Decimal(n)[|front| - k] == front[|front| - k];
    }
  }

  /** Exactly `k` decimal digits, zero padded on the left. */
  function Padded(n: nat, k: nat): (s: string)
    ensures |s| == k && AllDigits(s)
  {
    if k == 0 then "" else Padded(n / 10, k - 1) + [Digit(n % 10)]
  }

  lemma {:induction false} PaddedRoundTrip(n: nat, k: nat)
    requires n < Power10(k)
    ensures ParseDecimal(Padded(n, k)) == n
  {
    if k > 0 {
      assert n / 10 < Power10(k - 1);
      var front, last := Padded(n / 10, k - 1), Digit(n % 10);
      PaddedRoundTrip(n / 10, k - 1);
      assert (front + [last])[..k - 1] == front;
    }
  }

  /** `s.split(sep)` for a one-character separator. */
  function Split(s: string, sep: char): (parts: seq<string>)
    ensures |parts| >= 1
  {
    if s == "" then [""]
    else if s[0] == sep then [""] + Split(s[1..], sep)
    else var rest := Split(s[1..], sep); [[s[0]] + rest[0]] + rest[1..]
  }

  lemma {:induction false} SplitWhole(a: string, sep: char)
    requires sep !in a
    ensures Split(a, sep) == [a]
  {
    if a != "" {
      SplitWhole(a[1..], sep);
      assert [a[0]] + a[1..] == a;
    }
  }

  lemma {:induction false} SplitFirst(a: string, sep: char, b: string)
    requires sep !in a
    ensures Split(a + [sep] + b, sep) == [a] + Split(b, sep)
  {
    var s := a + [sep] + b;
    if a == "" {
      assert s[1..] == b;
    } else {
      assert s[1..] == a[1..] + [sep] + b;
      SplitFirst(a[1..], sep, b);
      assert [s[0]] + a[1..] == a;
    }
  }

  /** Equal texts with a separator-free head have equal heads and tails. */
  lemma SplitInjective(a: string, b: string, sep: char, a': string, b': string)
    requires sep !in a && sep !in a'
    requires a + [sep] + b == a' + [sep] + b'
    ensures a == a' && b == b'
  {
    SplitFirst(a, sep, b);
    SplitFirst(a', sep, b');
    var whole := a + [sep] + b;
    assert ([a] + Split(b, sep))[0] == ([a'] + Split(b', sep))[0];
    assert b == whole[|a| + 1..] == b';
  }
}
