/** The string operations the deployment tool relies on: splitting at the first separator,
    trimming a prefix, and printing numbers. */
module Text {

  datatype Option<+T> = None | Some(value: T)

  /** Go's `strings.SplitN(s, sep, 2)` for a one-character separator: the text before the first
      separator and everything after it, or None when there is no separator. */
  function SplitFirst(s: string, sep: char): (r: Option<(string, string)>)
    ensures r.None? <==> sep !in s
    ensures r.Some? ==> sep !in r.value.0 && s == r.value.0 + [sep] + r.value.1
  {
    if s == "" then None
    else if s[0] == sep then Some(("", s[1..]))
    else match SplitFirst(s[1..], sep)
      case None => None
      case Some((a, b)) => Some(([s[0]] + a, b))
  }

  lemma {:induction false} SplitJoined(a: string, b: string, sep: char)
    requires sep !in a
    ensures SplitFirst(a + [sep] + b, sep) == Some((a, b))
  {
    var s := a + [sep] + b;
    if a == "" {
      assert s[1..] == b;
    } else {
      assert s[0] == a[0] && s[1..] == a[1..] + [sep] + b && a == [a[0]] + a[1..];
      SplitJoined(a[1..], b, sep);
    }
  }

  predicate HasPrefix(s: string, prefix: string) {
    prefix <= s
  }

  predicate Contains(s: string, part: string) {
    exists i | 0 <= i <= |s| :: HasPrefix(s[i..], part)
  }

  /** Go's `strings.TrimPrefix`. */
  function TrimPrefix(s: string, prefix: string): string {
    if HasPrefix(s, prefix) then s[|prefix|..] else s
  }

  function Digit(n: nat): (c: char)
    requires n < 10
    ensures '0' <= c <= '9'
  {
    "0123456789"[n]
  }

  predicate AllDigits(s: string) {
    forall i | 0 <= i < |s| :: '0' <= s[i] <= '9'
  }

  /** A number as `%d` prints it. */
  function Decimal(n: nat): (s: string)
    ensures AllDigits(s)
  {
    if n < 10 then [Digit(n)] else Decimal(n / 10) + [Digit(n % 10)]
  }

  lemma DigitsDiffer(m: nat, n: nat)
    requires m < 10 && n < 10 && Digit(m) == Digit(n)
    ensures m == n
  {
  }

  lemma {:induction false} DecimalTellsApart(m: nat, n: nat)
    requires Decimal(m) == Decimal(n)
    ensures m == n
    decreases m + n
  {
    DecimalIsNotEmpty(m / 10);
    DecimalIsNotEmpty(n / 10);
    assert Decimal(m)[|Decimal(m)| - 1] == Digit(m % 10) && Decimal(n)[|Decimal(n)| - 1] == Digit(n % 10);
    DigitsDiffer(m % 10, n % 10);
    if m >= 10 && n >= 10 {
      assert Decimal(m)[..|Decimal(m)| - 1] == Decimal(m / 10) && Decimal(n)[..|Decimal(n)| - 1] == Decimal(n / 10);
      DecimalTellsApart(m / 10, n / 10);
    }
  }

  lemma DecimalIsNotEmpty(n: nat)
    ensures Decimal(n) != ""
  {
  }

  /** A text that ends in no digit and a number after it can be told apart. */
  lemma {:induction false} NumberedTellsApart(a: string, m: nat, b: string, n: nat)
    requires a != "" && !('0' <= a[|a| - 1] <= '9') && b != "" && !('0' <= b[|b| - 1] <= '9')
    requires a + Decimal(m) == b + Decimal(n)
    ensures a == b && m == n
  {
    DropTrailingDigitsStops(a, Decimal(m));
    DropTrailingDigitsStops(b, Decimal(n));
    assert (a + Decimal(m))[|a|..] == Decimal(m) && (b + Decimal(n))[|b|..] == Decimal(n);
    DecimalTellsApart(m, n);
  }

  function DropTrailingDigits(s: string): string {
    if s != "" && '0' <= s[|s| - 1] <= '9' then DropTrailingDigits(s[..|s| - 1]) else s
  }

  lemma {:induction false} DropTrailingDigitsStops(a: string, digits: string)
    requires AllDigits(digits)
    requires a != "" && !('0' <= a[|a| - 1] <= '9')
    ensures DropTrailingDigits(a + digits) == a
  {
    if digits == "" {
      assert a + digits == a;
    } else {
      assert (a + digits)[..|a + digits| - 1] == a + digits[..|digits| - 1];
      DropTrailingDigitsStops(a, digits[..|digits| - 1]);
    }
  }
}
