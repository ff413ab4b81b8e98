/** Timestamps as text. Rows hold canonical UTC RFC 3339 strings (section 5.6) with trailing zeros of the
    fraction dropped, and SQL compares them byte by byte, with or without their final Z. */
module Timestamps {

  datatype Instant = Instant(year: nat, month: nat, day: nat, hour: nat, minute: nat, second: nat, nanos: nat)

  // ---------------------------------------------------------------- the calendar

  predicate Leap(year: nat) {
    year % 4 == 0 && (year % 100 != 0 || year % 400 == 0)
  }

  function MonthLength(year: nat, month: nat): (n: nat)
    ensures 28 <= n <= 31
  {
    if month == 2 then (if Leap(year) then 29 else 28) else if month in {4, 6, 9, 11} then 30 else 31
  }

  predicate Valid(i: Instant) {
    && i.year <= 9999 && 1 <= i.month <= 12 && 1 <= i.day <= MonthLength(i.year, i.month)
    && i.hour < 24 && i.minute < 60 && i.second < 60 && i.nanos < 1_000_000_000
  }

  function DaysBeforeMonth(year: nat, month: nat): nat {
    if month <= 1 then 0 else DaysBeforeMonth(year, month - 1) + MonthLength(year, month - 1)
  }

  function DaysBeforeYear(year: nat): nat {
    if year == 0 then 0 else DaysBeforeYear(year - 1) + DaysBeforeMonth(year - 1, 13)
  }

  function Days(i: Instant): nat
    requires i.day >= 1
  {
    DaysBeforeYear(i.year) + DaysBeforeMonth(i.year, i.month) + i.day - 1
  }

  /** Whole seconds, and nanoseconds, since the first day of year 0. */
  function Seconds(i: Instant): nat
    requires i.day >= 1
  {
    ((Days(i) * 24 + i.hour) * 60 + i.minute) * 60 + i.second
  }

  function Epoch(i: Instant): nat
    requires i.day >= 1
  {
    Seconds(i) * 1_000_000_000 + i.nanos
  }

  lemma {:induction false} MonthsAddUp(year: nat, month: nat, later: nat)
    requires 1 <= month < later
    ensures DaysBeforeMonth(year, month) + MonthLength(year, month) <= DaysBeforeMonth(year, later)
    decreases later
  {
    if month < later - 1 {
      MonthsAddUp(year, month, later - 1);
    }
  }

  lemma {:induction false} YearsAddUp(year: nat, later: nat)
    requires year < later
    ensures DaysBeforeYear(year) + DaysBeforeMonth(year, 13) <= DaysBeforeYear(later)
    decreases later
  {
    if year < later - 1 {
      YearsAddUp(year, later - 1);
    }
  }

  predicate DateLess(a: Instant, b: Instant) {
    a.year < b.year || (a.year == b.year && (a.month < b.month || (a.month == b.month && a.day < b.day)))
  }

  lemma DateOrder(a: Instant, b: Instant)
    requires Valid(a) && Valid(b) && DateLess(a, b)
    ensures Days(a) < Days(b)
  {
    if a.year < b.year {
      MonthsAddUp(a.year, a.month, 13);
      YearsAddUp(a.year, b.year);
    } else if a.month < b.month {
      MonthsAddUp(a.year, a.month, b.month);
    }
  }

  /** Field by field, as the string lists them. */
  predicate SecondLess(a: Instant, b: Instant) {
    || DateLess(a, b)
    || (a.year == b.year && a.month == b.month && a.day == b.day &&
        (a.hour < b.hour || (a.hour == b.hour && (a.minute < b.minute || (a.minute == b.minute && a.second < b.second)))))
  }

  predicate SameSecond(a: Instant, b: Instant) {
    a.(nanos := 0) == b.(nanos := 0)
  }

  lemma SecondOrder(a: Instant, b: Instant)
    requires Valid(a) && Valid(b)
    ensures SecondLess(a, b) <==> Seconds(a) < Seconds(b)
    ensures SameSecond(a, b) <==> Seconds(a) == Seconds(b)
  {
    if DateLess(a, b) {
      DateOrder(a, b);
    } else if DateLess(b, a) {
      DateOrder(b, a);
    }
  }

  // ---------------------------------------------------------------- text

  function Digit(n: nat): char
    requires n < 10
  {
    '0' + n as char
  }

  function Digits(n: nat, width: nat): (s: string)
    ensures |s| == width
  {
    if width == 0 then "" else Digits(n / 10, width - 1) + [Digit(n % 10)]
  }

  /** Trailing zeros dropped. */
  function TrimZeros(s: string): string {
    if s == "" then "" else
      var rest := TrimZeros(s[1..]);
      if rest == "" && s[0] == '0' then "" else [s[0]] + rest
  }

  function Fraction(nanos: nat): string {
    var digits := TrimZeros(Digits(nanos, 9));
    if digits == "" then "" else "." + digits
  }

  function Field(n: nat, width: nat, separator: string, rest: string): string {
    Digits(n, width) + (separator + rest)
  }

  function SecondText(i: Instant, rest: string): string {
    Field(i.year, 4, "-", Field(i.month, 2, "-", Field(i.day, 2, "T",
    Field(i.hour, 2, ":", Field(i.minute, 2, ":", Field(i.second, 2, "", rest))))))
  }

  function Trimmed(i: Instant): string {
    SecondText(i, Fraction(i.nanos))
  }

  function Format(i: Instant): string {
    Trimmed(i) + "Z"
  }

  /** rtrim(s, 'Z'). */
  function RTrimZ(s: string): string {
    if s != "" && s[|s| - 1] == 'Z' then RTrimZ(s[..|s| - 1]) else s
  }

  /** SQL's order on text: the first difference decides, and a proper prefix is smaller. */
  predicate TextLess(a: string, b: string) {
    b != "" && (a == "" || a[0] < b[0] || (a[0] == b[0] && TextLess(a[1..], b[1..])))
  }

  lemma {:induction false} PrefixOrder(p: string, q: string, r: string, s: string)
    requires |p| == |q|
    ensures TextLess(p + r, q + s) <==> TextLess(p, q) || (p == q && TextLess(r, s))
    decreases |p|
  {
    if p == "" {
      assert p + r == r && q + s == s;
    } else {
      assert (p + r)[1..] == p[1..] + r && (q + s)[1..] == q[1..] + s;
      PrefixOrder(p[1..], q[1..], r, s);
      assert p == q <==> p[0] == q[0] && p[1..] == q[1..];
    }
  }

  lemma {:induction false} DigitsOrder(n: nat, m: nat, width: nat)
    requires n < Power(width) && m < Power(width)
    ensures TextLess(Digits(n, width), Digits(m, width)) <==> n < m
    ensures Digits(n, width) == Digits(m, width) <==> n == m
  {
    if width > 0 {
      DigitsOrder(n / 10, m / 10, width - 1);
      var p, q := Digits(n / 10, width - 1), Digits(m / 10, width - 1);
      var x, y := Digit(n % 10), Digit(m % 10);
      PrefixOrder(p, q, [x], [y]);
      assert TextLess([x], [y]) <==> n % 10 < m % 10;
      assert (p + [x])[..width - 1] == p && (q + [y])[..width - 1] == q;
      assert (p + [x])[width - 1] == x && (q + [y])[width - 1] == y;
    }
  }

  function Power(width: nat): nat {
    if width == 0 then 1 else 10 * Power(width - 1)
  }

  lemma FieldOrder(n: nat, m: nat, width: nat, separator: string, r: string, s: string)
    requires n < Power(width) && m < Power(width)
    ensures TextLess(Field(n, width, separator, r), Field(m, width, separator, s)) <==> n < m || (n == m && TextLess(r, s))
  {
    DigitsOrder(n, m, width);
    PrefixOrder(Digits(n, width), Digits(m, width), separator + r, separator + s);
    PrefixOrder(separator, separator, r, s);
    NotLessThanSelf(separator);
  }

  lemma {:induction false} NotLessThanSelf(s: string)
    ensures !TextLess(s, s)
    decreases |s|
  {
    if s != "" {
      NotLessThanSelf(s[1..]);
    }
  }

  lemma SecondTextOrder(a: Instant, b: Instant, r: string, s: string)
    requires Valid(a) && Valid(b)
    ensures TextLess(SecondText(a, r), SecondText(b, s)) <==> SecondLess(a, b) || (SameSecond(a, b) && TextLess(r, s))
  {
    assert Power(2) == 100 && Power(4) == 10000;
    var a6, b6 := Field(a.second, 2, "", r), Field(b.second, 2, "", s);
    var a5, b5 := Field(a.minute, 2, ":", a6), Field(b.minute, 2, ":", b6);
    var a4, b4 := Field(a.hour, 2, ":", a5), Field(b.hour, 2, ":", b5);
    var a3, b3 := Field(a.day, 2, "T", a4), Field(b.day, 2, "T", b4);
    var a2, b2 := Field(a.month, 2, "-", a3), Field(b.month, 2, "-", b3);
    FieldOrder(a.year, b.year, 4, "-", a2, b2);
    FieldOrder(a.month, b.month, 2, "-", a3, b3);
    FieldOrder(a.day, b.day, 2, "T", a4, b4);
    FieldOrder(a.hour, b.hour, 2, ":", a5, b5);
    FieldOrder(a.minute, b.minute, 2, ":", a6, b6);
    FieldOrder(a.second, b.second, 2, "", r, s);
  }

  predicate AllDigits(s: string) {
    forall i :: 0 <= i < |s| ==> '0' <= s[i] <= '9'
  }

  lemma {:induction false} DigitsAreDigits(n: nat, width: nat)
    ensures AllDigits(Digits(n, width))
  {
    if width > 0 {
      DigitsAreDigits(n / 10, width - 1);
    }
  }

  lemma {:induction false} TrimOrder(a: string, b: string)
    requires |a| == |b| && AllDigits(a) && AllDigits(b)
    ensures TextLess(TrimZeros(a), TrimZeros(b)) <==> TextLess(a, b)
    ensures TrimZeros(a) == TrimZeros(b) <==> a == b
    decreases |a|
  {
    if a != "" {
      TrimOrder(a[1..], b[1..]);
      assert a == b <==> a[0] == b[0] && a[1..] == b[1..];
      var ra, rb := TrimZeros(a[1..]), TrimZeros(b[1..]);
      assert ([a[0]] + ra)[1..] == ra && ([b[0]] + rb)[1..] == rb;
    }
  }

  lemma FractionOrder(n: nat, m: nat)
    requires n < 1_000_000_000 && m < 1_000_000_000
    ensures TextLess(Fraction(n), Fraction(m)) <==> n < m
  {
    assert Power(9) == 1_000_000_000 by {
      assert Power(3) == 1000;
      assert Power(6) == 1_000_000;
    }
    DigitsAreDigits(n, 9);
    DigitsAreDigits(m, 9);
    DigitsOrder(n, m, 9);
    TrimOrder(Digits(n, 9), Digits(m, 9));
    PrefixOrder(".", ".", TrimZeros(Digits(n, 9)), TrimZeros(Digits(m, 9)));
    NotLessThanSelf(".");
  }

  /** With the final Z removed, text order is exactly chronological order. */
  lemma TrimmedOrderIsTimeOrder(a: Instant, b: Instant)
    requires Valid(a) && Valid(b)
    ensures TextLess(Trimmed(a), Trimmed(b)) <==> Epoch(a) < Epoch(b)
  {
    SecondTextOrder(a, b, Fraction(a.nanos), Fraction(b.nanos));
    FractionOrder(a.nanos, b.nanos);
    SecondOrder(a, b);
  }

  // ---------------------------------------------------------------- with the Z left on

  predicate BelowZ(s: string) {
    forall i :: 0 <= i < |s| ==> s[i] < 'Z'
  }

  predicate ProperPrefix(a: string, b: string) {
    |a| < |b| && a <= b
  }

  lemma {:induction false} ZReversesPrefixes(a: string, b: string)
    requires BelowZ(a) && BelowZ(b)
    ensures TextLess(a + "Z", b + "Z") <==> (TextLess(a, b) && !ProperPrefix(a, b)) || ProperPrefix(b, a)
    ensures ProperPrefix(a, b) ==> TextLess(a, b) && !TextLess(b, a)
    decreases |a| + |b|
  {
    if a == "" || b == "" {
      assert a == "" ==> a + "Z" == "Z";
      assert b == "" ==> b + "Z" == "Z";
      assert TextLess("Z", "Z") <==> false;
    } else {
      assert (a + "Z")[1..] == a[1..] + "Z" && (b + "Z")[1..] == b[1..] + "Z";
      ZReversesPrefixes(a[1..], b[1..]);
      assert ProperPrefix(a, b) <==> a[0] == b[0] && ProperPrefix(a[1..], b[1..]);
      assert ProperPrefix(b, a) <==> a[0] == b[0] && ProperPrefix(b[1..], a[1..]);
    }
  }

  lemma {:induction false} TrimmedDigitsBelowZ(s: string)
    requires AllDigits(s)
    ensures BelowZ(TrimZeros(s))
    decreases |s|
  {
    if s != "" {
      TrimmedDigitsBelowZ(s[1..]);
    }
  }

  lemma FieldBelowZ(n: nat, width: nat, separator: string, rest: string)
    requires BelowZ(separator) && BelowZ(rest)
    ensures BelowZ(Field(n, width, separator, rest))
  {
    DigitsAreDigits(n, width);
  }

  lemma TrimmedBelowZ(i: Instant)
    ensures BelowZ(Trimmed(i))
  {
    DigitsAreDigits(i.nanos, 9);
    TrimmedDigitsBelowZ(Digits(i.nanos, 9));
    var f := Fraction(i.nanos);
    var f6 := Field(i.second, 2, "", f);
    var f5 := Field(i.minute, 2, ":", f6);
    var f4 := Field(i.hour, 2, ":", f5);
    var f3 := Field(i.day, 2, "T", f4);
    var f2 := Field(i.month, 2, "-", f3);
    FieldBelowZ(i.second, 2, "", f);
    FieldBelowZ(i.minute, 2, ":", f6);
    FieldBelowZ(i.hour, 2, ":", f5);
    FieldBelowZ(i.day, 2, "T", f4);
    FieldBelowZ(i.month, 2, "-", f3);
    FieldBelowZ(i.year, 4, "-", f2);
  }

  /** What the SQL trims off is exactly the final Z. */
  lemma TrimmingDropsTheZ(i: Instant)
    ensures RTrimZ(Format(i)) == Trimmed(i)
  {
    TrimmedBelowZ(i);
    assert Format(i)[..|Format(i)| - 1] == Trimmed(i);
  }

  /** With the Z left on, text order is chronological exactly when neither time is the other's prefix. */
  lemma UntrimmedOrderIff(a: Instant, b: Instant)
    requires Valid(a) && Valid(b)
    ensures (TextLess(Format(a), Format(b)) <==> Epoch(a) < Epoch(b)) <==>
            !ProperPrefix(Trimmed(a), Trimmed(b)) && !ProperPrefix(Trimmed(b), Trimmed(a))
  {
    TrimmedBelowZ(a);
    TrimmedBelowZ(b);
    ZReversesPrefixes(Trimmed(a), Trimmed(b));
    ZReversesPrefixes(Trimmed(b), Trimmed(a));
    TrimmedOrderIsTimeOrder(a, b);
  }

  /** The failing family is not empty: a whole second always sorts after the fractions that follow it. */
  lemma WholeSecondsSortLate(i: Instant, nanos: nat)
    requires Valid(i) && i.nanos == 0 && 0 < nanos < 1_000_000_000
    ensures Epoch(i) < Epoch(i.(nanos := nanos)) && TextLess(Format(i.(nanos := nanos)), Format(i))
  {
    var j := i.(nanos := nanos);
    FormatOrder(j, i);
    SecondOrder(i, j);
    FractionOfZero();
    FractionStart(nanos);
    assert Fraction(i.nanos) + "Z" == "Z";
  }

  lemma FormatOrder(a: Instant, b: Instant)
    requires Valid(a) && Valid(b)
    ensures TextLess(Format(a), Format(b)) <==>
            SecondLess(a, b) || (SameSecond(a, b) && TextLess(Fraction(a.nanos) + "Z", Fraction(b.nanos) + "Z"))
  {
    SecondTextAppend(a, Fraction(a.nanos));
    SecondTextAppend(b, Fraction(b.nanos));
    SecondTextOrder(a, b, Fraction(a.nanos) + "Z", Fraction(b.nanos) + "Z");
  }

  lemma FractionStart(nanos: nat)
    requires 0 < nanos < 1_000_000_000
    ensures TextLess(Fraction(nanos) + "Z", "Z")
  {
    FractionOfZero();
    FractionOrder(0, nanos);
    assert (Fraction(nanos) + "Z")[0] == '.';
  }

  lemma FractionOfZero()
    ensures Fraction(0) == ""
  {
    ZerosTrim(9);
  }

  lemma {:induction false} ZerosTrim(width: nat)
    ensures TrimZeros(Digits(0, width)) == "" && forall i :: 0 <= i < width ==> Digits(0, width)[i] == '0'
  {
    if width > 0 {
      ZerosTrim(width - 1);
      AllZerosTrim(Digits(0, width));
    }
  }

  lemma {:induction false} AllZerosTrim(s: string)
    requires forall i :: 0 <= i < |s| ==> s[i] == '0'
    ensures TrimZeros(s) == ""
    decreases |s|
  {
    if s != "" {
      AllZerosTrim(s[1..]);
    }
  }

  lemma SecondTextAppend(i: Instant, rest: string)
    ensures SecondText(i, rest) + "Z" == SecondText(i, rest + "Z")
  {}

  /** ListDue's condition, on the strings as stored. */
  predicate Due(next: Instant, now: Instant) {
    !TextLess(Format(now), Format(next))
  }

  /** It is never off by a whole second: nothing is listed a second early, and nothing a second overdue
      is missed. */
  lemma DueWithinASecond(next: Instant, now: Instant)
    requires Valid(next) && Valid(now)
    ensures Due(next, now) ==> Epoch(next) < Epoch(now) + 1_000_000_000
    ensures Epoch(next) + 1_000_000_000 <= Epoch(now) ==> Due(next, now)
  {
    FormatOrder(now, next);
    SecondOrder(now, next);
  }
}
