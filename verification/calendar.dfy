/** Calendar months, the month arithmetic of the report's date range and the
    seven-character "YYYY.MM" month label used in bucket keys. */
module Calendar {

  /** A calendar month; `month` runs from 1 (January) to 12 (December).
      Days, times and time zones take no part in any report computation. */
  datatype YearMonth = YearMonth(year: int, month: int) {
    /** Months since January of year 0. */
    function Index(): int { year * 12 + (month - 1) }
  }

  type Month = d: YearMonth | 1 <= d.month <= 12 witness YearMonth(2000, 1)

  /** A month whose year prints as exactly four digits. */
  predicate FourDigitYear(d: Month) { 0 <= d.year <= 9999 }

  lemma IndexInjective(a: Month, b: Month)
    requires a.Index() == b.Index()
    ensures a == b
  {
  }

  /** The calendar successor of a month. */
  function AddMonth(d: Month): (r: Month)
    ensures r.Index() == d.Index() + 1
  {
    if d.month == 12 then YearMonth(d.year + 1, 1) else YearMonth(d.year, d.month + 1)
  }

  /** `d` advanced by `m` calendar months. */
  function AddMonths(d: Month, m: nat): (r: Month)
    ensures r.Index() == d.Index() + m
  {
    if m == 0 then d else AddMonth(AddMonths(d, m - 1))
  }

  /** The number of whole calendar-month steps from `from` to `to`; the day of
      the month plays no part. Negative when `to` lies before `from`. */
  function DifferenceInMonths(from: Month, to: Month): (r: int)
    ensures r >= 0 <==> from.Index() <= to.Index()
    ensures r >= 0 ==> AddMonths(from, r) == to
    ensures r < 0 ==> AddMonths(to, -r) == from
  {
    var r := to.Index() - from.Index();
    if r >= 0 then IndexInjective(AddMonths(from, r), to); r
    else IndexInjective(AddMonths(to, -r), from); r
  }

  /** Advancing `from` by the month difference lands exactly on `to`. */
  lemma DifferenceInMonthsReachesTo(from: Month, to: Month)
    requires from.Index() <= to.Index()
    ensures DifferenceInMonths(from, to) >= 0
    ensures AddMonths(from, DifferenceInMonths(from, to)) == to
  {
    IndexInjective(AddMonths(from, DifferenceInMonths(from, to)), to);
  }

  /** Distinct step counts give distinct months. */
  lemma AddMonthsInjective(d: Month, m1: nat, m2: nat)
    requires AddMonths(d, m1) == AddMonths(d, m2)
    ensures m1 == m2
  {
    assert AddMonths(d, m1).Index() == AddMonths(d, m2).Index();
  }

  function Digit(n: int): (c: char)
    requires 0 <= n < 10
    ensures '0' <= c <= '9'
  {
    ('0' as int + n) as char
  }

  function Pow10(n: nat): (p: nat)
    ensures p >= 1
  {
    if n == 0 then 1 else 10 * Pow10(n - 1)
  }

  /** `v` written with exactly `n` decimal digits, zero-padded on the left
      (the higher digits of a larger `v` are dropped). */
  function Digits(v: nat, n: nat): (s: string)
    ensures |s| == n
    ensures forall i :: 0 <= i < n ==> '0' <= s[i] <= '9'
  {
    if n == 0 then [] else Digits(v / 10, n - 1) + [Digit(v % 10)]
  }

  /** The "YYYY.MM" label of a month, as the key builder writes it: the year
      modulo 10000 in four digits, a dot, the month in two digits. */
  function Label(d: Month): (s: string)
    ensures |s| == 7 && s[4] == '.'
    ensures forall i :: 0 <= i < 7 && i != 4 ==> '0' <= s[i] <= '9'
    ensures FourDigitYear(d) ==> s[..4] == Digits(d.year, 4)
    ensures s[5..] == Digits(d.month, 2)
  {
    var y, m := Digits(d.year % 10000, 4), Digits(d.month, 2);
    assert FourDigitYear(d) ==> d.year % 10000 == d.year;
    assert (y + "." + m)[..4] == y && (y + "." + m)[5..] == m;
    y + "." + m
  }

  lemma DigitInjective(a: int, b: int)
    requires 0 <= a < 10 && 0 <= b < 10 && Digit(a) == Digit(b)
    ensures a == b
  {
  }

  /** Numbers below 10^n have distinct n-digit renderings. */
  lemma {:induction false} DigitsInjective(a: nat, b: nat, n: nat)
    requires a < Pow10(n) && b < Pow10(n) && Digits(a, n) == Digits(b, n)
    ensures a == b
  {
    if n > 0 {
      var da, db := Digits(a, n), Digits(b, n);
      assert da[n - 1] == Digit(a % 10) && db[n - 1] == Digit(b % 10);
      DigitInjective(a % 10, b % 10);
      assert da[..n - 1] == Digits(a / 10, n - 1) && db[..n - 1] == Digits(b / 10, n - 1);
      DigitsInjective(a / 10, b / 10, n - 1);
    }
  }

  /** Labels of four-digit-year months are distinct for distinct months. */
  lemma LabelInjective(a: Month, b: Month)
    requires FourDigitYear(a) && FourDigitYear(b) && Label(a) == Label(b)
    ensures a == b
  {
    assert Pow10(4) == 10000 && Pow10(2) == 100;
    DigitsInjective(a.year, b.year, 4);
    DigitsInjective(a.month, b.month, 2);
  }
}
