/** Calendar dates and the `"YYYY-MM"` month keys that
    `date.toISOString().slice(0, 7)` produces, including the key the
    insights compute for "last month". */
module Calendar {

  datatype Date = Date(year: int, month: int, day: int)

  predicate IsLeap(y: int) {
    y % 4 == 0 && (y % 100 != 0 || y % 400 == 0)
  }

  function DaysIn(y: int, m: int): (n: int)
    requires 1 <= m <= 12
    ensures 28 <= n <= 31
    ensures m == 2 ==> (n == 29 <==> IsLeap(y))
  {
    if m == 2 then (if IsLeap(y) then 29 else 28)
    else if m == 4 || m == 6 || m == 9 || m == 11 then 30
    else 31
  }

  /** A calendar date whose ISO string has a four-digit year. */
  predicate IsDate(d: Date) {
    0 <= d.year <= 9999 && 1 <= d.month <= 12 && 1 <= d.day <= DaysIn(d.year, d.month)
  }

  /** A date whose previous month has a four-digit year too. */
  predicate Valid(d: Date) {
    IsDate(d) && d.year >= 1
  }

  function Digit(n: int): char
    requires 0 <= n <= 9
  {
    ('0' as int + n) as char
  }

  function DigitValue(c: char): int {
    c as int - '0' as int
  }

  /** `n` written with exactly `width` decimal digits, zero-padded. */
  function Padded(n: int, width: nat): (s: string)
    requires 0 <= n
    ensures |s| == width
    ensures forall i :: 0 <= i < |s| ==> '0' <= s[i] <= '9'
  {
    if width == 0 then "" else Padded(n / 10, width - 1) + [Digit(n % 10)]
  }

  function Pow10(k: nat): nat {
    if k == 0 then 1 else 10 * Pow10(k - 1)
  }

  function ValueOf(s: string): int {
    if s == [] then 0 else 10 * ValueOf(s[..|s| - 1]) + DigitValue(s[|s| - 1])
  }

  /** Reading the padded digits back gives the number, when it fits. */
  lemma {:induction false} PaddedRoundTrip(n: int, width: nat)
    requires 0 <= n < Pow10(width)
    ensures ValueOf(Padded(n, width)) == n
  {
    if width > 0 {
      var s := Padded(n, width);
      assert s[..|s| - 1] == Padded(n / 10, width - 1);
      PaddedRoundTrip(n / 10, width - 1);
    }
  }

  function MonthKey(y: int, m: int): (k: string)
    requires 0 <= y <= 9999 && 1 <= m <= 12
    ensures |k| == 7 && k[4] == '-'
  {
    Padded(y, 4) + "-" + Padded(m, 2)
  }

  /** Different months have different keys. */
  lemma MonthKeyInjective(y1: int, m1: int, y2: int, m2: int)
    requires 0 <= y1 <= 9999 && 1 <= m1 <= 12
    requires 0 <= y2 <= 9999 && 1 <= m2 <= 12
    ensures MonthKey(y1, m1) == MonthKey(y2, m2) <==> y1 == y2 && m1 == m2
  {
    var k1 := MonthKey(y1, m1);
    var k2 := MonthKey(y2, m2);
    assert k1[..4] == Padded(y1, 4) && k1[5..] == Padded(m1, 2);
    assert k2[..4] == Padded(y2, 4) && k2[5..] == Padded(m2, 2);
    assert Pow10(4) == 10000 && Pow10(2) == 100;
    PaddedRoundTrip(y1, 4);
    PaddedRoundTrip(y2, 4);
    PaddedRoundTrip(m1, 2);
    PaddedRoundTrip(m2, 2);
  }

  /** The key of the month a date lies in. */
  function CurrentMonthKey(d: Date): string
    requires Valid(d)
  {
    MonthKey(d.year, d.month)
  }

  function PrevYear(y: int, m: int): int {
    if m == 1 then y - 1 else y
  }

  function PrevMonth(m: int): int {
    if m == 1 then 12 else m - 1
  }

  /** `date.setMonth(date.getMonth() - 1)`: the day of the month is kept and
      a day the previous month does not have overflows into the following
      month, which is the month the date started in. */
  function SetMonthBack(d: Date): (r: Date)
    requires Valid(d)
    ensures IsDate(r)
    ensures r.month == PrevMonth(d.month) <==> d.day <= DaysIn(PrevYear(d.year, d.month), PrevMonth(d.month))
    ensures r.month == PrevMonth(d.month) ==> r.year == PrevYear(d.year, d.month) && r.day == d.day
    ensures r.month != PrevMonth(d.month) ==> r.year == d.year && r.month == d.month && r.day < d.day
  {
    var py := PrevYear(d.year, d.month);
    var pm := PrevMonth(d.month);
    if d.day <= DaysIn(py, pm) then Date(py, pm, d.day)
    else Date(d.year, d.month, d.day - DaysIn(py, pm))
  }

  /** The previous-month key as the insights compute it. */
  function LastMonthKeyAsWritten(d: Date): (k: string)
    requires Valid(d)
    ensures d.day <= DaysIn(PrevYear(d.year, d.month), PrevMonth(d.month)) ==> k == LastMonthKey(d)
    ensures d.day > DaysIn(PrevYear(d.year, d.month), PrevMonth(d.month)) ==> k == CurrentMonthKey(d)
  {
    var r := SetMonthBack(d);
    MonthKey(r.year, r.month)
  }

  /** The key of the calendar month before the one `d` lies in. */
  function LastMonthKey(d: Date): (k: string)
    requires Valid(d)
    ensures k != CurrentMonthKey(d)
  {
    MonthKeyInjective(PrevYear(d.year, d.month), PrevMonth(d.month), d.year, d.month);
    MonthKey(PrevYear(d.year, d.month), PrevMonth(d.month))
  }

  /** On any later day the computed key is the current month's, so "last
      month" and "this month" are the same month. */
  lemma AsWrittenOverflows(d: Date)
    requires Valid(d) && d.day > DaysIn(PrevYear(d.year, d.month), PrevMonth(d.month))
    ensures LastMonthKeyAsWritten(d) == CurrentMonthKey(d)
    ensures LastMonthKeyAsWritten(d) != LastMonthKey(d)
  {
  }

  /** 31 March 2024: the previous month, February, has 29 days. */
  lemma March31Overflows()
    ensures Valid(Date(2024, 3, 31))
    ensures LastMonthKeyAsWritten(Date(2024, 3, 31)) == "2024-03"
    ensures LastMonthKey(Date(2024, 3, 31)) == "2024-02"
  {
    var d := Date(2024, 3, 31);
    assert IsLeap(2024) && DaysIn(2024, 2) == 29;
    assert SetMonthBack(d) == Date(2024, 3, 2);
    assert LastMonthKeyAsWritten(d) == MonthKey(2024, 3);
    assert LastMonthKey(d) == MonthKey(2024, 2);
    MonthKey2024(3);
    MonthKey2024(2);
  }

  /** The key of a single-digit month of 2024. */
  lemma MonthKey2024(m: int)
    requires 1 <= m <= 9
    ensures MonthKey(2024, m) == "2024-0" + [Digit(m)]
  {
    Padded2024();
    assert Padded(m, 2) == Padded(0, 1) + [Digit(m)];
    assert Padded(0, 1) == "0";
  }

  /** January goes back to December of the year before. */
  lemma JanuaryGoesBackAYear()
    ensures LastMonthKey(Date(2024, 1, 15)) == "2023-12"
  {
    Padded2023();
    assert Padded(12, 2) == "12" by {
      assert Padded(1, 1) == "1";
    }
    assert LastMonthKey(Date(2024, 1, 15)) == MonthKey(2023, 12);
  }

  lemma Padded2023()
    ensures Padded(2023, 4) == "2023"
  {
    assert Padded(2, 1) == "2";
    assert Padded(20, 2) == "20";
    assert Padded(202, 3) == "202";
  }

  lemma Padded2024()
    ensures Padded(2024, 4) == "2024"
  {
    assert Padded(2, 1) == "2";
    assert Padded(20, 2) == "20";
    assert Padded(202, 3) == "202";
  }
}
