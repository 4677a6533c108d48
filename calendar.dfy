/** `getFirstAndLastDayOfMonth` and the `YYYY-MM-DD` date strings it produces. */
module Calendar {
  import opened Wrappers
  import opened Decimal

  /** The Gregorian leap-year rule. */
  predicate IsLeapYear(y: int)
  {
    (y % 4 == 0 && y % 100 != 0) || y % 400 == 0
  }

  /** The number of days of a month of the Gregorian calendar. */
  function DaysInMonth(y: int, m: int): (d: int)
    requires 1 <= m <= 12
    ensures 28 <= d <= 31
    ensures m == 2 ==> (d == 29 <==> IsLeapYear(y))
    ensures m != 2 ==> d >= 30
  {
    if m == 2 then (if IsLeapYear(y) then 29 else 28)
    else if m == 4 || m == 6 || m == 9 || m == 11 then 30
    else 31
  }

  /** A number below 100 as two digits, zero-padded. */
  function TwoDigits(n: nat): (s: string)
    requires n < 100
    ensures |s| == 2 && AllDigits(s)
  {
    [DigitChar(n / 10), DigitChar(n % 10)]
  }

  /** A number below 10000 as four digits, zero-padded. */
  function FourDigits(n: nat): (s: string)
    requires n < 10000
    ensures |s| == 4 && AllDigits(s)
  {
    [DigitChar(n / 1000), DigitChar(n / 100 % 10), DigitChar(n / 10 % 10), DigitChar(n % 10)]
  }

  /** dayjs's `format('YYYY-MM-DD')`. */
  function FormatDate(y: nat, m: nat, d: nat): (s: string)
    requires y < 10000 && m < 100 && d < 100
    ensures |s| == 10
  {
    FourDigits(y) + "-" + TwoDigits(m) + "-" + TwoDigits(d)
  }

  /** Reads a `YYYY-MM-DD` string back into year, month and day. */
  function ParseDate(s: string): Option<(nat, nat, nat)>
  {
    if |s| == 10 && s[4] == '-' && s[7] == '-'
       && AllDigits(s[..4]) && AllDigits(s[5..7]) && AllDigits(s[8..])
    then Some((Value(s[..4]), Value(s[5..7]), Value(s[8..])))
    else None
  }

  lemma ValueOfTwoDigits(n: nat)
    requires n < 100
    ensures Value(TwoDigits(n)) == n
  {
    var s := TwoDigits(n);
    assert s[..1] == [DigitChar(n / 10)];
    assert s[..1][..0] == [];
    assert Value(s[..1]) == n / 10;
    assert Value(s) == n / 10 * 10 + n % 10;
  }

  lemma ValueOfFourDigits(n: nat)
    requires n < 10000
    ensures Value(FourDigits(n)) == n
  {
    var s := FourDigits(n);
    assert s[..3][..2][..1][..0] == [];
    assert s[..3][..2] == s[..2] && s[..2][..1] == s[..1] && s[..4 - 1] == s[..3];
    assert Value(s[..1]) == n / 1000;
    var q := n / 10;
    var h := q / 10;
    assert n / 100 == h && n / 1000 == h / 10;
    assert n / 100 % 10 == h % 10 && n / 10 % 10 == q % 10;
    assert Value(s[..2]) == h / 10 * 10 + h % 10 == h;
    assert Value(s[..3]) == h * 10 + q % 10 == q;
    assert Value(s) == q * 10 + n % 10;
  }

  /** Formatting then parsing gives back the year, month and day. */
  lemma FormatDateRoundTrip(y: nat, m: nat, d: nat)
    requires y < 10000 && m < 100 && d < 100
    ensures ParseDate(FormatDate(y, m, d)) == Some((y, m, d))
  {
    var s := FormatDate(y, m, d);
    assert s[..4] == FourDigits(y);
    assert s[5..7] == TwoDigits(m);
    assert s[8..] == TwoDigits(d);
    ValueOfFourDigits(y);
    ValueOfTwoDigits(m);
    ValueOfTwoDigits(d);
  }

  /**
   * The order in which the datastore compares the `date` strings of the model:
   * code unit by code unit, a prefix coming first.
   */
  predicate DateLe(a: string, b: string)
    decreases |a|
  {
    a == [] || (b != [] && (a[0] < b[0] || (a[0] == b[0] && DateLe(a[1..], b[1..]))))
  }

  lemma {:induction false} DateLeCommonPrefix(p: string, x: string, y: string)
    requires DateLe(x, y)
    ensures DateLe(p + x, p + y)
    decreases |p|
  {
    if p != [] {
      assert (p + x)[1..] == p[1..] + x;
      assert (p + y)[1..] == p[1..] + y;
      DateLeCommonPrefix(p[1..], x, y);
    } else {
      assert p + x == x && p + y == y;
    }
  }

  datatype MonthBounds = MonthBounds(firstDay: string, lastDay: string)

  /**
   * `getFirstAndLastDayOfMonth(year, month)`: the first and the last day of the
   * month, formatted as `YYYY-MM-DD`.
   */
  function GetFirstAndLastDayOfMonth(year: int, month: int): (r: MonthBounds)
    requires 1000 <= year <= 9999 && 1 <= month <= 12
    ensures ParseDate(r.firstDay) == Some((year as nat, month as nat, 1))
    ensures ParseDate(r.lastDay) == Some((year as nat, month as nat, DaysInMonth(year, month) as nat))
    ensures r.firstDay[..8] == r.lastDay[..8]
    ensures DateLe(r.firstDay, r.lastDay) && r.firstDay != r.lastDay
  {
    var last := DaysInMonth(year, month);
    var prefix := FourDigits(year) + "-" + TwoDigits(month) + "-";
    FormatDateRoundTrip(year, month, 1);
    FormatDateRoundTrip(year, month, last);
    assert DateLe(TwoDigits(1), TwoDigits(last));
    DateLeCommonPrefix(prefix, TwoDigits(1), TwoDigits(last));
    assert FormatDate(year, month, 1) == prefix + TwoDigits(1);
    assert FormatDate(year, month, last) == prefix + TwoDigits(last);
    assert FormatDate(year, month, 1)[8] != FormatDate(year, month, last)[8];
    MonthBounds(FormatDate(year, month, 1), FormatDate(year, month, last))
  }
}
