/** Calendar arithmetic on UTC day numbers (days since 1970-01-01), standing
    in for JavaScript's `Date`: the day of a millisecond timestamp, the civil
    date of a day, the `YYYY-MM-DD` text `toISOString().split('T')[0]`
    yields, the year-month bucket of a day, and `MakeDay`, which `setMonth`
    and `setFullYear` use to normalise an out-of-range month. */
module Dates {
  import Text

  const MsPerDay: int := 86400000

  /** The UTC day a millisecond timestamp falls in (`toISOString` date part). */
  function DayOfTimestamp(ms: int): (day: int)
    ensures day * MsPerDay <= ms < (day + 1) * MsPerDay
  {
    ms / MsPerDay
  }

  /** Midnight UTC of a day, in milliseconds (`new Date('YYYY-MM-DD')`). */
  function MidnightMs(day: int): (ms: int)
    ensures DayOfTimestamp(ms) == day
  {
    day * MsPerDay
  }

  datatype Civil = Civil(year: int, month: int, day: int)

  /** Proleptic Gregorian date of a day number. */
  function CivilFromDays(z: int): (c: Civil)
    ensures 1 <= c.month <= 12 && 1 <= c.day <= 31
  {
    var z' := z + 719468;
    var era := z' / 146097;
    var doe := z' - era * 146097;
    EraBounds(doe);
    CivilOfEra(era, YearOfEra(doe), DayOfYear(doe))
  }

  /** The civil date of day `doy` (counted from 1 March) of year `yoe` of
      400-year era `era`. */
  function CivilOfEra(era: int, yoe: int, doy: int): (c: Civil)
    requires 0 <= doy <= 365
    ensures 1 <= c.month <= 12 && 1 <= c.day <= 31
  {
    var y := yoe + era * 400;
    var mp := (5 * doy + 2) / 153;
    var d := doy - (153 * mp + 2) / 5 + 1;
    var m := if mp < 10 then mp + 3 else mp - 9;
    Civil(if m <= 2 then y + 1 else y, m, d)
  }

  /** Day number of a civil date with month in 1..12. */
  function DaysFromCivil(y: int, m: int, d: int): int
    requires 1 <= m <= 12
  {
    var y' := if m <= 2 then y - 1 else y;
    var era := y' / 400;
    var yoe := y' - era * 400;
    var mp := if m > 2 then m - 3 else m + 9;
    var doy := (153 * mp + 2) / 5 + d - 1;
    var doe := yoe * 365 + yoe / 4 - yoe / 100 + doy;
    era * 146097 + doe - 719468
  }

  /** ECMAScript MakeDay: month is zero-based and may lie outside 0..11;
      it carries into the year, and `date` counts from the first of the
      month, so a date past the month's end rolls into the next month. A
      month in 0..11 is that month of `year`; a month in -12..-1 is month
      `month + 12` of the year before. */
  function MakeDay(year: int, month: int, date: int): (d: int)
    ensures 0 <= month < 12 ==> d == DaysFromCivil(year, month + 1, 1) + date - 1
    ensures -12 <= month < 0 ==> d == DaysFromCivil(year - 1, month + 13, 1) + date - 1
  {
    assert 0 <= month < 12 ==> month / 12 == 0 && month % 12 == month;
    assert -12 <= month < 0 ==> month / 12 == -1 && month % 12 == month + 12;
    var ym := year + month / 12;
    var mn := month % 12;
    DaysFromCivil(ym, mn + 1, 1) + date - 1
  }

  /** Calendar year-month bucket of a day (`format(date, 'yyyy-MM')`),
      as a count of months since year 0. */
  function MonthKey(day: int): int
  {
    var c := CivilFromDays(day);
    c.year * 12 + (c.month - 1)
  }

  /** `n` in decimal, left-padded with zeros to `width` characters. */
  function Padded(n: nat, width: nat): (r: string)
    ensures |r| >= width
    ensures forall i :: 0 <= i < |r| ==> Text.IsDigit(r[i])
  {
    var s := Text.NatToString(n);
    if |s| < width then Text.Zeros(width - |s|) + s else s
  }

  /** Year field of `toISOString`: four digits for 0..9999, otherwise a
      sign and six digits. */
  function YearText(y: int): string
  {
    if 0 <= y <= 9999 then Padded(y, 4)
    else if y < 0 then "-" + Padded(-y, 6)
    else "+" + Padded(y, 6)
  }

  /** `YYYY-MM-DD` of a civil date. */
  function CivilText(c: Civil): string
    requires 1 <= c.month <= 12 && 1 <= c.day <= 31
  {
    YearText(c.year) + "-" + Padded(c.month, 2) + "-" + Padded(c.day, 2)
  }

  /** `YYYY-MM-DD` of a day, as `toISOString().split('T')[0]` gives it. */
  function IsoDate(day: int): (r: string)
    ensures ',' !in r && '\n' !in r
  {
    CivilText(CivilFromDays(day))
  }

  /** A padded number reads back as itself. */
  lemma ParsePadded(n: nat, width: nat)
    ensures Text.ParseNat(Padded(n, width)) == n
  {
    var s := Text.NatToString(n);
    Text.ParseNatToString(n);
    if |s| < width {
      Text.ParseNatLeadingZeros(width - |s|, s);
    }
  }

  /** Below 100, a number padded to two places takes exactly two characters. */
  lemma PaddedTwo(n: nat)
    requires n < 100
    ensures |Padded(n, 2)| == 2
  {
    if n >= 10 {
      assert Text.NatToString(n) == Text.NatToString(n / 10) + [Text.DigitChar(n % 10)];
    }
  }

  /** Different years have different year fields. */
  lemma YearTextInjective(y1: int, y2: int)
    requires YearText(y1) == YearText(y2)
    ensures y1 == y2
  {
    var t := YearText(y1);
    if 0 <= y1 <= 9999 {
      assert Text.IsDigit(t[0]);
    } else if y1 < 0 {
      assert t[0] == '-';
    } else {
      assert t[0] == '+';
    }
    if 0 <= y1 <= 9999 && 0 <= y2 <= 9999 {
      ParsePadded(y1, 4);
      ParsePadded(y2, 4);
    } else if y1 < 0 && y2 < 0 {
      assert Padded(-y1, 6) == t[1..] == Padded(-y2, 6);
      ParsePadded(-y1, 6);
      ParsePadded(-y2, 6);
    } else if y1 > 9999 && y2 > 9999 {
      assert Padded(y1, 6) == t[1..] == Padded(y2, 6);
      ParsePadded(y1, 6);
      ParsePadded(y2, 6);
    }
  }

  /** Different civil dates have different `YYYY-MM-DD` texts. */
  lemma CivilTextInjective(c1: Civil, c2: Civil)
    requires 1 <= c1.month <= 12 && 1 <= c1.day <= 31
    requires 1 <= c2.month <= 12 && 1 <= c2.day <= 31
    requires CivilText(c1) == CivilText(c2)
    ensures c1 == c2
  {
    var t := CivilText(c1);
    PaddedTwo(c1.month);
    PaddedTwo(c1.day);
    PaddedTwo(c2.month);
    PaddedTwo(c2.day);
    var y1 := YearText(c1.year);
    var y2 := YearText(c2.year);
    assert |y1| == |y2|;
    assert t[..|y1|] == y1 && t[..|y2|] == y2;
    YearTextInjective(c1.year, c2.year);
    assert t[|y1| + 1..|y1| + 3] == Padded(c1.month, 2) == Padded(c2.month, 2);
    assert t[|y1| + 4..] == Padded(c1.day, 2) == Padded(c2.day, 2);
    ParsePadded(c1.month, 2);
    ParsePadded(c2.month, 2);
    ParsePadded(c1.day, 2);
    ParsePadded(c2.day, 2);
  }

  /** Different days have different `YYYY-MM-DD` texts: the text names
      exactly one day. */
  lemma IsoDateInjective(a: int, b: int)
    ensures IsoDate(a) == IsoDate(b) <==> a == b
  {
    if IsoDate(a) == IsoDate(b) {
      CivilTextInjective(CivilFromDays(a), CivilFromDays(b));
      CivilRoundTrip(a);
      CivilRoundTrip(b);
    }
  }

  /** Year of era of a day of era (a 400-year cycle). */
  function YearOfEra(doe: int): int
  {
    (doe - doe / 1460 + doe / 36524 - doe / 146096) / 365
  }

  function DayOfYear(doe: int): int
  {
    var yoe := YearOfEra(doe);
    doe - (365 * yoe + yoe / 4 - yoe / 100)
  }

  lemma EraBounds(doe: int)
    requires 0 <= doe < 146097
    ensures 0 <= YearOfEra(doe) <= 399
    ensures 0 <= DayOfYear(doe) <= 365
  {
    if doe == 146096 {
    } else if doe < 36524 {
      CenturyBounds(doe, 0);
    } else if doe < 2 * 36524 {
      CenturyBounds(doe, 1);
    } else if doe < 3 * 36524 {
      CenturyBounds(doe, 2);
    } else {
      CenturyBounds(doe, 3);
    }
  }

  lemma CenturyBounds(doe: int, k: int)
    requires 0 <= k <= 3
    requires k * 36524 <= doe < (k + 1) * 36524
    ensures 0 <= YearOfEra(doe) <= 399
    ensures 0 <= DayOfYear(doe) <= 365
  {
    assert doe / 36524 == k;
    assert doe / 146096 == 0;
    var q := doe / 1460;
    var yoe := YearOfEra(doe);
    assert yoe == (doe - q + k) / 365;
    CycleBounds(doe - k * 36524, doe, q, k, yoe);
  }

  /** Within century `k` of an era, the year of era lies in that century
      and the day of year in 0..365: `e` splits into `n` four-year cycles
      of 1461 days and `f` days, and the year of era is `100k + 4n + b`. */
  lemma CycleBounds(e: int, doe: int, q: int, k: int, yoe: int)
    requires 0 <= k <= 3 && 0 <= e < 36524 && doe == e + k * 36524
    requires q == doe / 1460 && yoe == (doe - q + k) / 365
    ensures 100 * k <= yoe < 100 * k + 100
    ensures 0 <= doe - (365 * yoe + yoe / 4 - yoe / 100) <= 365
  {
    var n := e / 1461;
    var f := e - 1461 * n;
    var delta := if 24 * k + n + f >= 1460 then 1 else 0;
    CycleQuotient(doe, k, n, f, delta);
    var b := (f - delta) / 365;
    CycleYear(doe, q, k, n, f, delta, b);
    YearQuotients(yoe, k, n, b);
  }

  /** `doe / 1460` counts the whole cycles, plus one near the end of a cycle. */
  lemma CycleQuotient(doe: int, k: int, n: int, f: int, delta: int)
    requires 0 <= k <= 3 && 0 <= n <= 24 && 0 <= f <= 1460 && 1461 * n + f < 36524
    requires doe == 36524 * k + 1461 * n + f
    requires delta == if 24 * k + n + f >= 1460 then 1 else 0
    ensures doe / 1460 == 25 * k + n + delta
  {
  }

  lemma CycleYear(doe: int, q: int, k: int, n: int, f: int, delta: int, b: int)
    requires 0 <= k <= 3 && 0 <= n <= 24 && 0 <= f <= 1460
    requires doe == 36524 * k + 1461 * n + f && q == 25 * k + n + delta
    requires delta == if 24 * k + n + f >= 1460 then 1 else 0
    requires b == (f - delta) / 365
    ensures 0 <= b <= 3 && 365 * b <= f - delta < 365 * b + 365
    ensures (doe - q + k) / 365 == 100 * k + 4 * n + b
  {
  }

  lemma YearQuotients(yoe: int, k: int, n: int, b: int)
    requires 0 <= k <= 3 && 0 <= n <= 24 && 0 <= b <= 3
    requires yoe == 100 * k + 4 * n + b
    ensures yoe / 4 == 25 * k + n && yoe / 100 == k
  {
  }

  lemma MonthRoundTrip(doy: int)
    requires 0 <= doy <= 365
    ensures var mp := (5 * doy + 2) / 153;
      && 0 <= mp <= 11
      && (153 * mp + 2) / 5 + (doy - (153 * mp + 2) / 5 + 1) - 1 == doy
  {
  }

  lemma YearRoundTrip(yoe: int, era: int)
    requires 0 <= yoe <= 399
    ensures (yoe + era * 400) / 400 == era
  {
  }

  /** Converting a day to its civil date and back gives the same day. */
  lemma CivilRoundTrip(z: int)
    ensures var c := CivilFromDays(z); DaysFromCivil(c.year, c.month, c.day) == z
  {
    var z' := z + 719468;
    var era := z' / 146097;
    var doe := z' - era * 146097;
    assert 0 <= doe < 146097;
    EraBounds(doe);
    var yoe := YearOfEra(doe);
    var doy := DayOfYear(doe);
    assert doe == 365 * yoe + yoe / 4 - yoe / 100 + doy;
    assert CivilFromDays(z) == CivilOfEra(era, yoe, doy);
    FromCivilInverse(era, yoe, doy, doe);
  }

  /** `DaysFromCivil` undoes the last steps of `CivilFromDays`: from the
      era, year of era and day of year back to the day number. */
  lemma FromCivilInverse(era: int, yoe: int, doy: int, doe: int)
    requires 0 <= yoe <= 399 && 0 <= doy <= 365
    requires doe == 365 * yoe + yoe / 4 - yoe / 100 + doy
    ensures var c := CivilOfEra(era, yoe, doy);
            DaysFromCivil(c.year, c.month, c.day) == era * 146097 + doe - 719468
  {
    MonthRoundTrip(doy);
    YearRoundTrip(yoe, era);
  }
}
