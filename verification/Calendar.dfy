/**
 * Calendar dates as the program handles them: `YYYY-MM-DD` strings compared as text, and the
 * ECMAScript day arithmetic (proleptic Gregorian, month and day overflow normalised) behind
 * `Date.UTC`, `setUTCFullYear`, `Date.parse` and `toISOString`.
 */
module Calendar {

  // ---- Text order -----------------------------------------------------------------------------------

  /** `a < b` on strings: code point by code point, a proper prefix first. */
  predicate Less(a: string, b: string) {
    b != "" && (a == "" || a[0] < b[0] || (a[0] == b[0] && Less(a[1..], b[1..])))
  }

  predicate IsDigit(c: char) {
    '0' <= c <= '9'
  }

  predicate AllDigits(s: string) {
    forall i | 0 <= i < |s| :: IsDigit(s[i])
  }

  function DigitValue(c: char): nat
    requires IsDigit(c)
  {
    c as int - '0' as int
  }

  function DigitChar(n: nat): (c: char)
    requires n < 10
    ensures IsDigit(c) && DigitValue(c) == n
  {
    ('0' as int + n) as char
  }

  /** `Number(s)` of a run of digits. */
  function Num(s: string): nat
    requires AllDigits(s)
  {
    if s == "" then 0 else 10 * Num(s[..|s| - 1]) + DigitValue(s[|s| - 1])
  }

  /** n in exactly w decimal digits. */
  function Pad(n: nat, w: nat): (s: string)
    ensures |s| == w && AllDigits(s)
  {
    if w == 0 then "" else Pad(n / 10, w - 1) + [DigitChar(n % 10)]
  }

  function Pow10(w: nat): nat {
    if w == 0 then 1 else 10 * Pow10(w - 1)
  }

  lemma {:induction false} PadNum(n: nat, w: nat)
    requires n < Pow10(w)
    ensures Num(Pad(n, w)) == n
  {
    if w > 0 {
      PadNum(n / 10, w - 1);
      assert Pad(n, w)[..w - 1] == Pad(n / 10, w - 1);
    }
  }

  lemma {:induction false} NumPad(s: string)
    requires AllDigits(s)
    ensures Num(s) < Pow10(|s|) && Pad(Num(s), |s|) == s
  {
    if s != "" {
      NumPad(s[..|s| - 1]);
      assert s == s[..|s| - 1] + [s[|s| - 1]];
    }
  }

  /** Text order on equally long heads decides before the tails are looked at. */
  lemma {:induction false} LessOnConcat(a: string, b: string, c: string, d: string)
    requires |a| == |b|
    ensures Less(a + c, b + d) <==> Less(a, b) || (a == b && Less(c, d))
  {
    if a == "" {
      assert a + c == c && b + d == d;
    } else {
      LessOnConcat(a[1..], b[1..], c, d);
      assert (a + c)[1..] == a[1..] + c && (b + d)[1..] == b[1..] + d;
      assert a == [a[0]] + a[1..] && b == [b[0]] + b[1..];
    }
  }

  /** Equally long runs of digits compare as text the way they compare as numbers. */
  lemma {:induction false} DigitsOrder(a: string, b: string)
    requires |a| == |b| && AllDigits(a) && AllDigits(b)
    ensures Less(a, b) <==> Num(a) < Num(b)
    ensures a == b <==> Num(a) == Num(b)
  {
    if a != "" {
      var n := |a| - 1;
      DigitsOrder(a[..n], b[..n]);
      LessOnConcat(a[..n], b[..n], [a[n]], [b[n]]);
      assert a == a[..n] + [a[n]] && b == b[..n] + [b[n]];
      assert Less([a[n]], [b[n]]) <==> a[n] < b[n];
    }
  }

  // ---- Civil dates and day numbers ------------------------------------------------------------------

  datatype Civil = Civil(year: int, month: int, day: int)

  predicate Leap(y: int) {
    y % 4 == 0 && (y % 100 != 0 || y % 400 == 0)
  }

  function MonthLength(y: int, m: int): int
    requires 1 <= m <= 12
  {
    if m == 2 then (if Leap(y) then 29 else 28)
    else if m == 4 || m == 6 || m == 9 || m == 11 then 30
    else 31
  }

  /** A date that exists. */
  predicate Real(c: Civil) {
    1 <= c.month <= 12 && 1 <= c.day <= MonthLength(c.year, c.month)
  }

  /** Days from 1 January of year 0 to 1 January of year y. */
  function YearStart(y: int): int {
    365 * y + (y + 3) / 4 - (y + 99) / 100 + (y + 399) / 400
  }

  function YearLength(y: int): int {
    if Leap(y) then 366 else 365
  }

  /** Days from 1 January to the first of month m. */
  function MonthStart(y: int, m: int): int
    requires 1 <= m <= 13
    decreases m
  {
    if m == 1 then 0 else MonthStart(y, m - 1) + MonthLength(y, m - 1)
  }

  function DayNumber(c: Civil): int
    requires 1 <= c.month <= 12
  {
    YearStart(c.year) + MonthStart(c.year, c.month) + c.day - 1
  }

  /** Rounding up division steps exactly at the multiples. */
  lemma StepAtMultiples(y: int, k: int)
    requires k > 0
    ensures (y + k) / k == (y + k - 1) / k + if y % k == 0 then 1 else 0
  {
    var q, r := y / k, y % k;
    assert y == q * k + r;
    DivideExactly(y + k, k, q + 1, r);
    if r == 0 {
      DivideExactly(y + k - 1, k, q, k - 1);
    } else {
      DivideExactly(y + k - 1, k, q + 1, r - 1);
    }
  }

  lemma DivideExactly(x: int, k: int, q: int, r: int)
    requires k > 0 && x == q * k + r && 0 <= r < k
    ensures x / k == q && x % k == r
  {
    var d := x / k - q;
    assert x == (x / k) * k + x % k;
    assert d * k == r - x % k;
    assert d >= 1 ==> d * k >= k;
    assert d <= -1 ==> d * k <= -k;
  }

  lemma LeapRules(y: int)
    ensures y % 400 == 0 ==> y % 100 == 0
    ensures y % 100 == 0 ==> y % 4 == 0
  {
    DivideExactly(y, 4, 25 * (y / 100) + y % 100 / 4, y % 100 % 4);
    DivideExactly(y, 100, 4 * (y / 400) + y % 400 / 100, y % 400 % 100);
  }

  lemma YearStartStep(y: int)
    ensures YearStart(y + 1) == YearStart(y) + YearLength(y)
  {
    StepAtMultiples(y, 4);
    StepAtMultiples(y, 100);
    StepAtMultiples(y, 400);
    LeapRules(y);
  }

  lemma {:induction false} YearStartMonotone(y: int, z: int)
    requires y < z
    ensures YearStart(y) + YearLength(y) <= YearStart(z)
    decreases z - y
  {
    YearStartStep(y);
    if y + 1 < z {
      YearStartMonotone(y + 1, z);
    }
  }

  /** The twelve month starts written out, and the year they add up to. */
  lemma MonthStarts(y: int)
    ensures var leap := if Leap(y) then 1 else 0;
            && MonthStart(y, 1) == 0 && MonthStart(y, 2) == 31 && MonthStart(y, 3) == 59 + leap
            && MonthStart(y, 4) == 90 + leap && MonthStart(y, 5) == 120 + leap && MonthStart(y, 6) == 151 + leap
            && MonthStart(y, 7) == 181 + leap && MonthStart(y, 8) == 212 + leap && MonthStart(y, 9) == 243 + leap
            && MonthStart(y, 10) == 273 + leap && MonthStart(y, 11) == 304 + leap && MonthStart(y, 12) == 334 + leap
            && MonthStart(y, 13) == YearLength(y)
  {
    assert MonthStart(y, 3) == MonthStart(y, 2) + MonthLength(y, 2);
    assert MonthStart(y, 5) == MonthStart(y, 4) + MonthLength(y, 4);
    assert MonthStart(y, 7) == MonthStart(y, 6) + MonthLength(y, 6);
    assert MonthStart(y, 9) == MonthStart(y, 8) + MonthLength(y, 8);
    assert MonthStart(y, 11) == MonthStart(y, 10) + MonthLength(y, 10);
    assert MonthStart(y, 13) == MonthStart(y, 12) + MonthLength(y, 12);
  }

  lemma {:induction false} MonthStartMonotone(y: int, m: int, n: int)
    requires 1 <= m < n <= 13
    ensures MonthStart(y, m) + MonthLength(y, m) <= MonthStart(y, n)
    decreases n - m
  {
    if m + 1 < n {
      MonthStartMonotone(y, m, n - 1);
    }
  }

  /** The largest year that starts on or before day n, looked for from year y (ECMAScript YearFromTime). */
  function YearFrom(n: int, y: int): (r: int)
    ensures YearStart(r) <= n < YearStart(r) + YearLength(r)
    decreases if n < YearStart(y) then YearStart(y) - n
              else if n >= YearStart(y) + YearLength(y) then n - YearStart(y) - YearLength(y) + 1
              else 0
  {
    YearStartStep(y - 1);
    YearStartStep(y);
    if n < YearStart(y) then YearFrom(n, y - 1)
    else if n >= YearStart(y) + YearLength(y) then YearFrom(n, y + 1)
    else y
  }

  /** The month of year y that day r of the year falls in, looked for downwards from m. */
  function MonthFrom(y: int, r: int, m: int): (k: int)
    requires 1 <= m <= 12 && 0 <= r < MonthStart(y, m) + MonthLength(y, m)
    ensures 1 <= k <= 12 && MonthStart(y, k) <= r < MonthStart(y, k) + MonthLength(y, k)
    decreases m
  {
    if MonthStart(y, m) <= r then m else MonthFrom(y, r, m - 1)
  }

  /** The civil date of day n. */
  function CivilOf(n: int): (c: Civil)
    ensures Real(c) && DayNumber(c) == n
  {
    var y := YearFrom(n, 1970);
    MonthStarts(y);
    var r := n - YearStart(y);
    var m := MonthFrom(y, r, 12);
    Civil(y, m, r - MonthStart(y, m) + 1)
  }

  /** `a` comes before `b` field by field. */
  predicate Before(a: Civil, b: Civil) {
    || a.year < b.year
    || (a.year == b.year && (a.month < b.month || (a.month == b.month && a.day < b.day)))
  }

  lemma DayInYear(c: Civil)
    requires Real(c)
    ensures YearStart(c.year) <= DayNumber(c) < YearStart(c.year) + YearLength(c.year)
    ensures YearStart(c.year) + MonthStart(c.year, c.month) <= DayNumber(c)
            < YearStart(c.year) + MonthStart(c.year, c.month) + MonthLength(c.year, c.month)
  {
    MonthStarts(c.year);
  }

  lemma BeforeMeansEarlier(a: Civil, b: Civil)
    requires Real(a) && Real(b) && Before(a, b)
    ensures DayNumber(a) < DayNumber(b)
  {
    DayInYear(a);
    DayInYear(b);
    if a.year < b.year {
      YearStartMonotone(a.year, b.year);
    } else if a.month < b.month {
      MonthStartMonotone(a.year, a.month, b.month);
    }
  }

  /** Real dates and day numbers correspond one to one, in order. */
  lemma DayOrder(a: Civil, b: Civil)
    requires Real(a) && Real(b)
    ensures Before(a, b) <==> DayNumber(a) < DayNumber(b)
    ensures a == b <==> DayNumber(a) == DayNumber(b)
  {
    if Before(a, b) {
      BeforeMeansEarlier(a, b);
    } else if Before(b, a) {
      BeforeMeansEarlier(b, a);
    }
  }

  lemma CivilOfDay(c: Civil)
    requires Real(c)
    ensures CivilOf(DayNumber(c)) == c
  {
    DayOrder(CivilOf(DayNumber(c)), c);
  }

  /** The dates that exist, by the rules of the Gregorian calendar. */
  lemma RealIff(y: int, m: int, d: int)
    ensures Real(Civil(y, m, d)) <==>
              && 1 <= m <= 12 && 1 <= d <= 31
              && (m in {4, 6, 9, 11} ==> d <= 30)
              && (m == 2 ==> d <= 28 || (d == 29 && y % 4 == 0 && (y % 100 == 0 ==> y % 400 == 0)))
  {
  }

  /** Day numbers count dates one by one, through a month, into the next month, and from 31 December to 1 January. */
  lemma DaysAreConsecutive(y: int, m: int, d: int)
    requires 1 <= m <= 12
    ensures DayNumber(Civil(y, m, d + 1)) == DayNumber(Civil(y, m, d)) + 1
    ensures m < 12 ==> DayNumber(Civil(y, m + 1, 1)) == DayNumber(Civil(y, m, MonthLength(y, m))) + 1
    ensures DayNumber(Civil(y + 1, 1, 1)) == DayNumber(Civil(y, 12, 31)) + 1
    ensures DayNumber(Civil(0, 1, 1)) == 0
  {
    hide YearStart, YearLength, Leap;
    YearStartStep(y);
    MonthStarts(y);
    FirstDay();
  }

  lemma FirstDay()
    ensures DayNumber(Civil(0, 1, 1)) == 0
  {
  }

  /** ECMAScript MakeDay with a one-based month: overflowing months and days roll over. */
  function MakeDay(y: int, m: int, d: int): int {
    DayNumber(Civil(y + (m - 1) / 12, (m - 1) % 12 + 1, 1)) + d - 1
  }

  lemma MakeDayInYear(y: int, m: int, d: int)
    requires 1 <= m <= 12
    ensures MakeDay(y, m, d) == DayNumber(Civil(y, m, d))
  {
    hide CivilOf, YearStart, MonthStart;
    assert (m - 1) / 12 == 0 && (m - 1) % 12 == m - 1;
  }

  /** Building a date and reading its fields back returns them exactly for the dates that exist. */
  lemma RoundTripAcceptsRealDates(y: int, m: int, d: int)
    ensures CivilOf(MakeDay(y, m, d)) == Civil(y, m, d) <==> Real(Civil(y, m, d))
  {
    hide MakeDay, DayNumber;
    if Real(Civil(y, m, d)) {
      MakeDayInYear(y, m, d);
      CivilOfDay(Civil(y, m, d));
    }
  }

  // ---- ISO strings ----------------------------------------------------------------------------------

  /** `/^\d{4}-\d{2}-\d{2}$/` */
  predicate IsoShape(s: string) {
    |s| == 10 && s[4] == '-' && s[7] == '-' && AllDigits(s[..4]) && AllDigits(s[5..7]) && AllDigits(s[8..])
  }

  /** The shape, character by character. */
  lemma IsoShapeIff(s: string)
    ensures IsoShape(s) <==> |s| == 10 && forall i | 0 <= i < 10 ::
                               if i == 4 || i == 7 then s[i] == '-' else '0' <= s[i] <= '9'
  {
    if IsoShape(s) {
      forall i | 0 <= i < 10 && i != 4 && i != 7
        ensures '0' <= s[i] <= '9'
      {
        if i < 4 {
          assert s[i] == s[..4][i];
        } else if i < 7 {
          assert s[i] == s[5..7][i - 5];
        } else {
          assert s[i] == s[8..][i - 8];
        }
      }
    }
  }

  function ReadIso(s: string): Civil
    requires IsoShape(s)
  {
    Civil(Num(s[..4]), Num(s[5..7]), Num(s[8..]))
  }

  /** `toISOString().slice(0, 10)`: years outside 0000-9999 carry a sign and six digits. */
  function IsoSlice(c: Civil): string
    requires Real(c)
  {
    if 0 <= c.year <= 9999 then Pad(c.year, 4) + "-" + Pad(c.month, 2) + "-" + Pad(c.day, 2)
    else if c.year > 9999 then "+" + Pad(c.year, 6) + "-" + Pad(c.month, 2)
    else "-" + Pad(-c.year, 6) + "-" + Pad(c.month, 2)
  }

  /** A string that names a date that exists. */
  predicate RealIso(s: string) {
    IsoShape(s) && Real(ReadIso(s))
  }

  function DayOf(s: string): int
    requires RealIso(s)
  {
    DayNumber(ReadIso(s))
  }

  lemma IsoOfCivil(c: Civil)
    requires Real(c) && 0 <= c.year <= 9999
    ensures RealIso(IsoSlice(c)) && ReadIso(IsoSlice(c)) == c && DayOf(IsoSlice(c)) == DayNumber(c)
  {
    var s := IsoSlice(c);
    assert Pow10(4) == 10000 && Pow10(2) == 100;
    assert s[..4] == Pad(c.year, 4) && s[5..7] == Pad(c.month, 2) && s[8..] == Pad(c.day, 2);
    PadNum(c.year, 4);
    PadNum(c.month, 2);
    PadNum(c.day, 2);
  }

  lemma CivilOfIso(s: string)
    requires RealIso(s)
    ensures 0 <= ReadIso(s).year <= 9999 && IsoSlice(ReadIso(s)) == s
  {
    NumPad(s[..4]);
    NumPad(s[5..7]);
    NumPad(s[8..]);
    assert Pow10(4) == 10000;
    assert s == s[..4] + "-" + s[5..7] + "-" + s[8..];
  }

  /** On dates that exist, text order is day order: comparing strings is comparing dates. */
  lemma TextOrderIsDayOrder(a: string, b: string)
    requires RealIso(a) && RealIso(b)
    ensures Less(a, b) <==> DayOf(a) < DayOf(b)
    ensures a == b <==> DayOf(a) == DayOf(b)
  {
    var c, d := ReadIso(a), ReadIso(b);
    LessBySplitting(a, b);
    DigitsOrder(a[..4], b[..4]);
    DigitsOrder(a[5..7], b[5..7]);
    DigitsOrder(a[8..], b[8..]);
    assert Less(a, b) <==> Before(c, d);
    CivilOfIso(a);
    CivilOfIso(b);
    DayOrder(c, d);
  }

  lemma LessBySplitting(a: string, b: string)
    requires IsoShape(a) && IsoShape(b)
    ensures Less(a, b) <==>
            || Less(a[..4], b[..4])
            || (a[..4] == b[..4] && (Less(a[5..7], b[5..7]) || (a[5..7] == b[5..7] && Less(a[8..], b[8..]))))
  {
    assert a == a[..4] + ("-" + (a[5..7] + ("-" + a[8..])));
    assert b == b[..4] + ("-" + (b[5..7] + ("-" + b[8..])));
    LessOnConcat(a[..4], b[..4], "-" + (a[5..7] + ("-" + a[8..])), "-" + (b[5..7] + ("-" + b[8..])));
    LessOnConcat("-", "-", a[5..7] + ("-" + a[8..]), b[5..7] + ("-" + b[8..]));
    LessOnConcat(a[5..7], b[5..7], "-" + a[8..], "-" + b[8..]);
    LessOnConcat("-", "-", a[8..], b[8..]);
    assert !Less("-", "-");
  }

  // ---- The date helpers -----------------------------------------------------------------------------

  const MS_PER_NIGHT := 86_400_000

  /** `Date.parse(s + 'T00:00:00Z')`, in milliseconds from 1 January 1970. */
  function ParseUtc(s: string): int
    requires RealIso(s)
  {
    (DayOf(s) - YearStart(1970)) * MS_PER_NIGHT
  }

  /** `Math.round(x / y)`: half rounds up. */
  function RoundDiv(x: int, y: int): int
    requires y > 0
  {
    (2 * x + y) / (2 * y)
  }

  function CountNights(from: string, to: string): int
    requires RealIso(from) && RealIso(to)
  {
    RoundDiv(ParseUtc(to) - ParseUtc(from), MS_PER_NIGHT)
  }

  /** The night before a check-out day. */
  function LastNightOf(to: string): string
    requires RealIso(to)
  {
    IsoSlice(CivilOf((ParseUtc(to) - MS_PER_NIGHT) / MS_PER_NIGHT + YearStart(1970)))
  }

  /** `Date.UTC(y, m - 1, d + 1)`: the year argument maps 0-99 to 1900-1999. */
  function AddOneDay(iso: string): string
    requires IsoShape(iso)
  {
    var c := ReadIso(iso);
    var y := if c.year <= 99 then 1900 + c.year else c.year;
    IsoSlice(CivilOf(MakeDay(y, c.month, c.day + 1)))
  }

  lemma NightsAreDays(from: string, to: string)
    requires RealIso(from) && RealIso(to)
    ensures CountNights(from, to) == DayOf(to) - DayOf(from)
  {
  }

  /** Nights add up over adjoining windows and are positive exactly when the window is in order. */
  lemma NightsAddUp(from: string, mid: string, to: string)
    requires RealIso(from) && RealIso(mid) && RealIso(to)
    ensures CountNights(from, mid) + CountNights(mid, to) == CountNights(from, to)
    ensures CountNights(from, to) > 0 <==> Less(from, to)
  {
    NightsAreDays(from, mid);
    NightsAreDays(mid, to);
    NightsAreDays(from, to);
    TextOrderIsDayOrder(from, to);
  }

  /** The next day's text. */
  function NextDay(iso: string): string
    requires RealIso(iso)
  {
    IsoSlice(CivilOf(DayOf(iso) + 1))
  }

  /** A day within the year, or just past its end, is dated in that year or the next. */
  lemma NearbyYear(n: int, y: int)
    requires YearStart(y) <= n <= YearStart(y) + 366
    ensures y <= CivilOf(n).year <= y + 1
  {
    var c := CivilOf(n);
    DayInYear(c);
    YearStartStep(y);
    YearStartStep(y + 1);
    if c.year < y {
      YearStartMonotone(c.year, y);
    } else if c.year > y + 1 {
      YearStartMonotone(y + 1, c.year);
    }
  }

  /** One past a date that exists, as `Date.UTC` computes it, is the next day. */
  lemma MakeNextDay(y: int, c: Civil)
    requires 1 <= c.month <= 12 && 1 <= c.day <= 31
    ensures MakeDay(y, c.month, c.day + 1) == DayNumber(Civil(y, c.month, c.day)) + 1
    ensures YearStart(y) <= MakeDay(y, c.month, c.day + 1) <= YearStart(y) + 366
  {
    assert (c.month - 1) / 12 == 0;
    MonthStarts(y);
  }

  /** Years 0000 to 0099 are misread as 1900 to 1999; every later date advances by exactly one day. */
  lemma AddOneDayIff(iso: string)
    requires RealIso(iso)
    ensures AddOneDay(iso) == NextDay(iso) <==> ReadIso(iso).year >= 100
  {
    hide CivilOf, YearStart, MonthStart, MakeDay, IsoSlice, IsoShape;
    var c := ReadIso(iso);
    CivilOfIso(iso);
    MakeNextDay(c.year, c);
    if c.year < 100 {
      MakeNextDay(1900 + c.year, c);
      var m, n := MakeDay(1900 + c.year, c.month, c.day + 1), DayOf(iso) + 1;
      NearbyYear(m, 1900 + c.year);
      NearbyYear(n, c.year);
      IsoOfCivil(CivilOf(m));
      IsoOfCivil(CivilOf(n));
    }
  }

  lemma LastNightIsPreviousDay(iso: string)
    requires RealIso(iso)
    ensures LastNightOf(iso) == IsoSlice(CivilOf(DayOf(iso) - 1))
  {
    assert (ParseUtc(iso) - MS_PER_NIGHT) / MS_PER_NIGHT + YearStart(1970) == DayOf(iso) - 1;
  }

  /** The text of day n, when that day lies in the years 0000 to 9999. */
  lemma IsoOfDay(n: int)
    requires 0 <= n < YearStart(10000)
    ensures RealIso(IsoSlice(CivilOf(n))) && DayOf(IsoSlice(CivilOf(n))) == n
    ensures n >= YearStart(100) ==> ReadIso(IsoSlice(CivilOf(n))).year >= 100
  {
    hide CivilOf, MonthStart, IsoSlice, IsoShape;
    var c := CivilOf(n);
    DayInYear(c);
    if c.year < 0 {
      YearStartMonotone(c.year, 0);
    } else if c.year > 9999 {
      if c.year > 10000 {
        YearStartMonotone(10000, c.year);
      }
    }
    if n >= YearStart(100) && c.year < 100 {
      YearStartMonotone(c.year, 100);
    }
    IsoOfCivil(c);
  }

  /**
   * Stepping a day forward and back are inverse: the last night of a stay that ends the day after a date
   * is that date, and the day after a stay's last night is its end.
   */
  lemma DayStepsAreInverse(iso: string)
    requires RealIso(iso)
    ensures YearStart(100) <= DayOf(iso) < YearStart(10000) - 1 ==>
              RealIso(AddOneDay(iso)) && LastNightOf(AddOneDay(iso)) == iso
    ensures YearStart(100) < DayOf(iso) ==>
              RealIso(LastNightOf(iso)) && AddOneDay(LastNightOf(iso)) == iso
  {
    hide CivilOf, YearStart, MonthStart, IsoSlice, IsoShape, AddOneDay, LastNightOf;
    var n := DayOf(iso);
    DayRange(iso);
    CivilOfIso(iso);
    CivilOfDay(ReadIso(iso));
    if YearStart(100) <= n < YearStart(10000) - 1 {
      IsoOfDay(n);
      AddOneDayIff(iso);
      IsoOfDay(n + 1);
      LastNightIsPreviousDay(AddOneDay(iso));
    }
    if YearStart(100) < n {
      LastNightIsPreviousDay(iso);
      IsoOfDay(n - 1);
      AddOneDayIff(LastNightOf(iso));
    }
  }

  lemma DayRange(iso: string)
    requires RealIso(iso)
    ensures 0 <= DayOf(iso) < YearStart(10000) && 0 < YearStart(100)
  {
    var c := ReadIso(iso);
    CivilOfIso(iso);
    DayInYear(c);
    YearStartMonotone(c.year, 10000);
    if 0 < c.year {
      YearStartMonotone(0, c.year);
    }
  }
}
