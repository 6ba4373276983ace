/**
 The calendar arithmetic of the stage markers (`chrono_now` in `tools/domo-bootstrap/src/state.rs`),
 compared with a calendar that steps one day at a time. The clock reading is a parameter.
 */
module Calendar {

  type u64 = n: nat | n < 0x1_0000_0000_0000_0000

  const I64_MAX := 0x7fff_ffff_ffff_ffff

  datatype Date = Date(year: int, month: int, day: int)

  // ---------------------------------------------------------------- the closed form

  function YearOfEra(doe: int): int {
    (doe - doe / 1460 + doe / 36524 - doe / 146096) / 365
  }

  function DayOfYear(doe: int): int {
    var yoe := YearOfEra(doe);
    doe - (365 * yoe + yoe / 4 - yoe / 100)
  }

  function MarchMonth(doy: int): int { (5 * doy + 2) / 153 }

  function DayOfMonth(doy: int): int { doy - (153 * MarchMonth(doy) + 2) / 5 + 1 }

  function MonthOfYear(doy: int): int {
    var mp := MarchMonth(doy);
    if mp < 10 then mp + 3 else mp - 9
  }

  /** The date a day of a year counted from March falls on. */
  function MarchDate(year: int, doy: int): Date {
    var m := MonthOfYear(doy);
    Date(if m <= 2 then year + 1 else year, m, DayOfMonth(doy))
  }

  /** The civil date of a day number, day 0 being the first of the Unix epoch. */
  function Civil(days: int): Date {
    var z := days + 719468;
    var era, doe := z / 146097, z % 146097;
    MarchDate(YearOfEra(doe) + era * 400, DayOfYear(doe))
  }

  // ---------------------------------------------------------------- the plain calendar

  predicate Leap(year: int) { year % 4 == 0 && (year % 100 != 0 || year % 400 == 0) }

  function DaysIn(year: int, month: int): int {
    if month == 2 then (if Leap(year) then 29 else 28)
    else if month in {4, 6, 9, 11} then 30
    else 31
  }

  function NextDay(d: Date): Date {
    if d.day < DaysIn(d.year, d.month) then d.(day := d.day + 1)
    else if d.month < 12 then Date(d.year, d.month + 1, 1)
    else Date(d.year + 1, 1, 1)
  }

  /** The date reached by stepping `n` days from 1970-01-01. */
  function ByDays(n: nat): Date {
    if n == 0 then Date(1970, 1, 1) else NextDay(ByDays(n - 1))
  }

  // ---------------------------------------------------------------- their agreement

  /** A year here runs from March, so the leap day is its last. */
  function YearLength(c: int, q: int, r: int): int {
    if r == 3 && (q < 24 || c == 3) then 366 else 365
  }

  /** Centuries, four-year groups, years and days of an era: what the divisions have to recover. */
  predicate Counts(doe: int, c: int, q: int, r: int, doy: int) {
    && doe == 36524 * c + 1461 * q + 365 * r + doy
    && 0 <= c <= 3 && 0 <= q <= 24 && 0 <= r <= 3 && 0 <= doy < YearLength(c, q, r)
  }

  lemma CountsExist(doe: int) returns (c: int, q: int, r: int, doy: int)
    requires 0 <= doe < 146097
    ensures Counts(doe, c, q, r, doy)
  {
    c := if doe < 3 * 36524 then doe / 36524 else 3;
    var inCentury := doe - 36524 * c;
    q := inCentury / 1461;
    var inGroup := inCentury - 1461 * q;
    r := if inGroup < 3 * 365 then inGroup / 365 else 3;
    doy := inGroup - 365 * r;
  }

  lemma DivisionsRecoverCounts(doe: int, c: int, q: int, r: int, doy: int)
    requires Counts(doe, c, q, r, doy)
    ensures YearOfEra(doe) == 100 * c + 4 * q + r && DayOfYear(doe) == doy
  {
    var t := if 24 * c + q + 365 * r + doy >= 1460 then 1 else 0;
    assert doe == 1460 * (25 * c + q) + (24 * c + q + 365 * r + doy);
    assert doe / 1460 == 25 * c + q + t;
    assert doe / 36524 - doe / 146096 == c by {
      if doe == 146096 {
        assert c == 3;
      } else {
        assert 0 <= 1461 * q + 365 * r + doy < 36524;
        assert doe / 36524 == c;
      }
    }
    assert doe - doe / 1460 + c == 365 * (100 * c + 4 * q + r) + (doy - t);
    assert 0 <= doy - t < 365;
    var yoe := 100 * c + 4 * q + r;
    assert yoe / 4 == 25 * c + q;
    assert yoe / 100 == c;
  }

  /** The length of the year that starts in March of `year`: its February is the next year's. */
  function MarchYearLength(year: int): int {
    if Leap(year + 1) then 366 else 365
  }

  /** Within a year from March, a day is followed by the next of its month or the first of the next month. */
  lemma NextDayOfYear(doy: int)
    requires 0 <= doy < 365
    ensures var m, d := MonthOfYear(doy), DayOfMonth(doy);
            && 1 <= m <= 12 && (m == 2 ==> d <= 28 && (d == 28 ==> doy == 364))
            && if MonthOfYear(doy + 1) == m then DayOfMonth(doy + 1) == d + 1 && (m != 2 ==> d < DaysIn(0, m))
               else m != 2 && DayOfMonth(doy + 1) == 1 && d == DaysIn(0, m) && MonthOfYear(doy + 1) == m % 12 + 1
  {
  }

  lemma LastDayOfYear(doy: int)
    requires doy == 364 || doy == 365
    ensures MonthOfYear(doy) == 2 && DayOfMonth(doy) == doy - 336 && MonthOfYear(0) == 3 && DayOfMonth(0) == 1
  {
  }

  lemma OtherMonthsAreFixed(year: int, m: int)
    requires m != 2
    ensures DaysIn(year, m) == DaysIn(0, m)
  {
  }

  lemma MarchDateStep(year: int, doy: int)
    requires 0 <= doy < MarchYearLength(year)
    ensures NextDay(MarchDate(year, doy)) ==
            if doy + 1 < MarchYearLength(year) then MarchDate(year, doy + 1) else MarchDate(year + 1, 0)
  {
    var here := MarchDate(year, doy);
    if doy + 1 < MarchYearLength(year) {
      NextDayOfYear(doy);
      if here.month != 2 {
        OtherMonthsAreFixed(here.year, here.month);
      }
    } else {
      LastDayOfYear(doy);
    }
  }

  function YearOf(era: int, c: int, q: int, r: int): int { 100 * c + 4 * q + r + era * 400 }

  lemma WholeFours(n: int, q: int, rest: int)
    requires n == 4 * q + rest && 1 <= rest <= 4
    ensures n % 4 == 0 <==> rest == 4
  {
  }

  lemma WholeCenturies(n: int, q: int, rest: int)
    requires n == 100 * q + rest && 1 <= rest <= 100
    ensures n % 100 == 0 <==> rest == 100
  {
  }

  lemma WholeEras(n: int, q: int, rest: int)
    requires n == 400 * q + rest && 1 <= rest <= 400
    ensures n % 400 == 0 <==> rest == 400
  {
  }

  /** Leap by what is left over of fours, centuries and eras, each counted from one. */
  lemma LeapByRemainders(year: int, inFour: int, inCentury: int, inEra: int)
    requires year % 4 == 0 <==> inFour == 4
    requires year % 100 == 0 <==> inCentury == 100
    requires year % 400 == 0 <==> inEra == 400
    ensures Leap(year) <==> inFour == 4 && (inCentury != 100 || inEra == 400)
  {
  }

  lemma NextYearIsLeap(era: int, c: int, q: int, r: int, year: int)
    requires 0 <= c <= 3 && 0 <= q <= 24 && 0 <= r <= 3 && year == YearOf(era, c, q, r) + 1
    ensures Leap(year) <==> r == 3 && (q < 24 || c == 3)
  {
    WholeFours(year, 25 * c + q + 100 * era, r + 1);
    WholeCenturies(year, c + 4 * era, 4 * q + r + 1);
    WholeEras(year, era, 100 * c + 4 * q + r + 1);
    LeapByRemainders(year, r + 1, 4 * q + r + 1, 100 * c + 4 * q + r + 1);
  }

  lemma MarchLengthOf(era: int, c: int, q: int, r: int)
    requires 0 <= c <= 3 && 0 <= q <= 24 && 0 <= r <= 3
    ensures MarchYearLength(YearOf(era, c, q, r)) == YearLength(c, q, r)
  {
    NextYearIsLeap(era, c, q, r, YearOf(era, c, q, r) + 1);
  }

  /** The counts tick over like an odometer; `turn` says whether a new era starts. */
  lemma CountsStep(doe: int, c: int, q: int, r: int, doy: int) returns (turn: int, c': int, q': int, r': int, doy': int)
    requires Counts(doe, c, q, r, doy)
    ensures turn == (if doe == 146096 then 1 else 0)
    ensures Counts(if turn == 1 then 0 else doe + 1, c', q', r', doy')
    ensures if doy + 1 < YearLength(c, q, r) then turn == 0 && c' == c && q' == q && r' == r && doy' == doy + 1
            else 100 * c' + 4 * q' + r' + 400 * turn == 100 * c + 4 * q + r + 1 && doy' == 0
  {
    turn := if doe == 146096 then 1 else 0;
    if doy + 1 < YearLength(c, q, r) {
      c', q', r', doy' := c, q, r, doy + 1;
    } else if doe == 146096 {
      c', q', r', doy' := 0, 0, 0, 0;
    } else if r < 3 {
      c', q', r', doy' := c, q, r + 1, 0;
    } else if q < 24 {
      c', q', r', doy' := c, q + 1, 0, 0;
    } else {
      c', q', r', doy' := c + 1, 0, 0, 0;
    }
  }

  /** `f` gives the date that the counts of a day number name. */
  ghost predicate ReadsCounts(f: nat -> Date) {
    forall n: nat, era, doe, c, q, r, doy :: n + 719468 == 146097 * era + doe && Counts(doe, c, q, r, doy) ==>
      f(n) == MarchDate(YearOf(era, c, q, r), doy)
  }

  lemma CountsInEra(doe: int, c: int, q: int, r: int, doy: int)
    requires Counts(doe, c, q, r, doy)
    ensures 0 <= doe < 146097
  {
  }

  lemma CivilAt(n: nat, era: int, doe: int, c: int, q: int, r: int, doy: int)
    requires n + 719468 == 146097 * era + doe && Counts(doe, c, q, r, doy)
    ensures Civil(n) == MarchDate(YearOf(era, c, q, r), doy)
  {
    CountsInEra(doe, c, q, r, doy);
    var z := n + 719468;
    assert z / 146097 == era && z % 146097 == doe;
    DivisionsRecoverCounts(doe, c, q, r, doy);
  }

  lemma StepsLikeTheCalendar(f: nat -> Date, n: nat)
    requires ReadsCounts(f)
    ensures f(n + 1) == NextDay(f(n))
  {
    var z := n + 719468;
    var era, doe := z / 146097, z % 146097;
    var c, q, r, doy := CountsExist(doe);
    var turn, c', q', r', doy' := CountsStep(doe, c, q, r, doy);
    assert f(n) == MarchDate(YearOf(era, c, q, r), doy);
    var doe' := if turn == 1 then 0 else doe + 1;
    assert n + 1 + 719468 == 146097 * (era + turn) + doe';
    assert f(n + 1) == MarchDate(YearOf(era + turn, c', q', r'), doy');
    MarchLengthOf(era, c, q, r);
    MarchDateStep(YearOf(era, c, q, r), doy);
  }

  lemma {:induction false} SteppingIsByDays(f: nat -> Date, n: nat)
    requires f(0) == Date(1970, 1, 1) && ReadsCounts(f)
    ensures f(n) == ByDays(n)
  {
    if n > 0 {
      SteppingIsByDays(f, n - 1);
      StepsLikeTheCalendar(f, n - 1);
    }
  }

  lemma EpochDay()
    ensures Civil(0) == Date(1970, 1, 1)
  {
    CivilAt(0, 4, 135080, 3, 17, 1, 306);
    assert MonthOfYear(306) == 1 && DayOfMonth(306) == 1;
  }

  /** The closed form is the calendar, on every day from the epoch on. */
  lemma CivilIsTheCalendar(n: nat)
    ensures Civil(n) == ByDays(n)
  {
    EpochDay();
    var f: nat -> Date := (k: nat) => Civil(k);
    forall n: nat, era, doe, c, q, r, doy | n + 719468 == 146097 * era + doe && Counts(doe, c, q, r, doy)
      ensures f(n) == MarchDate(YearOf(era, c, q, r), doy)
    {
      CivilAt(n, era, doe, c, q, r, doy);
    }
    SteppingIsByDays(f, n);
  }

  predicate ValidDate(d: Date) {
    d.year >= 1970 && 1 <= d.month <= 12 && 1 <= d.day <= DaysIn(d.year, d.month)
  }

  lemma {:induction false} SteppedDatesAreValid(n: nat)
    ensures ValidDate(ByDays(n))
  {
    if n > 0 {
      SteppedDatesAreValid(n - 1);
    }
  }

  /** Every date the closed form gives is a date of the calendar. */
  lemma DatesAreValid(n: nat)
    ensures ValidDate(Civil(n))
  {
    CivilIsTheCalendar(n);
    SteppedDatesAreValid(n);
  }

  lemma MonthInRange(doy: int)
    requires 0 <= doy < 366
    ensures 0 <= MarchMonth(doy) <= 11 && 1 <= DayOfMonth(doy) <= 31 && 1 <= MonthOfYear(doy) <= 12
  {
  }

  /**
   For every 64-bit clock reading the day number converts, and every value of the computation, with
   every product and sum on the way to it, is inside the signed 64-bit range.
   */
  lemma NothingOverflows(secs: u64)
    ensures var z := secs / 86400 + 719468;
            var era, doe := z / 146097, z % 146097;
            var yoe, doy := YearOfEra(doe), DayOfYear(doe);
            var mp := MarchMonth(doy);
            && secs / 86400 <= I64_MAX && z <= I64_MAX
            && 0 <= era && era * 400 + yoe + 1 <= I64_MAX
            && 0 <= doe < 146097 && 0 <= doe - doe / 1460 && 0 <= doe - doe / 1460 + doe / 36524 <= I64_MAX
            && 0 <= yoe < 400 && 0 <= 365 * yoe + yoe / 4 <= I64_MAX
            && 0 <= doy < 366 && 0 <= mp <= 11 && 153 * mp + 2 <= I64_MAX
            && 1 <= DayOfMonth(doy) <= 31 && 1 <= MonthOfYear(doy) <= 12
  {
    var z := secs / 86400 + 719468;
    var doe := z % 146097;
    var c, q, r, doy := CountsExist(doe);
    DivisionsRecoverCounts(doe, c, q, r, doy);
    MonthInRange(doy);
  }
}
