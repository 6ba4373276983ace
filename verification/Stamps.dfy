/**
 The stage markers' time stamps (`chrono_now` in `tools/domo-bootstrap/src/state.rs`): their length,
 order and meaning.
 */
module Stamps {
  import opened Calendar

  function Digit(n: int): char
    requires 0 <= n < 10
  {
    '0' + n as char
  }

  function Digits(n: nat): (s: string)
    ensures |s| >= 1
  {
    if n < 10 then [Digit(n)] else Digits(n / 10) + [Digit(n % 10)]
  }

  function Zeros(n: nat): string {
    if n == 0 then "" else "0" + Zeros(n - 1)
  }

  /** Decimal, padded with zeros on the left to at least `width`. */
  function Padded(n: nat, width: nat): string {
    var s := Digits(n);
    if |s| >= width then s else Zeros(width - |s|) + s
  }

  function TimeText(h: nat, m: nat, s: nat): string {
    Padded(h, 2) + (":" + (Padded(m, 2) + (":" + (Padded(s, 2) + "Z"))))
  }

  function AfterYear(d: Date, time: string): string
    requires ValidDate(d)
  {
    "-" + (Padded(d.month, 2) + ("-" + (Padded(d.day, 2) + ("T" + time))))
  }

  function DateTimeText(d: Date, time: string): string
    requires ValidDate(d)
  {
    Padded(d.year, 4) + AfterYear(d, time)
  }

  function TimeOfDay(tod: nat): string {
    TimeText(tod / 3600, tod % 3600 / 60, tod % 60)
  }

  /** The marker's time stamp for a clock reading. */
  function Stamp(secs: u64): string {
    DatesAreValid(secs / 86400);
    DateTimeText(Civil(secs / 86400), TimeOfDay(secs % 86400))
  }

  lemma TwoDigits(n: nat)
    requires n < 100
    ensures Padded(n, 2) == [Digit(n / 10), Digit(n % 10)]
  {
    if n < 10 {
      assert Zeros(1) == "0";
      assert Padded(n, 2) == "0" + [Digit(n)];
    } else {
      assert Digits(n / 10) == [Digit(n / 10)];
    }
  }

  lemma FourDigits(n: nat)
    requires 1000 <= n < 10000
    ensures Padded(n, 4) == Padded(n / 100, 2) + Padded(n % 100, 2) && |Padded(n, 4)| == 4
  {
    var t := n / 10;
    var h := n / 100;
    TwoDigits(h);
    TwoDigits(n % 100);
    assert Digits(h) == Digits(h / 10) + [Digit(h % 10)];
    assert t / 10 == h && t % 10 == n % 100 / 10 && n % 10 == n % 100 % 10;
    assert Digits(t) == Digits(h) + [Digit(t % 10)];
    assert Digits(n) == Digits(t) + [Digit(n % 10)];
  }

  function Power10(width: nat): nat {
    if width == 0 then 1 else 10 * Power10(width - 1)
  }

  lemma {:induction false} MoreDigits(n: nat, width: nat)
    requires n >= Power10(width)
    ensures |Digits(n)| >= width + 1
  {
    if width > 0 {
      MoreDigits(n / 10, width - 1);
    }
  }

  lemma TimeTextLength(tod: nat)
    requires tod < 86400
    ensures |TimeOfDay(tod)| == 9
  {
    TwoDigits(tod / 3600);
    TwoDigits(tod % 3600 / 60);
    TwoDigits(tod % 60);
  }

  lemma TextLength(d: Date, time: string)
    requires ValidDate(d) && |time| == 9
    ensures |DateTimeText(d, time)| == 20 <==> d.year <= 9999
  {
    TwoDigits(d.month);
    TwoDigits(d.day);
    if d.year <= 9999 {
      FourDigits(d.year);
      TwoDigits(d.year / 100);
      TwoDigits(d.year % 100);
    } else {
      assert Power10(4) == 10000 by {
        assert Power10(1) == 10 && Power10(2) == 100 && Power10(3) == 1000;
      }
      MoreDigits(d.year, 4);
    }
  }

  /** The string is RFC 3339's 20 characters exactly while the year has four digits. */
  lemma TwentyCharactersExactly(secs: u64)
    ensures |Stamp(secs)| == 20 <==> ByDays(secs / 86400).year <= 9999
  {
    CivilIsTheCalendar(secs / 86400);
    SteppedDatesAreValid(secs / 86400);
    TimeTextLength(secs % 86400);
    TextLength(ByDays(secs / 86400), TimeOfDay(secs % 86400));
  }

  /** Dictionary order on character codes. */
  predicate Before(a: string, b: string) {
    b != "" && (a == "" || a[0] < b[0] || (a[0] == b[0] && Before(a[1..], b[1..])))
  }

  lemma {:induction false} BeforeAtHead(a: string, b: string, x: string, y: string)
    requires |a| == |b| && Before(a, b)
    ensures Before(a + x, b + y)
  {
    if a[0] == b[0] {
      BeforeAtHead(a[1..], b[1..], x, y);
      assert (a + x)[1..] == a[1..] + x && (b + y)[1..] == b[1..] + y;
    }
  }

  lemma {:induction false} BeforeAtTail(a: string, x: string, y: string)
    requires Before(x, y)
    ensures Before(a + x, a + y)
  {
    if a == "" {
      assert a + x == x && a + y == y;
    } else {
      BeforeAtTail(a[1..], x, y);
      assert (a + x)[1..] == a[1..] + x && (a + y)[1..] == a[1..] + y;
    }
  }

  lemma {:induction false} BeforeIsStrict(a: string, b: string)
    ensures !(Before(a, b) && Before(b, a)) && !Before(a, a)
  {
    if a != "" {
      BeforeIsStrict(a[1..], if b == "" then "" else b[1..]);
    }
  }

  lemma TwoDigitOrder(m: nat, n: nat)
    requires m < n < 100
    ensures Before(Padded(m, 2), Padded(n, 2)) && |Padded(m, 2)| == |Padded(n, 2)| == 2
  {
    TwoDigits(m);
    TwoDigits(n);
    var a, b := Padded(m, 2), Padded(n, 2);
    assert Before(a[1..], b[1..]) <==> a[1] < b[1];
  }

  predicate DateLess(a: Date, b: Date) {
    a.year < b.year || (a.year == b.year && (a.month < b.month || (a.month == b.month && a.day < b.day)))
  }

  lemma {:induction false} LaterDaysAreLaterDates(m: nat, n: nat)
    requires m < n
    ensures DateLess(ByDays(m), ByDays(n))
  {
    SteppedDatesAreValid(n - 1);
    if m < n - 1 {
      LaterDaysAreLaterDates(m, n - 1);
    }
  }

  /** Field by field: an earlier two-digit field decides, an equal one defers to what follows. */
  lemma FieldOrder(m: nat, n: nat, x: string, y: string)
    requires m < 100 && n < 100 && (m < n || (m == n && Before(x, y)))
    ensures Before(Padded(m, 2) + x, Padded(n, 2) + y)
  {
    if m < n {
      TwoDigitOrder(m, n);
      BeforeAtHead(Padded(m, 2), Padded(n, 2), x, y);
    } else {
      BeforeAtTail(Padded(m, 2), x, y);
    }
  }

  lemma FourDigitOrder(m: nat, n: nat)
    requires 1000 <= m < n < 10000
    ensures Before(Padded(m, 4), Padded(n, 4)) && |Padded(m, 4)| == |Padded(n, 4)| == 4
  {
    FourDigits(m);
    FourDigits(n);
    var mh, ml, nh, nl := m / 100, m % 100, n / 100, n % 100;
    assert mh < nh || (mh == nh && ml < nl);
    if mh == nh {
      TwoDigitOrder(ml, nl);
    }
    FieldOrder(mh, nh, Padded(ml, 2), Padded(nl, 2));
  }

  lemma TimesInOrder(h: nat, m: nat, s: nat, h': nat, m': nat, s': nat)
    requires h < 100 && m < 100 && s < 100 && h' < 100 && m' < 100 && s' < 100
    requires h < h' || (h == h' && (m < m' || (m == m' && s < s')))
    ensures Before(TimeText(h, m, s), TimeText(h', m', s'))
  {
    var a, a' := ":" + (Padded(s, 2) + "Z"), ":" + (Padded(s', 2) + "Z");
    var b, b' := ":" + (Padded(m, 2) + a), ":" + (Padded(m', 2) + a');
    if h == h' {
      if m == m' {
        FieldOrder(s, s', "Z", "Z");
        BeforeAtTail(":", Padded(s, 2) + "Z", Padded(s', 2) + "Z");
      }
      FieldOrder(m, m', a, a');
      BeforeAtTail(":", Padded(m, 2) + a, Padded(m', 2) + a');
    }
    FieldOrder(h, h', b, b');
  }

  lemma ClockInOrder(s: nat, t: nat)
    requires s < t < 86400
    ensures Before(TimeOfDay(s), TimeOfDay(t))
  {
    assert s == 3600 * (s / 3600) + 60 * (s % 3600 / 60) + s % 60;
    assert t == 3600 * (t / 3600) + 60 * (t % 3600 / 60) + t % 60;
    TimesInOrder(s / 3600, s % 3600 / 60, s % 60, t / 3600, t % 3600 / 60, t % 60);
  }

  lemma DatesInOrder(c: Date, x: string, d: Date, y: string)
    requires ValidDate(c) && ValidDate(d) && d.year <= 9999
    requires DateLess(c, d) || (c == d && Before(x, y))
    ensures Before(DateTimeText(c, x), DateTimeText(d, y))
  {
    if c.year < d.year {
      FourDigitOrder(c.year, d.year);
      BeforeAtHead(Padded(c.year, 4), Padded(d.year, 4), AfterYear(c, x), AfterYear(d, y));
    } else {
      var a, a' := "T" + x, "T" + y;
      var b, b' := "-" + (Padded(c.day, 2) + a), "-" + (Padded(d.day, 2) + a');
      if c.month == d.month {
        if c.day == d.day {
          BeforeAtTail("T", x, y);
        }
        FieldOrder(c.day, d.day, a, a');
        BeforeAtTail("-", Padded(c.day, 2) + a, Padded(d.day, 2) + a');
      }
      FieldOrder(c.month, d.month, b, b');
      BeforeAtTail("-", Padded(c.month, 2) + b, Padded(d.month, 2) + b');
      BeforeAtTail(Padded(c.year, 4), AfterYear(c, x), AfterYear(d, y));
    }
  }

  /** The stamp over the stepped calendar. */
  function SteppedStamp(secs: u64): string {
    SteppedDatesAreValid(secs / 86400);
    DateTimeText(ByDays(secs / 86400), TimeOfDay(secs % 86400))
  }

  lemma StampIsStepped(secs: u64)
    ensures Stamp(secs) == SteppedStamp(secs)
  {
    CivilIsTheCalendar(secs / 86400);
  }

  lemma SteppedStampsInOrder(s: u64, t: u64)
    requires s < t && ByDays(t / 86400).year <= 9999
    ensures Before(SteppedStamp(s), SteppedStamp(t))
  {
    var m, n := s / 86400, t / 86400;
    SteppedDatesAreValid(m);
    SteppedDatesAreValid(n);
    if m < n {
      LaterDaysAreLaterDates(m, n);
    } else {
      ClockInOrder(s % 86400, t % 86400);
    }
    DatesInOrder(ByDays(m), TimeOfDay(s % 86400), ByDays(n), TimeOfDay(t % 86400));
  }

  lemma StampsInOrder(s: u64, t: u64)
    requires s < t && ByDays(t / 86400).year <= 9999
    ensures Before(Stamp(s), Stamp(t))
  {
    StampIsStepped(s);
    StampIsStepped(t);
    SteppedStampsInOrder(s, t);
  }

  /** While years have four digits, comparing the strings is comparing the instants. */
  lemma StringOrderIsTimeOrder(s: u64, t: u64)
    requires ByDays(s / 86400).year <= 9999 && ByDays(t / 86400).year <= 9999
    ensures Before(Stamp(s), Stamp(t)) <==> s < t
  {
    BeforeIsStrict(Stamp(s), Stamp(t));
    if s < t {
      StampsInOrder(s, t);
    } else if t < s {
      StampsInOrder(t, s);
    }
  }

  // ---------------------------------------------------------------- reading a stamp back

  predicate IsDecimal(s: string) { s != "" && forall i | 0 <= i < |s| :: '0' <= s[i] <= '9' }

  /** The number a run of decimal characters stands for, the last being the ones. */
  function Value(s: string): int {
    if s == "" then 0 else 10 * Value(s[..|s| - 1]) + (s[|s| - 1] as int - 48)
  }

  lemma {:induction false} DigitsRead(n: nat)
    ensures IsDecimal(Digits(n)) && Value(Digits(n)) == n
  {
    if n < 10 {
      assert Digits(n)[..0] == "";
    } else {
      DigitsRead(n / 10);
      var all := Digits(n / 10) + [Digit(n % 10)];
      assert all[..|all| - 1] == Digits(n / 10);
    }
  }

  lemma {:induction false} ZeroInFront(s: string)
    requires IsDecimal(s)
    ensures IsDecimal("0" + s) && Value("0" + s) == Value(s)
  {
    var all := "0" + s;
    assert all[..|all| - 1] == "0" + s[..|s| - 1];
    if |s| > 1 {
      ZeroInFront(s[..|s| - 1]);
    } else {
      assert s[..0] == "" && all[..1] == "0" && "0"[..0] == "";
      assert Value("0") == 0;
    }
  }

  lemma OneZeroMore(n: nat, s: string)
    requires n > 0
    ensures Zeros(n) + s == "0" + (Zeros(n - 1) + s) && |Zeros(n)| == 1 + |Zeros(n - 1)|
  {
  }

  lemma {:induction false} ZerosInFront(n: nat, s: string, padded: string)
    requires IsDecimal(s) && padded == Zeros(n) + s
    ensures IsDecimal(padded) && Value(padded) == Value(s) && |padded| == n + |s|
  {
    if n == 0 {
      assert padded == s;
    } else {
      var fewer := Zeros(n - 1) + s;
      ZerosInFront(n - 1, s, fewer);
      OneZeroMore(n, s);
      ZeroInFront(fewer);
    }
  }

  lemma PaddedReads(n: nat, width: nat)
    ensures IsDecimal(Padded(n, width)) && Value(Padded(n, width)) == n && |Padded(n, width)| >= width
  {
    DigitsRead(n);
    if |Digits(n)| < width {
      ZerosInFront(width - |Digits(n)|, Digits(n), Padded(n, width));
    }
  }

  /** A two-character field that reads as `n`. */
  predicate Field(f: string, n: int) { |f| == 2 && IsDecimal(f) && Value(f) == n }

  lemma FieldReads(n: nat, field: string)
    requires n < 100 && field == Padded(n, 2)
    ensures Field(field, n)
  {
    PaddedReads(n, 2);
    TwoDigits(n);
  }

  predicate SaysDate(t: string, y: nat, date: Date) {
    && y >= 4 && |t| == y + 7 && IsDecimal(t[..y]) && Value(t[..y]) == date.year
    && t[y] == '-' && Field(t[y + 1..y + 3], date.month)
    && t[y + 3] == '-' && Field(t[y + 4..y + 6], date.day) && t[y + 6] == 'T'
  }

  predicate SaysTime(t: string, h: int, m: int, s: int) {
    && |t| == 9 && Field(t[..2], h) && t[2] == ':' && Field(t[3..5], m) && t[5] == ':' && Field(t[6..8], s)
    && t[8] == 'Z'
  }

  /** What a stamp says: after its year of `y` characters, two-character fields between fixed separators. */
  predicate Says(t: string, y: nat, date: Date, h: int, m: int, s: int) {
    |t| == y + 16 && SaysDate(t[..y + 7], y, date) && SaysTime(t[y + 7..], h, m, s)
  }

  lemma TimeSays(hour: string, minute: string, second: string, h: int, m: int, s: int)
    requires Field(hour, h) && Field(minute, m) && Field(second, s)
    ensures SaysTime(hour + (":" + (minute + (":" + (second + "Z")))), h, m, s)
  {
    var t := hour + (":" + (minute + (":" + (second + "Z"))));
    assert t[..2] == hour && t[3..5] == minute && t[6..8] == second;
  }

  lemma DateSays(year: string, month: string, day: string, d: Date)
    requires IsDecimal(year) && Value(year) == d.year && |year| >= 4 && Field(month, d.month) && Field(day, d.day)
    ensures SaysDate(year + ("-" + (month + ("-" + (day + "T")))), |year|, d)
  {
    var t, y := year + ("-" + (month + ("-" + (day + "T")))), |year|;
    assert t[..y] == year && t[y + 1..y + 3] == month && t[y + 4..y + 6] == day;
  }

  lemma BothSay(date: string, time: string, y: nat, d: Date, h: int, m: int, s: int)
    requires SaysDate(date, y, d) && SaysTime(time, h, m, s)
    ensures Says(date + time, y, d, h, m, s)
  {
    assert (date + time)[..y + 7] == date && (date + time)[y + 7..] == time;
  }

  lemma TextSplits(d: Date, time: string)
    requires ValidDate(d)
    ensures DateTimeText(d, time) ==
            (Padded(d.year, 4) + ("-" + (Padded(d.month, 2) + ("-" + (Padded(d.day, 2) + "T"))))) + time
  {
  }

  lemma TextSays(d: Date, h: nat, m: nat, s: nat)
    requires ValidDate(d) && h < 100 && m < 100 && s < 100
    ensures Says(DateTimeText(d, TimeText(h, m, s)), |Padded(d.year, 4)|, d, h, m, s)
  {
    var year, month, day := Padded(d.year, 4), Padded(d.month, 2), Padded(d.day, 2);
    PaddedReads(d.year, 4);
    FieldReads(d.month, month);
    FieldReads(d.day, day);
    FieldReads(h, Padded(h, 2));
    FieldReads(m, Padded(m, 2));
    FieldReads(s, Padded(s, 2));
    DateSays(year, month, day, d);
    TimeSays(Padded(h, 2), Padded(m, 2), Padded(s, 2), h, m, s);
    TextSplits(d, TimeText(h, m, s));
    BothSay(year + ("-" + (month + ("-" + (day + "T")))), TimeText(h, m, s), |year|, d, h, m, s);
  }

  lemma SecondsLeft(tod: nat, h: nat, left: nat)
    requires tod == 3600 * h + left
    ensures tod % 60 == left % 60
  {
  }

  lemma ClockReads(tod: nat) returns (h: nat, m: nat, s: nat)
    requires tod < 86400
    ensures TimeOfDay(tod) == TimeText(h, m, s)
    ensures h < 24 && m < 60 && s < 60 && 3600 * h + 60 * m + s == tod
  {
    var left := tod % 3600;
    h, m, s := tod / 3600, left / 60, tod % 60;
    SecondsLeft(tod, h, left);
  }

  lemma SteppedStampReadsBack(secs: u64, date: Date) returns (y: nat, h: int, m: int, s: int)
    requires date == ByDays(secs / 86400) && ValidDate(date)
    ensures Says(SteppedStamp(secs), y, date, h, m, s)
    ensures 0 <= h < 24 && 0 <= m < 60 && 0 <= s < 60 && 3600 * h + 60 * m + s == secs % 86400
  {
    h, m, s := ClockReads(secs % 86400);
    TextSays(date, h, m, s);
    y := |Padded(date.year, 4)|;
  }

  /**
   A stamp names its instant, for every clock reading: its fields, read as decimal numbers, are the day
   of the calendar and an hour, minute and second that add up to the time of that day.
   */
  lemma StampReadsBack(secs: u64) returns (y: nat, h: int, m: int, s: int)
    ensures Says(Stamp(secs), y, ByDays(secs / 86400), h, m, s)
    ensures y == 4 <==> ByDays(secs / 86400).year <= 9999
    ensures 0 <= h < 24 && 0 <= m < 60 && 0 <= s < 60 && 3600 * h + 60 * m + s == secs % 86400
  {
    StampIsStepped(secs);
    SteppedDatesAreValid(secs / 86400);
    y, h, m, s := SteppedStampReadsBack(secs, ByDays(secs / 86400));
    TwentyCharactersExactly(secs);
  }
}
