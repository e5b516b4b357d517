/** Times are stored as text and compared as text (`utc_now` and `terminal_jobs_before` in
    src/gq/database.py). `isoformat` leaves out a zero fraction, so the texts differ in length;
    section 5.1 of RFC 3339 promises the order of texts only for a fixed number of digits. The
    order is right all the same, because '+' sorts below '.'. */
module Timestamps {
  import opened Models
  import opened Tables

  datatype Stamp = Stamp(year: int, month: int, day: int, hour: int, minute: int, second: int, micro: int)

  predicate Leap(year: int) {
    year % 4 == 0 && (year % 100 != 0 || year % 400 == 0)
  }

  function DaysIn(year: int, month: int): int {
    if month == 2 then (if Leap(year) then 29 else 28)
    else if month == 4 || month == 6 || month == 9 || month == 11 then 30
    else 31
  }

  predicate ValidStamp(t: Stamp) {
    && 1 <= t.year <= 9999 && 1 <= t.month <= 12 && 1 <= t.day <= DaysIn(t.year, t.month)
    && 0 <= t.hour < 24 && 0 <= t.minute < 60 && 0 <= t.second < 60 && 0 <= t.micro < 1000000
  }

  function DaysBeforeYear(year: int): int {
    (year - 1) * 365 + (year - 1) / 4 - (year - 1) / 100 + (year - 1) / 400
  }

  function DaysBeforeMonth(year: int, month: int): int {
    if month <= 1 then 0 else DaysBeforeMonth(year, month - 1) + DaysIn(year, month - 1)
  }

  function Day(t: Stamp): int {
    DaysBeforeYear(t.year) + DaysBeforeMonth(t.year, t.month) + t.day
  }

  function MicroOfDay(t: Stamp): int {
    ((t.hour * 60 + t.minute) * 60 + t.second) * 1000000 + t.micro
  }

  /** The moment a stamp denotes, in microseconds. */
  function Instant(t: Stamp): int {
    Day(t) * 86400000000 + MicroOfDay(t)
  }

  // ---- Text ----

  function Digit(d: int): char
    requires 0 <= d < 10
  {
    '0' + d as char
  }

  function Digits(n: nat, width: nat): (text: string)
    ensures |text| == width
  {
    if width == 0 then "" else Digits(n / 10, width - 1) + [Digit(n % 10)]
  }

  function DateText(t: Stamp): string
    requires ValidStamp(t)
  {
    Digits(t.year, 4) + ("-" + (Digits(t.month, 2) + ("-" + Digits(t.day, 2))))
  }

  function ClockText(t: Stamp): string
    requires ValidStamp(t)
  {
    Digits(t.hour, 2) + (":" + (Digits(t.minute, 2) + (":" + Digits(t.second, 2))))
  }

  function Rest(t: Stamp): string
    requires ValidStamp(t)
  {
    if t.micro == 0 then "+00:00" else "." + (Digits(t.micro, 6) + "+00:00")
  }

  /** `datetime.now(UTC).isoformat()` */
  function IsoFormat(t: Stamp): string
    requires ValidStamp(t)
  {
    DateText(t) + ("T" + (ClockText(t) + Rest(t)))
  }

  /** The comparison of two texts byte by byte. */
  predicate TextLess(a: string, b: string) {
    if b == "" then false
    else if a == "" then true
    else if a[0] != b[0] then a[0] < b[0]
    else TextLess(a[1..], b[1..])
  }

  /** Texts that start with parts of one length are ordered by these parts first. */
  lemma {:induction false} FirstPartDecides(p: string, x: string, q: string, y: string)
    requires |p| == |q|
    ensures TextLess(p + x, q + y) <==> TextLess(p, q) || (p == q && TextLess(x, y))
  {
    if p == "" {
      assert p + x == x && q + y == y;
    } else {
      assert (p + x)[0] == p[0] && (q + y)[0] == q[0];
      assert (p + x)[1..] == p[1..] + x && (q + y)[1..] == q[1..] + y;
      FirstPartDecides(p[1..], x, q[1..], y);
      assert p == q <==> p[0] == q[0] && p[1..] == q[1..];
    }
  }

  function Ten(width: nat): nat {
    if width == 0 then 1 else 10 * Ten(width - 1)
  }

  /** Zero-padded numbers of one width are ordered, and differ, as the numbers do. */
  lemma {:induction false} DigitsOrder(a: nat, b: nat, width: nat)
    requires a < Ten(width) && b < Ten(width)
    ensures TextLess(Digits(a, width), Digits(b, width)) <==> a < b
    ensures Digits(a, width) == Digits(b, width) <==> a == b
  {
    if width != 0 {
      DigitsOrder(a / 10, b / 10, width - 1);
      FirstPartDecides(Digits(a / 10, width - 1), [Digit(a % 10)], Digits(b / 10, width - 1), [Digit(b % 10)]);
      assert Digits(a, width)[..width - 1] == Digits(a / 10, width - 1) && Digits(a, width)[width - 1] == Digit(a % 10);
      assert Digits(b, width)[..width - 1] == Digits(b / 10, width - 1) && Digits(b, width)[width - 1] == Digit(b % 10);
      assert TextLess([Digit(a % 10)], [Digit(b % 10)]) <==> a % 10 < b % 10;
    }
  }

  /** A number, a separator and something more. */
  lemma NumberThen(a: nat, b: nat, width: nat, mark: string, x: string, y: string)
    requires a < Ten(width) && b < Ten(width)
    ensures TextLess(Digits(a, width) + (mark + x), Digits(b, width) + (mark + y))
           <==> a < b || (a == b && TextLess(x, y))
    ensures Digits(a, width) + (mark + x) == Digits(b, width) + (mark + y) <==> a == b && x == y
  {
    DigitsOrder(a, b, width);
    FirstPartDecides(Digits(a, width), mark + x, Digits(b, width), mark + y);
    FirstPartDecides(mark, x, mark, y);
    NotLessThanItself(mark);
    var l, r := Digits(a, width) + (mark + x), Digits(b, width) + (mark + y);
    assert l[..width] == Digits(a, width) && r[..width] == Digits(b, width);
    assert l[width + |mark|..] == x && r[width + |mark|..] == y;
  }

  lemma {:induction false} NotLessThanItself(a: string)
    ensures !TextLess(a, a)
  {
    if a != "" {
      NotLessThanItself(a[1..]);
    }
  }

  predicate DateLess(a: Stamp, b: Stamp) {
    a.year < b.year || (a.year == b.year && (a.month < b.month || (a.month == b.month && a.day < b.day)))
  }

  predicate ClockLess(a: Stamp, b: Stamp) {
    a.hour < b.hour || (a.hour == b.hour && (a.minute < b.minute || (a.minute == b.minute && a.second < b.second)))
  }

  predicate SameDate(a: Stamp, b: Stamp) {
    a.year == b.year && a.month == b.month && a.day == b.day
  }

  predicate SameClock(a: Stamp, b: Stamp) {
    a.hour == b.hour && a.minute == b.minute && a.second == b.second
  }

  lemma DateTextOrder(a: Stamp, b: Stamp)
    requires ValidStamp(a) && ValidStamp(b)
    ensures |DateText(a)| == |DateText(b)|
    ensures TextLess(DateText(a), DateText(b)) <==> DateLess(a, b)
    ensures DateText(a) == DateText(b) <==> SameDate(a, b)
  {
    assert Ten(2) == 100 && Ten(4) == 10000 by { assert Ten(1) == 10 && Ten(3) == 1000; }
    DigitsOrder(a.day, b.day, 2);
    NumberThen(a.month, b.month, 2, "-", Digits(a.day, 2), Digits(b.day, 2));
    NumberThen(a.year, b.year, 4, "-", Digits(a.month, 2) + ("-" + Digits(a.day, 2)),
               Digits(b.month, 2) + ("-" + Digits(b.day, 2)));
  }

  lemma ClockTextOrder(a: Stamp, b: Stamp)
    requires ValidStamp(a) && ValidStamp(b)
    ensures |ClockText(a)| == |ClockText(b)|
    ensures TextLess(ClockText(a), ClockText(b)) <==> ClockLess(a, b)
    ensures ClockText(a) == ClockText(b) <==> SameClock(a, b)
  {
    assert Ten(2) == 100 by { assert Ten(1) == 10; }
    DigitsOrder(a.second, b.second, 2);
    NumberThen(a.minute, b.minute, 2, ":", Digits(a.second, 2), Digits(b.second, 2));
    NumberThen(a.hour, b.hour, 2, ":", Digits(a.minute, 2) + (":" + Digits(a.second, 2)),
               Digits(b.minute, 2) + (":" + Digits(b.second, 2)));
  }

  lemma RestOrder(a: Stamp, b: Stamp)
    requires ValidStamp(a) && ValidStamp(b)
    ensures TextLess(Rest(a), Rest(b)) <==> a.micro < b.micro
  {
    assert Ten(6) == 1000000 by { assert Ten(2) == 100 && Ten(4) == 10000; }
    NotLessThanItself("+00:00");
    if a.micro != 0 && b.micro != 0 {
      FirstPartDecides(".", Digits(a.micro, 6) + "+00:00", ".", Digits(b.micro, 6) + "+00:00");
      FirstPartDecides(Digits(a.micro, 6), "+00:00", Digits(b.micro, 6), "+00:00");
      DigitsOrder(a.micro, b.micro, 6);
    } else if a.micro != 0 {
      assert Rest(a)[0] == '.' && Rest(b)[0] == '+';
    } else if b.micro != 0 {
      assert Rest(a)[0] == '+' && Rest(b)[0] == '.';
    }
  }

  lemma TextOrderIsFieldOrder(a: Stamp, b: Stamp)
    requires ValidStamp(a) && ValidStamp(b)
    ensures TextLess(IsoFormat(a), IsoFormat(b)) <==>
              DateLess(a, b) || (SameDate(a, b) && (ClockLess(a, b) || (SameClock(a, b) && a.micro < b.micro)))
  {
    DateTextOrder(a, b);
    ClockTextOrder(a, b);
    RestOrder(a, b);
    FirstPartDecides(DateText(a), "T" + (ClockText(a) + Rest(a)), DateText(b), "T" + (ClockText(b) + Rest(b)));
    FirstPartDecides("T", ClockText(a) + Rest(a), "T", ClockText(b) + Rest(b));
    NotLessThanItself("T");
    FirstPartDecides(ClockText(a), Rest(a), ClockText(b), Rest(b));
  }

  // ---- Calendar ----

  lemma {:induction false} MonthsAddUp(year: int, m: int, n: int)
    requires 1 <= m < n <= 13
    ensures DaysBeforeMonth(year, m) + DaysIn(year, m) <= DaysBeforeMonth(year, n)
    decreases n
  {
    if m < n - 1 {
      MonthsAddUp(year, m, n - 1);
    }
  }

  lemma YearLength(year: int)
    ensures DaysBeforeMonth(year, 13) == if Leap(year) then 366 else 365
  {
    assert DaysBeforeMonth(year, 2) == 31;
    assert DaysBeforeMonth(year, 3) == 31 + DaysIn(year, 2);
    assert DaysBeforeMonth(year, 4) == 62 + DaysIn(year, 2);
    assert DaysBeforeMonth(year, 5) == 92 + DaysIn(year, 2);
    assert DaysBeforeMonth(year, 6) == 123 + DaysIn(year, 2);
    assert DaysBeforeMonth(year, 7) == 153 + DaysIn(year, 2);
    assert DaysBeforeMonth(year, 8) == 184 + DaysIn(year, 2);
    assert DaysBeforeMonth(year, 9) == 215 + DaysIn(year, 2);
    assert DaysBeforeMonth(year, 10) == 245 + DaysIn(year, 2);
    assert DaysBeforeMonth(year, 11) == 276 + DaysIn(year, 2);
    assert DaysBeforeMonth(year, 12) == 306 + DaysIn(year, 2);
  }

  lemma OneYearOn(year: int)
    requires year >= 1
    ensures DaysBeforeYear(year + 1) == DaysBeforeYear(year) + DaysBeforeMonth(year, 13)
  {
    YearLength(year);
    StepsOfDivision(year, 4);
    StepsOfDivision(year, 100);
    StepsOfDivision(year, 400);
  }

  lemma StepsOfDivision(n: int, d: int)
    requires n >= 1 && (d == 4 || d == 100 || d == 400)
    ensures n / d == (n - 1) / d + if n % d == 0 then 1 else 0
  {
  }

  lemma {:induction false} YearsAddUp(a: int, b: int)
    requires 1 <= a < b
    ensures DaysBeforeYear(a) + DaysBeforeMonth(a, 13) <= DaysBeforeYear(b)
    decreases b
  {
    OneYearOn(b - 1);
    YearLength(b - 1);
    if a < b - 1 {
      YearsAddUp(a, b - 1);
    }
  }

  lemma LaterDate(a: Stamp, b: Stamp)
    requires ValidStamp(a) && ValidStamp(b) && DateLess(a, b)
    ensures Day(a) < Day(b)
  {
    if a.year < b.year {
      YearsAddUp(a.year, b.year);
      MonthsAddUp(a.year, a.month, 13);
      if b.month > 1 { MonthsAddUp(b.year, 1, b.month); }
    } else if a.month < b.month {
      MonthsAddUp(a.year, a.month, b.month);
    }
  }

  /** The order of the stored texts is the order of the moments, for all years 1 to 9999. */
  lemma TextOrderIsTimeOrder(a: Stamp, b: Stamp)
    requires ValidStamp(a) && ValidStamp(b)
    ensures TextLess(IsoFormat(a), IsoFormat(b)) <==> Instant(a) < Instant(b)
  {
    TextOrderIsFieldOrder(a, b);
    if DateLess(a, b) {
      LaterDate(a, b);
    } else if DateLess(b, a) {
      LaterDate(b, a);
    }
  }

  // ---- Cleanup ----

  /** The stored stamps denote the moments they were taken at. */
  ghost predicate StampsOk(s: Store, stamp: nat -> Stamp, origin: int) {
    forall id :: id in s.jobs && s.jobs[id].endTime.Some? ==>
      && ValidStamp(stamp(s.jobs[id].endTime.value))
      && Instant(stamp(s.jobs[id].endTime.value)) == origin + s.jobs[id].endTime.value
  }

  /** The query as it runs: rows are kept by comparing texts. */
  function TerminalJobsBeforeText(s: Store, stamp: nat -> Stamp, cutoff: string, states: seq<JobState>): seq<nat> {
    Where(s, (job: Job) => && job.state.Terminal() && (states == [] || job.state in states)
                           && job.endTime.Some? && ValidStamp(stamp(job.endTime.value))
                           && TextLess(IsoFormat(stamp(job.endTime.value)), cutoff))
  }

  /** Cleanup finds exactly the terminal jobs of the wanted states that ended before the cutoff,
      and deletes every one of them. */
  lemma CleanupIsExact(s: Store, stamp: nat -> Stamp, origin: int, cutoff: Stamp, states: seq<JobState>)
    requires ValidStamp(cutoff) && StampsOk(s, stamp, origin)
    ensures var ids := TerminalJobsBeforeText(s, stamp, IsoFormat(cutoff), states);
            && (forall id :: id in ids <==>
                  && id in s.jobs && id < s.nextId && HasEnded(s.jobs[id].state)
                  && (states == [] || s.jobs[id].state in states)
                  && s.jobs[id].endTime.Some? && origin + s.jobs[id].endTime.value < Instant(cutoff))
            && DeleteJobs(s, ids) == (s.(jobs := s.jobs - (set id | id in ids)), true)
  {
    var ids := TerminalJobsBeforeText(s, stamp, IsoFormat(cutoff), states);
    forall id | id in s.jobs && s.jobs[id].endTime.Some?
      ensures TextLess(IsoFormat(stamp(s.jobs[id].endTime.value)), IsoFormat(cutoff))
         <==> origin + s.jobs[id].endTime.value < Instant(cutoff)
    {
      TextOrderIsTimeOrder(stamp(s.jobs[id].endTime.value), cutoff);
    }
    forall k | 0 <= k < |ids| ensures ids[k] in s.jobs && s.jobs[ids[k]].state.Terminal() {
      assert ids[k] in ids;
    }
    DeletionIsAllOrNothing(s.jobs, ids);
  }
}
