/** `PartitionByDayOfMonth`: which day-of-month partitions may be collected, on the Gregorian calendar. */
module Calendar {
  import opened Text

  datatype Date = Date(year: int, month: int, day: int)

  /** Python's `//` and `%` by a positive divisor, kept under names so that proofs can leave them folded. */
  function Quotient(n: int, k: int): int
    requires k > 0
  {
    n / k
  }

  predicate Divides(k: int, n: int)
    requires k > 0
  {
    n % k == 0
  }

  predicate Leap(year: int) {
    Divides(4, year) && (!Divides(100, year) || Divides(400, year))
  }

  function DaysIn(year: int, month: int): (n: int)
    ensures 28 <= n <= 31
  {
    if month == 2 then (if Leap(year) then 29 else 28)
    else if month == 4 || month == 6 || month == 9 || month == 11 then 30
    else 31
  }

  /** The dates `datetime.date` can represent. */
  predicate Valid(d: Date) {
    1 <= d.year <= 9999 && 1 <= d.month <= 12 && 1 <= d.day <= DaysIn(d.year, d.month)
  }

  function DaysBeforeYear(year: int): int {
    365 * (year - 1) + Quotient(year - 1, 4) - Quotient(year - 1, 100) + Quotient(year - 1, 400)
  }

  function DaysBeforeMonth(year: int, month: int): int
    requires 1 <= month <= 13
  {
    if month == 1 then 0 else DaysBeforeMonth(year, month - 1) + DaysIn(year, month - 1)
  }

  /** `date.toordinal`: subtracting dates subtracts these. */
  function Ordinal(d: Date): int
    requires 1 <= d.month <= 12
  {
    DaysBeforeYear(d.year) + DaysBeforeMonth(d.year, d.month) + d.day
  }

  /** `<=` on dates compares year, month and day in turn. */
  predicate NotAfter(a: Date, b: Date) {
    a.year < b.year || (a.year == b.year && (a.month < b.month || (a.month == b.month && a.day <= b.day)))
  }

  /* ---- The calendar from outside: a table, a closed form and the 400-year cycle ---- */

  /** The Gregorian rule: every fourth year, but of the century years only every fourth. */
  predicate LeapYear(year: int) {
    year % 4 == 0 && (year % 100 == 0 ==> year % 400 == 0)
  }

  lemma LeapExactly(year: int)
    ensures Leap(year) <==> LeapYear(year)
  {}

  const LENGTHS := [31, 28, 31, 30, 31, 30, 31, 31, 30, 31, 30, 31]

  /** Twelve lengths; February has a day more in leap years. */
  lemma MonthLengths(year: int, month: int)
    requires 1 <= month <= 12
    ensures DaysIn(year, month) == LENGTHS[month - 1] + if month == 2 && LeapYear(year) then 1 else 0
  {
    hide Leap, LeapYear;
    LeapExactly(year);
  }

  /** The days before a month: the thirds-of-a-year formula, corrected for February. */
  function BeforeMonth(month: int, leap: bool): int {
    (367 * month - 362) / 12 - if month <= 2 then 0 else if leap then 1 else 2
  }

  lemma {:induction false} DaysBeforeMonthClosed(year: int, month: int)
    requires 1 <= month <= 13
    ensures DaysBeforeMonth(year, month) == BeforeMonth(month, LeapYear(year))
    decreases month
  {
    hide Leap, LeapYear;
    LeapExactly(year);
    if month > 1 { DaysBeforeMonthClosed(year, month - 1); }
  }

  /** The count begins with year 1, leap years have a day more, and every 400 years the calendar repeats. */
  lemma YearCycle(year: int)
    ensures DaysBeforeYear(1) == 0
    ensures DaysBeforeYear(year + 1) == DaysBeforeYear(year) + if LeapYear(year) then 366 else 365
    ensures DaysBeforeYear(year + 400) == DaysBeforeYear(year) + 146097
  {
    YearLength(year) by { hide *; }
    LeapExactly(year);
    DaysInYear(year) by { hide *; }
  }

  /** The day number in closed form, without a month's or a year's length in it. */
  lemma OrdinalClosed(d: Date)
    requires 1 <= d.month <= 12
    ensures
      var y := d.year - 1;
      Ordinal(d) == 365 * y + y / 4 - y / 100 + y / 400 + BeforeMonth(d.month, LeapYear(d.year)) + d.day
  {
    DaysBeforeMonthClosed(d.year, d.month) by { hide *; }
  }

  lemma DaysInYear(year: int)
    ensures DaysBeforeMonth(year, 13) == if Leap(year) then 366 else 365
  {
    hide Leap;
    assert DaysBeforeMonth(year, 2) == 31;
    assert DaysBeforeMonth(year, 3) == 59 + if Leap(year) then 1 else 0;
    assert DaysBeforeMonth(year, 5) == DaysBeforeMonth(year, 3) + 61;
    assert DaysBeforeMonth(year, 7) == DaysBeforeMonth(year, 5) + 61;
    assert DaysBeforeMonth(year, 9) == DaysBeforeMonth(year, 7) + 62;
    assert DaysBeforeMonth(year, 11) == DaysBeforeMonth(year, 9) + 61;
    assert DaysBeforeMonth(year, 13) == DaysBeforeMonth(year, 11) + 61;
  }

  lemma YearLength(year: int)
    ensures DaysBeforeYear(year + 1) == DaysBeforeYear(year) + DaysBeforeMonth(year, 13)
  {
    hide DaysBeforeMonth, DaysIn, Quotient, Divides;
    DaysInYear(year);
    DivisorsNest(year);
    QuotientStep(year, 4);
    QuotientStep(year, 100);
    QuotientStep(year, 400);
  }

  lemma QuotientStep(n: int, k: int)
    requires k == 4 || k == 100 || k == 400
    ensures Quotient(n, k) == Quotient(n - 1, k) + if Divides(k, n) then 1 else 0
  {}

  /** A century year is a fourth year, a four-century year a century year. */
  lemma DivisorsNest(n: int)
    ensures Divides(400, n) ==> Divides(100, n)
    ensures Divides(100, n) ==> Divides(4, n)
  {
    if Divides(400, n) { Multiple(n, n / 400, 4, 100); }
    if Divides(100, n) { Multiple(n, n / 100, 25, 4); }
  }

  lemma Multiple(n: int, q: int, a: int, b: int)
    requires b == 4 || b == 100
    requires n == q * (a * b)
    ensures Divides(b, n)
  {
    assert n == (q * a) * b;
  }

  lemma {:induction false} MonthsIncrease(year: int, a: int, b: int)
    requires 1 <= a < b <= 13
    ensures DaysBeforeMonth(year, a) + DaysIn(year, a) <= DaysBeforeMonth(year, b)
    decreases b
  {
    if a < b - 1 { MonthsIncrease(year, a, b - 1); }
  }

  lemma {:induction false} YearsIncrease(a: int, b: int)
    requires a < b
    ensures DaysBeforeYear(a + 1) <= DaysBeforeYear(b)
    decreases b - a
  {
    if a + 1 < b {
      YearsIncrease(a, b - 1);
      YearLength(b - 1);
      MonthsIncrease(b - 1, 1, 13);
    }
  }

  /** The calendar order is the order of day numbers. */
  lemma OrdinalOrder(a: Date, b: Date)
    requires Valid(a) && Valid(b)
    ensures NotAfter(a, b) <==> Ordinal(a) <= Ordinal(b)
  {
    if NotAfter(a, b) { OrdinalIncreases(a, b); } else { OrdinalIncreases(b, a); }
  }

  lemma OrdinalIncreases(a: Date, b: Date)
    requires Valid(a) && Valid(b) && NotAfter(a, b)
    ensures a == b || Ordinal(a) < Ordinal(b)
  {
    if a.year < b.year {
      MonthsIncrease(a.year, a.month, 13);
      YearLength(a.year);
      YearsIncrease(a.year, b.year);
      if b.month > 1 { MonthsIncrease(b.year, 1, b.month); }
    } else if a.month < b.month {
      MonthsIncrease(a.year, a.month, b.month);
    }
  }

  /** The year and month `delta` months before or after, as the source's loop carries them. */
  function Shift(ref: Date, delta: int): Date {
    var m := ref.month + delta;
    if m < 1 then Date(ref.year - 1, m + 12, ref.day) else Date(ref.year, m, ref.day)
  }

  predicate SameMonth(a: Date, b: Date) {
    a.year == b.year && a.month == b.month
  }

  lemma PreviousMonth(ref: Date)
    requires Valid(ref)
    ensures
      var p := Shift(ref, -1);
      Ordinal(ref) == Ordinal(p.(day := DaysIn(p.year, p.month))) + ref.day
  {
    hide DaysBeforeYear, DaysIn;
    if ref.month == 1 { YearLength(ref.year - 1); }
  }

  /** `c` is the latest of all dates, in any month, that fall on `day` and do not lie after `ref`. */
  ghost predicate Latest(c: Date, day: int, ref: Date) {
    && Valid(c) && c.day == day && NotAfter(c, ref)
    && forall d | Valid(d) && d.day == day && NotAfter(d, ref) :: NotAfter(d, c)
  }

  ghost predicate Nearby(c: Date, ref: Date) {
    SameMonth(c, ref) || SameMonth(c, Shift(ref, -1))
  }

  /** The partition may be collected: the last time its day came round was in the reference month or the one
      before, more than `ttl` days ago. */
  ghost predicate Expired(ttl: int, day: int, ref: Date)
    requires Valid(ref)
  {
    exists c :: Latest(c, day, ref) && Nearby(c, ref) && Ordinal(ref) - Ordinal(c) > ttl
  }

  lemma LatestIsUnique(c: Date, d: Date, day: int, ref: Date)
    requires Latest(c, day, ref) && Latest(d, day, ref)
    ensures c == d
  {}

  lemma ThisMonthIsLatest(day: int, ref: Date)
    requires Valid(ref) && 1 <= day <= ref.day
    ensures Latest(ref.(day := day), day, ref)
    ensures Ordinal(ref) - Ordinal(ref.(day := day)) == ref.day - day
  {}

  lemma LastMonthIsLatest(day: int, ref: Date)
    requires Valid(ref) && ref.day < day && Valid(Shift(ref, -1).(day := day))
    ensures Latest(Shift(ref, -1).(day := day), day, ref)
  {
    var c := Shift(ref, -1).(day := day);
    forall d | Valid(d) && d.day == day && NotAfter(d, ref) ensures NotAfter(d, c) {
      assert !SameMonth(d, ref);
    }
  }

  /** The length of the month before the reference, off the table. */
  function LastMonthLength(ref: Date): int
    requires Valid(ref)
  {
    if ref.month == 3 && LeapYear(ref.year) then 29 else LENGTHS[(ref.month + 10) % 12]
  }

  /** The partition's age in plain numbers: so many days into this month, or that and what was left of the last
      one, if it had such a day. The first month there is has none before it. */
  predicate OlderThan(ttl: int, day: int, ref: Date)
    requires Valid(ref)
  {
    if day <= ref.day then 1 <= day && ref.day - day > ttl
    else day <= LastMonthLength(ref) && !(ref.year == 1 && ref.month == 1) && ref.day + LastMonthLength(ref) - day > ttl
  }

  lemma LastMonth(ref: Date)
    requires Valid(ref)
    ensures
      var p := Shift(ref, -1);
      1 <= p.month <= 12 && DaysIn(p.year, p.month) == LastMonthLength(ref)
  {
    hide Leap, LeapYear;
    var p := Shift(ref, -1);
    MonthLengths(p.year, p.month);
  }

  /** A partition has expired if and only if its age in plain numbers says so. */
  lemma ExpiredExactly(ttl: int, day: int, ref: Date)
    requires Valid(ref)
    ensures Expired(ttl, day, ref) <==> OlderThan(ttl, day, ref)
  {
    hide DaysIn, Ordinal, LastMonthLength, Latest;
    LastMonth(ref);
    PreviousMonth(ref);
    var p := Shift(ref, -1).(day := day);
    if 1 <= day <= ref.day {
      ThisMonthIsLatest(day, ref);
      assert Nearby(ref.(day := day), ref);
      forall c | Latest(c, day, ref) ensures c == ref.(day := day) { LatestIsUnique(c, ref.(day := day), day, ref); }
    } else if Valid(p) {
      LastMonthIsLatest(day, ref);
      LastMonthAge(day, ref);
      assert Nearby(p, ref);
      forall c | Latest(c, day, ref) ensures c == p { LatestIsUnique(c, p, day, ref); }
    } else {
      forall c | Latest(c, day, ref) ensures !Nearby(c, ref) { FarBack(c, day, ref); }
    }
  }

  lemma LastMonthAge(day: int, ref: Date)
    requires Valid(ref) && Valid(Shift(ref, -1).(day := day))
    ensures
      var p := Shift(ref, -1);
      Ordinal(ref) - Ordinal(p.(day := day)) == ref.day + DaysIn(p.year, p.month) - day
  {
    hide DaysIn, DaysBeforeYear, DaysBeforeMonth;
    PreviousMonth(ref);
  }

  lemma FarBack(c: Date, day: int, ref: Date)
    requires Valid(ref) && !(1 <= day <= ref.day) && !Valid(Shift(ref, -1).(day := day))
    requires Latest(c, day, ref)
    ensures !Nearby(c, ref)
  {
    hide DaysIn;
  }

  /** `is_expired`. `day` is what `int(partition_name)` yields, `None` when it raises. */
  method IsExpired(ttl: int, day: Option<int>, ref: Date) returns (expired: bool)
    requires Valid(ref)
    ensures expired <==> day.Some? && Expired(ttl, day.value, ref)
    ensures expired <==> day.Some? && OlderThan(ttl, day.value, ref)
  {
    hide OlderThan;
    if day.Some? { ExpiredExactly(ttl, day.value, ref); }
    if day.None? { return false; }
    if day.value < 1 || day.value > 31 { return false; }
    var delta := 0;
    while delta > -2
      invariant -2 <= delta <= 0
      invariant delta < 0 ==> !(Valid(ref.(day := day.value)) && NotAfter(ref.(day := day.value), ref))
      invariant delta < -1 ==> !Valid(Shift(ref, -1).(day := day.value))
      decreases delta + 2
    {
      var month := Shift(ref, delta);
      var part := Date(month.year, month.month, day.value);
      if Valid(part) && NotAfter(part, ref) {
        if delta == 0 { ThisMonthIsLatest(day.value, ref); } else { LastMonthIsLatest(day.value, ref); }
        assert Latest(part, day.value, ref) && Nearby(part, ref);
        assert forall c | Latest(c, day.value, ref) :: c == part;
        return Ordinal(ref) - Ordinal(part) > ttl;
      }
      delta := delta - 1;
    }
    return false;
  }

  /** A partition written within the last `ttl` days is never collected. */
  lemma RecentNeverExpires(ttl: int, written: Date, ref: Date)
    requires Valid(written) && Valid(ref) && NotAfter(written, ref) && Ordinal(ref) - Ordinal(written) <= ttl
    ensures !Expired(ttl, written.day, ref)
  {
    forall c | Latest(c, written.day, ref) ensures Ordinal(ref) - Ordinal(c) <= ttl {
      OrdinalOrder(written, c);
    }
  }

  /** The age the source computes never exceeds 30 days. */
  lemma AgeAtMost30(c: Date, day: int, ref: Date)
    requires Valid(ref) && Latest(c, day, ref) && Nearby(c, ref)
    ensures 0 <= Ordinal(ref) - Ordinal(c) <= 30
  {
    if c.day <= ref.day {
      ThisMonthIsLatest(day, ref);
      LatestIsUnique(c, ref.(day := day), day, ref);
    } else {
      PreviousMonth(ref);
    }
  }

  /** A TTL of 30 days or more never collects anything; every smaller one does. */
  lemma CollectsExactlyBelow30(ttl: int)
    ensures (exists day, ref :: Valid(ref) && Expired(ttl, day, ref)) <==> ttl < 30
  {
    forall day, ref | Valid(ref) && Expired(ttl, day, ref) ensures ttl < 30 {
      var c :| Latest(c, day, ref) && Nearby(c, ref) && Ordinal(ref) - Ordinal(c) > ttl;
      AgeAtMost30(c, day, ref);
    }
    if ttl < 30 {
      var ref := Date(2024, 1, 31);
      ThisMonthIsLatest(1, ref);
      assert Nearby(ref.(day := 1), ref);
      assert Expired(ttl, 1, ref);
    }
  }

  /** `partition_for`. */
  function PartitionFor(d: Date): string
    requires Valid(d)
  {
    Decimal(d.day, 2)
  }

  /** The folder a date is written to names its day, in two digits, and is not collected within its TTL. */
  lemma PartitionIsNotCollectedEarly(ttl: int, written: Date, ref: Date)
    requires Valid(written) && Valid(ref) && NotAfter(written, ref) && Ordinal(ref) - Ordinal(written) <= ttl
    ensures |PartitionFor(written)| == 2
    ensures Value(PartitionFor(written)) == written.day && !Expired(ttl, Value(PartitionFor(written)), ref)
  {
    DecimalRoundTrip(written.day, 2);
    RecentNeverExpires(ttl, written, ref);
  }
}
