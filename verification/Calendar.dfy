/** The instants that a `datetime` in UTC can name: microseconds since the start of year 1, and back. */
module Calendar {
  import opened Wrappers
  import opened Cursors

  function YearLength(year: nat): nat {
    if IsLeap(year) then 366 else 365
  }

  /** Days before the first of January. */
  function DaysBeforeYear(year: nat): nat
    requires year >= 1
  {
    var y := year - 1;
    y * 365 + y / 4 - y / 100 + y / 400
  }

  function DaysBeforeMonth(year: nat, month: nat): nat {
    if month <= 1 then 0 else DaysBeforeMonth(year, month - 1) + DaysIn(year, month - 1)
  }

  function DayNumber(t: Stamp): nat
    requires ValidStamp(t)
  {
    DaysBeforeYear(t.year) + DaysBeforeMonth(t.year, t.month) + t.day - 1
  }

  function Instant(t: Stamp): nat
    requires ValidStamp(t)
  {
    (((DayNumber(t) * 24 + t.hour) * 60 + t.minute) * 60 + t.second) * 1_000_000 + t.micro
  }

  // The first instant after year 9999.
  const END: nat := 3_652_059 * 86_400_000_000

  // ---- from instants to stamps -----------------------------------------------------------------------------------

  lemma NextYear(year: nat)
    requires year >= 1
    ensures DaysBeforeYear(year + 1) == DaysBeforeYear(year) + YearLength(year)
  {
    NextMultiple(year - 1, 4);
    NextMultiple(year - 1, 100);
    NextMultiple(year - 1, 400);
    LeapsCounted(year);
  }

  lemma NextMultiple(y: nat, k: nat)
    requires k > 0
    ensures (y + 1) / k == y / k + if (y + 1) % k == 0 then 1 else 0
  {
    var q, r := y / k, y % k;
    assert y == q * k + r;
    if r + 1 == k {
      assert y + 1 == (q + 1) * k;
      Quotient(y + 1, k, q + 1, 0);
    } else {
      Quotient(y + 1, k, q, r + 1);
    }
  }

  lemma Quotient(n: nat, k: nat, q: nat, r: nat)
    requires k > 0 && r < k && n == q * k + r
    ensures n / k == q && n % k == r
  {
    var d := n / k;
    Recompose(k, n);
    if d < q {
      Between(k, d, q);
    } else if d > q {
      Between(k, q, d);
    }
  }

  lemma Between(k: nat, a: nat, b: nat)
    requires a < b
    ensures a * k + k <= b * k
  {
    MultiplesGrow(k, a + 1, b);
    assert (a + 1) * k == a * k + k;
  }

  /** Leap years are the multiples of 4, not of 100, but of 400. */
  lemma LeapsCounted(year: nat)
    ensures (if IsLeap(year) then 1 else 0) ==
            (if year % 4 == 0 then 1 else 0) - (if year % 100 == 0 then 1 else 0) + (if year % 400 == 0 then 1 else 0)
  {
    if year % 400 == 0 { Quotient(year, 100, 4 * (year / 400), 0); }
    if year % 100 == 0 { Quotient(year, 4, 25 * (year / 100), 0); }
  }

  lemma {:induction false} YearsGrow(a: nat, b: nat)
    requires 1 <= a <= b
    ensures DaysBeforeYear(a) <= DaysBeforeYear(b)
  {
    if a == b {
    } else {
      NextYear(b - 1);
      YearsGrow(a, b - 1);
    }
  }

  lemma {:induction false} MonthsGrow(year: nat, a: nat, b: nat)
    requires a <= b
    ensures DaysBeforeMonth(year, a) <= DaysBeforeMonth(year, b)
  {
    if a == b {
    } else {
      MonthsGrow(year, a, b - 1);
    }
  }

  lemma MonthsFill(year: nat)
    ensures DaysBeforeMonth(year, 13) == YearLength(year)
  {
    var march := 31 + DaysIn(year, 2);
    assert DaysBeforeMonth(year, 2) == 31;
    assert DaysBeforeMonth(year, 3) == march;
    assert DaysBeforeMonth(year, 5) == march + 61;
    assert DaysBeforeMonth(year, 7) == march + 122;
    assert DaysBeforeMonth(year, 9) == march + 184;
    assert DaysBeforeMonth(year, 11) == march + 245;
  }

  /** The year that the `day`-th day from the start of `year` falls in, and its place there. */
  function YearOf(day: nat, year: nat): (r: (nat, nat))
    requires year >= 1
    ensures r.0 >= year && r.1 < YearLength(r.0) && DaysBeforeYear(year) + day == DaysBeforeYear(r.0) + r.1
  {
    if day < YearLength(year) then (year, day)
    else
      NextYear(year);
      YearOf(day - YearLength(year), year + 1)
  }

  function MonthOf(day: nat, year: nat, month: nat): (r: (nat, nat))
    requires 1 <= month <= 12 && DaysBeforeMonth(year, month) + day < DaysBeforeMonth(year, 13)
    ensures month <= r.0 <= 12 && r.1 < DaysIn(year, r.0)
    ensures DaysBeforeMonth(year, month) + day == DaysBeforeMonth(year, r.0) + r.1
    decreases 12 - month
  {
    if day < DaysIn(year, month) then (month, day) else MonthOf(day - DaysIn(year, month), year, month + 1)
  }

  function StampOf(t: nat): Stamp {
    var seconds := t / 1_000_000;
    var (year, rest) := YearOf(seconds / 86_400, 1);
    MonthsFill(year);
    var (month, day) := MonthOf(rest, year, 1);
    Stamp(year, month, day + 1, seconds / 3600 % 24, seconds / 60 % 60, seconds % 60, t % 1_000_000)
  }

  lemma StampIsValid(t: nat)
    requires t < END
    ensures ValidStamp(StampOf(t))
  {
    var year := StampOf(t).year;
    assert DaysBeforeYear(year) <= t / 1_000_000 / 86_400;
    if year >= 10_000 {
      YearsGrow(10_000, year);
      assert false;
    }
  }

  /** Every instant before year 10000 has a stamp that names it. */
  lemma InstantOfStamp(t: nat)
    requires t < END
    ensures ValidStamp(StampOf(t)) && Instant(StampOf(t)) == t
  {
    StampIsValid(t);
    DayOfStamp(t);
    ClockAdds(t / 1_000_000);
  }

  lemma DayOfStamp(t: nat)
    requires t < END && ValidStamp(StampOf(t))
    ensures DayNumber(StampOf(t)) == t / 1_000_000 / 86_400
  {}

  lemma ClockAdds(seconds: nat)
    ensures ((seconds / 86_400 * 24 + seconds / 3600 % 24) * 60 + seconds / 60 % 60) * 60 + seconds % 60 == seconds
  {
    var minutes := seconds / 60;
    var hours := minutes / 60;
    Quotient(seconds, 3600, hours, minutes % 60 * 60 + seconds % 60);
    Quotient(seconds, 86_400, hours / 24, hours % 24 * 3600 + minutes % 60 * 60 + seconds % 60);
  }

  // ---- the order -------------------------------------------------------------------------------------------------

  predicate DateBefore(a: Stamp, b: Stamp) {
    a.year < b.year || (a.year == b.year && (a.month < b.month || (a.month == b.month && a.day < b.day)))
  }

  predicate ClockBefore(a: Stamp, b: Stamp) {
    || a.hour < b.hour
    || (a.hour == b.hour && (a.minute < b.minute || (a.minute == b.minute
          && (a.second < b.second || (a.second == b.second && a.micro < b.micro)))))
  }

  /** How two `datetime` values compare: field by field. */
  predicate StampBefore(a: Stamp, b: Stamp) {
    DateBefore(a, b) || (!DateBefore(b, a) && ClockBefore(a, b))
  }

  lemma DatesGrow(a: Stamp, b: Stamp)
    requires ValidStamp(a) && ValidStamp(b) && DateBefore(a, b)
    ensures DayNumber(a) < DayNumber(b)
  {
    if a.year < b.year {
      MonthsGrow(a.year, a.month + 1, 13);
      MonthsFill(a.year);
      NextYear(a.year);
      YearsGrow(a.year + 1, b.year);
    } else if a.month < b.month {
      MonthsGrow(a.year, a.month + 1, b.month);
    }
  }

  lemma StampsGrow(a: Stamp, b: Stamp)
    requires ValidStamp(a) && ValidStamp(b) && StampBefore(a, b)
    ensures Instant(a) < Instant(b)
  {
    if DateBefore(a, b) { DatesGrow(a, b); }
  }

  /** Stamps compare as the instants they name. */
  lemma InstantOrder(a: Stamp, b: Stamp)
    requires ValidStamp(a) && ValidStamp(b)
    ensures StampBefore(a, b) <==> Instant(a) < Instant(b)
    ensures a == b <==> Instant(a) == Instant(b)
  {
    if StampBefore(a, b) {
      StampsGrow(a, b);
    } else if StampBefore(b, a) {
      StampsGrow(b, a);
    } else {
      assert a == b;
    }
  }
}
