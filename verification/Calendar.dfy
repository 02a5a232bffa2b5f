/** Budget and quota windows. Instants are integers; where days, months and years begin
    depends on the time zone, so a calendar is a parameter of which only the laws of
    truncating an instant are used. */
module Calendar {
  import opened Text

  type Instant = int

  datatype Zone = Zone(dayStart: Instant -> Instant, monthStart: Instant -> Instant, yearStart: Instant -> Instant)

  /** start(t) is the beginning of the unit containing t: not after t, and the same for
      every instant between it and t. */
  ghost predicate Truncates(start: Instant -> Instant) {
    && (forall t :: start(t) <= t)
    && (forall r, t :: start(t) <= r <= t ==> start(r) == start(t))
  }

  ghost predicate Lawful(z: Zone) {
    && Truncates(z.dayStart) && Truncates(z.monthStart) && Truncates(z.yearStart)
    && forall t :: z.yearStart(t) <= z.monthStart(t) <= z.dayStart(t)
  }

  /** aiBudgetPeriodStart: an unknown period counts as monthly. */
  function PeriodStart(z: Zone, period: string, now: Instant): Instant {
    var p := Lower(Trim(period));
    if p == "daily" then z.dayStart(now)
    else if p == "yearly" || p == "annual" then z.yearStart(now)
    else z.monthStart(now)
  }

  /** A window never starts in the future, starts no earlier than the year, and when it
      moves on, everything up to the previous reading of the clock falls out of it. */
  lemma WindowMovesPast(z: Zone, period: string, before: Instant, now: Instant)
    requires Lawful(z) && before <= now
    ensures z.yearStart(now) <= PeriodStart(z, period, now) <= now
    ensures PeriodStart(z, period, now) == PeriodStart(z, period, before)
         || PeriodStart(z, period, now) > before
  {
  }

  function PlainDay(t: Instant): Instant { t - t % 86400 }
  function PlainMonth(t: Instant): Instant { t - t % 2592000 }
  function PlainYear(t: Instant): Instant { t - t % 31104000 }

  /** The laws can be met: days of 24 hours, months of 30 days, years of 12 months. */
  lemma PlainZoneIsLawful()
    ensures Lawful(Zone(PlainDay, PlainMonth, PlainYear))
  {
    PlainDayTruncates();
    PlainMonthTruncates();
    PlainYearTruncates();
    forall t ensures PlainYear(t) <= PlainMonth(t) <= PlainDay(t) {
      PlainUnitsNest(t);
    }
    hide PlainDay, PlainMonth, PlainYear, Truncates;
  }

  lemma PlainDayTruncates()
    ensures Truncates(PlainDay)
  {
    forall r, t ensures PlainDay(t) <= r <= t ==> PlainDay(r) == PlainDay(t) {
    }
  }

  lemma PlainMonthTruncates()
    ensures Truncates(PlainMonth)
  {
    forall r, t ensures PlainMonth(t) <= r <= t ==> PlainMonth(r) == PlainMonth(t) {
    }
  }

  lemma PlainYearTruncates()
    ensures Truncates(PlainYear)
  {
    forall r, t ensures PlainYear(t) <= r <= t ==> PlainYear(r) == PlainYear(t) {
    }
  }

  lemma PlainUnitsNest(t: Instant)
    ensures PlainYear(t) <= PlainMonth(t) <= PlainDay(t)
  {
    var d, m, y := t / 86400, t / 2592000, t / 31104000;
    assert t == 86400 * d + t % 86400 == 2592000 * m + t % 2592000 == 31104000 * y + t % 31104000;
    assert d >= 30 * m && m >= 12 * y;
  }
}
