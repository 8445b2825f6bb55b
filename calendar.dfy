/** Calendar days of the proleptic Gregorian calendar, instants within a day,
    and the half-open day windows the reminder scanner queries. This stands in
    for the parts of Go's `time` package the scanner uses: `AddDate(0, 0, 1)`,
    truncation to midnight, `Add(24 * time.Hour)` and the Year/Month/Day
    accessors. Time zones and daylight-saving shifts are not modelled: every
    day is 24 hours long. */
module Calendar {

  predicate IsLeapYear(y: int) {
    y % 4 == 0 && (y % 100 != 0 || y % 400 == 0)
  }

  function DaysInMonth(y: int, m: int): (n: int)
    requires 1 <= m <= 12
    ensures 28 <= n <= 31
  {
    if m == 2 then (if IsLeapYear(y) then 29 else 28)
    else if m == 4 || m == 6 || m == 9 || m == 11 then 30
    else 31
  }

  /** A year, month and day; `Valid` holds of the dates the calendar has. */
  datatype CivilDate = CivilDate(year: int, month: int, day: int)
  {
    predicate Valid() {
      1 <= month <= 12 && 1 <= day <= DaysInMonth(year, month)
    }
  }

  /** A calendar day, as Go's normalised `time.Time` always yields. */
  type Date = d: CivilDate | d.Valid() witness CivilDate(1970, 1, 1)

  /** Chronological order of calendar days. */
  predicate Precedes(a: CivilDate, b: CivilDate) {
    || a.year < b.year
    || (a.year == b.year && a.month < b.month)
    || (a.year == b.year && a.month == b.month && a.day < b.day)
  }

  /** The following calendar day, what `now.AddDate(0, 0, 1)` denotes:
      strictly later than `d`, and no calendar day lies between the two. */
  function NextDay(d: Date): (r: Date)
    ensures Precedes(d, r)
    ensures forall e: Date :: Precedes(d, e) ==> r == e || Precedes(r, e)
  {
    if d.day < DaysInMonth(d.year, d.month) then CivilDate(d.year, d.month, d.day + 1)
    else if d.month < 12 then CivilDate(d.year, d.month + 1, 1)
    else CivilDate(d.year + 1, 1, 1)
  }

  /** Tomorrow is never today: the fact that keeps the two reminder kinds apart. */
  lemma NextDayDiffers(d: Date)
    ensures NextDay(d) != d
  {
  }

  /** Seconds elapsed since local midnight. */
  type SecondOfDay = s: int | 0 <= s < 86400

  /** A point in time: a calendar day and a second within it. */
  datatype Instant = Instant(date: Date, second: SecondOfDay)

  predicate Earlier(a: Instant, b: Instant) {
    Precedes(a.date, b.date) || (a.date == b.date && a.second < b.second)
  }

  /** The instant `time.Date(y, m, d, 0, 0, 0, 0, loc)`. */
  function Midnight(d: Date): Instant {
    Instant(d, 0)
  }

  /** `t.Add(24 * time.Hour)` in a zone without daylight-saving changes: the
      same second of the immediately following calendar day. */
  function Add24Hours(t: Instant): (r: Instant)
    ensures Earlier(t, r)
    ensures r.second == t.second && Precedes(t.date, r.date)
    ensures forall e: Date :: Precedes(t.date, e) ==> r.date == e || Precedes(r.date, e)
  {
    Instant(NextDay(t.date), t.second)
  }

  /** A half-open range of instants `[start, end)`, as the event store is queried. */
  datatype Window = Window(start: Instant, end: Instant)

  predicate Contains(w: Window, t: Instant) {
    !Earlier(t, w.start) && Earlier(t, w.end)
  }

  /** The window from midnight of `d` to 24 hours later. It holds exactly the
      instants whose calendar day is `d`. */
  function DayWindow(d: Date): (w: Window)
    ensures w.start == Midnight(d)
    ensures forall t: Instant :: Contains(w, t) <==> t.date == d
  {
    var start := Midnight(d);
    var w := Window(start, Add24Hours(start));
    forall t: Instant
      ensures Contains(w, t) <==> t.date == d
    {
      if t.date == d {
        assert Precedes(d, NextDay(d));
      }
      if Contains(w, t) {
        assert !Precedes(t.date, d);
        assert Precedes(t.date, NextDay(d));
      }
    }
    w
  }

  /** The scanner's two windows, tomorrow's and today's, meet end to start and
      share no instant. */
  lemma DayWindowsAdjacent(now: Date)
    ensures DayWindow(now).end == DayWindow(NextDay(now)).start
    ensures forall t: Instant :: !(Contains(DayWindow(now), t) && Contains(DayWindow(NextDay(now)), t))
  {
  }
}
