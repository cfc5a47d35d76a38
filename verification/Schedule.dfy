/** Calendar-aligned due-ness (internal/schedule/schedule.go).

    An instant is a whole number of nanoseconds since the Unix epoch, in UTC;
    negative instants are before 1970. Dafny's `/` and `%` round down for a
    positive divisor, which is what truncating to a calendar field does. */
module Schedule {
  import opened Wrappers

  type Time = int

  const SECOND: int := 1_000_000_000
  const HOUR: int := 3600 * SECOND
  const DAY: int := 24 * HOUR
  const WEEK: int := 7 * DAY

  /** Go's zero time, 0001-01-01 00:00 UTC: what a job that never ran has. */
  const ZERO_TIME: Time := -62_135_596_800 * SECOND

  predicate Known(sched: string) {
    sched == "hourly" || sched == "daily" || sched == "weekly"
  }

  /** Day of the week of a day number, Sunday being 0: the epoch was a Thursday. */
  function Weekday(day: int): int {
    (day + 4) % 7
  }

  function Truncate(t: Time, sched: string): Option<Time> {
    if sched == "hourly" then Some(t - t % HOUR)
    else if sched == "daily" then Some(t - t % DAY)
    else if sched == "weekly" then
      var day := t - t % DAY;
      Some(day - Weekday(day / DAY) * DAY)
    else None
  }

  function Next(sched: string, lastRun: Time): Option<Time> {
    match Truncate(lastRun, sched)
    case None => None
    case Some(start) =>
      Some(start + if sched == "hourly" then HOUR else if sched == "daily" then DAY else WEEK)
  }

  function Due(sched: string, lastRun: Time, now: Time): Option<bool> {
    if lastRun == ZERO_TIME then Some(true)
    else
      match (Truncate(now, sched), Truncate(lastRun, sched))
      case (Some(current), Some(last)) => Some(current != last)
      case _ => None
  }

  // ----- What a period is, independently of how it is computed -----

  /** The instants a schedule's periods start at. */
  predicate IsBoundary(sched: string, t: Time) {
    if sched == "hourly" then t % HOUR == 0
    else t % DAY == 0 && (sched == "weekly" ==> Weekday(t / DAY) == 0)
  }

  /** Length of a period, and how far before the epoch one starts. */
  function Length(sched: string): int {
    if sched == "hourly" then HOUR else if sched == "daily" then DAY else WEEK
  }

  function Shift(sched: string): int {
    if sched == "weekly" then 4 * DAY else 0
  }

  lemma ModUnique(x: int, n: int, q: int, r: int)
    requires n > 0 && x == n * q + r && 0 <= r < n
    ensures x % n == r
  {
    var d := q - x / n;
    assert n * d == x % n - r;
    assert d > 0 ==> n * d >= n;
    assert d < 0 ==> n * d <= -n;
  }

  lemma TruncateForm(sched: string, t: Time)
    requires Known(sched)
    ensures Truncate(t, sched).value == t - (t + Shift(sched)) % Length(sched)
  {
    if sched == "weekly" {
      var day := t / DAY;
      ModUnique(t - t % DAY, DAY, day, 0);
      assert (t - t % DAY) / DAY == day;
      var r := Weekday(day) * DAY + t % DAY;
      ModUnique(t + 4 * DAY, WEEK, (day + 4) / 7, r);
    }
  }

  lemma BoundaryForm(sched: string, t: Time)
    requires Known(sched)
    ensures IsBoundary(sched, t) <==> (t + Shift(sched)) % Length(sched) == 0
  {
    TruncateForm(sched, t);
    if sched == "weekly" && t % DAY == 0 {
      assert t - t % DAY == t;
    }
  }

  lemma MultiplesApart(a: int, b: int, n: int)
    requires n > 0 && a % n == 0 && b % n == 0
    ensures a <= b || b + n <= a
  {
    var i, j := a / n, b / n;
    assert a == n * i && b == n * j;
    if i > j {
      TimesMonotone(n, j + 1, i);
      assert n * (j + 1) == b + n;
    } else {
      TimesMonotone(n, i, j);
    }
  }

  lemma TimesMonotone(n: int, i: int, j: int)
    requires n > 0 && i <= j
    ensures n * i <= n * j
  {
    assert n * (j - i) >= 0;
  }

  lemma RoundDown(x: int, n: int)
    requires n > 0
    ensures (x - x % n) % n == 0 && (x - x % n + n) % n == 0
  {
    var q := x / n;
    ModUnique(x - x % n, n, q, 0);
    ModUnique(x - x % n + n, n, q + 1, 0);
  }

  /** Truncate finds the last boundary at or before t, and Next the first one after it. */
  lemma TruncateIsLatestBoundary(sched: string, t: Time)
    requires Known(sched)
    ensures var p, n := Truncate(t, sched).value, Next(sched, t).value;
            && IsBoundary(sched, p) && IsBoundary(sched, n)
            && p <= t < n
            && forall b :: IsBoundary(sched, b) ==> b <= p || n <= b
  {
    var p, n := Truncate(t, sched).value, Next(sched, t).value;
    var k, len := Shift(sched), Length(sched);
    TruncateForm(sched, t);
    RoundDown(t + k, len);
    assert p + k == t + k - (t + k) % len && n == p + len;
    BoundaryForm(sched, p);
    BoundaryForm(sched, n);
    forall b | IsBoundary(sched, b)
      ensures b <= p || n <= b
    {
      BoundaryForm(sched, b);
      MultiplesApart(b + k, p + k, len);
    }
  }

  /** The intervals [Truncate(t), Next(t)) partition time: u is in t's interval
      exactly when it has the same one. */
  lemma PeriodsPartitionTime(sched: string, t: Time, u: Time)
    requires Known(sched)
    ensures Truncate(t, sched).value <= u < Next(sched, t).value <==> Truncate(u, sched) == Truncate(t, sched)
  {
    TruncateIsLatestBoundary(sched, t);
    TruncateIsLatestBoundary(sched, u);
  }

  lemma TruncateMonotone(sched: string, t: Time, u: Time)
    requires Known(sched) && t <= u
    ensures Truncate(t, sched).value <= Truncate(u, sched).value
  {
    TruncateIsLatestBoundary(sched, t);
    TruncateIsLatestBoundary(sched, u);
  }

  lemma TruncateIdempotent(sched: string, t: Time)
    requires Known(sched)
    ensures Truncate(Truncate(t, sched).value, sched) == Truncate(t, sched)
  {
    TruncateIsLatestBoundary(sched, t);
    BoundaryForm(sched, Truncate(t, sched).value);
  }

  /** A job is due exactly when it never ran or the present is outside the
      period of its last run, on either side. */
  lemma DueExactly(sched: string, lastRun: Time, now: Time)
    requires Known(sched)
    ensures Due(sched, lastRun, now) ==
            Some(lastRun == ZERO_TIME || !(Truncate(lastRun, sched).value <= now < Next(sched, lastRun).value))
  {
    PeriodsPartitionTime(sched, lastRun, now);
  }

  /** A schedule that is not known is an error, except to a job that never ran. */
  lemma UnknownIsRefused(sched: string, lastRun: Time, now: Time)
    ensures Truncate(now, sched).None? <==> sched != "hourly" && sched != "daily" && sched != "weekly"
    ensures Next(sched, lastRun).None? <==> Truncate(now, sched).None?
    ensures Due(sched, lastRun, now).None? <==> Truncate(now, sched).None? && lastRun != ZERO_TIME
  {
  }

  /** Once the clock has not gone back, that is "from Next on". The one
      exception is the zero instant itself, which counts as never having run. */
  lemma DueFromNext(sched: string, lastRun: Time, now: Time)
    requires Known(sched) && lastRun <= now
    ensures (Due(sched, lastRun, now).value <==> now >= Next(sched, lastRun).value)
       <==> (lastRun != ZERO_TIME || now >= Next(sched, ZERO_TIME).value)
  {
    DueExactly(sched, lastRun, now);
    TruncateIsLatestBoundary(sched, lastRun);
  }

  /** That exception: such a job is due in the very instant it ran. */
  lemma DueAtZeroTime(sched: string)
    requires Known(sched)
    ensures Due(sched, ZERO_TIME, ZERO_TIME) == Some(true) && ZERO_TIME < Next(sched, ZERO_TIME).value
  {
    TruncateIsLatestBoundary(sched, ZERO_TIME);
  }

  /** However many periods were missed, a job that runs when due is not due
      again before the next boundary. */
  lemma CatchesUpOnce(sched: string, ranAt: Time, now: Time)
    requires Known(sched) && ZERO_TIME < ranAt <= now
    ensures Due(sched, ranAt, now).value ==> Truncate(ranAt, sched).value < Truncate(now, sched).value
    ensures Truncate(ranAt, sched) == Truncate(now, sched) ==> !Due(sched, ranAt, now).value
  {
    TruncateMonotone(sched, ranAt, now);
  }
}
